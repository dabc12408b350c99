/** Removing the elements of a pool that fail a test while keeping the order
    of the others: the game's `filter` reassignments, and the reference that
    its in-place removal loops are compared against. */
module Sequences {

  /** The elements of `s` that pass `keep`, in their original order. */
  function Retain<T>(s: seq<T>, keep: T -> bool): (r: seq<T>)
    ensures |r| <= |s|
  {
    if s == [] then []
    else (if keep(s[0]) then [s[0]] else []) + Retain(s[1..], keep)
  }

  /** An element survives exactly when it was there and passes the test. */
  lemma {:induction false} RetainMembership<T>(s: seq<T>, keep: T -> bool)
    ensures forall x :: x in Retain(s, keep) <==> x in s && keep(x)
  {
    if s != [] {
      RetainMembership(s[1..], keep);
      assert s == [s[0]] + s[1..];
    }
  }

  /** Retaining distributes over concatenation: survivors keep their relative
      order. */
  lemma {:induction false} RetainAppend<T>(a: seq<T>, b: seq<T>, keep: T -> bool)
    ensures Retain(a + b, keep) == Retain(a, keep) + Retain(b, keep)
  {
    if a == [] {
      assert a + b == b;
    } else {
      var head := if keep(a[0]) then [a[0]] else [];
      assert (a + b)[0] == a[0] && (a + b)[1..] == a[1..] + b;
      RetainAppend(a[1..], b, keep);
      calc {
        Retain(a + b, keep);
        head + Retain(a[1..] + b, keep);
        head + (Retain(a[1..], keep) + Retain(b, keep));
        (head + Retain(a[1..], keep)) + Retain(b, keep);
        Retain(a, keep) + Retain(b, keep);
      }
    }
  }

  /** Nothing is removed exactly when every element passes. */
  lemma {:induction false} RetainAll<T>(s: seq<T>, keep: T -> bool)
    ensures Retain(s, keep) == s <==> forall i :: 0 <= i < |s| ==> keep(s[i])
  {
    if s != [] {
      RetainAll(s[1..], keep);
      if !keep(s[0]) {
        assert |Retain(s, keep)| < |s|;
      }
    }
  }

  /** How many elements of `s` fail `keep`. */
  function Rejected<T>(s: seq<T>, keep: T -> bool): nat
  {
    if s == [] then 0 else (if keep(s[0]) then 0 else 1) + Rejected(s[1..], keep)
  }

  /** Every element either survives or is counted as rejected. */
  lemma {:induction false} RetainRejected<T>(s: seq<T>, keep: T -> bool)
    ensures |Retain(s, keep)| + Rejected(s, keep) == |s|
  {
    if s != [] {
      RetainRejected(s[1..], keep);
    }
  }

  /** `s` with its element at index `k` taken out, as `splice(k, 1)` leaves it. */
  function RemoveAt<T>(s: seq<T>, k: nat): (r: seq<T>)
    requires k < |s|
    ensures |r| == |s| - 1
    ensures forall i :: 0 <= i < k ==> r[i] == s[i]
    ensures forall i :: k <= i < |r| ==> r[i] == s[i + 1]
  {
    s[..k] + s[k + 1..]
  }

  /** What `splice(k, 1)` leaves before and after slot `k`, and, when a
      successor exists, the slots up to `k` once it has moved into slot `k`. */
  lemma RemoveAtSlices<T>(s: seq<T>, k: nat)
    requires k < |s|
    ensures RemoveAt(s, k)[..k] == s[..k]
    ensures RemoveAt(s, k)[k..] == s[k + 1..]
    ensures k + 1 < |s| ==> RemoveAt(s, k)[..k + 1] == s[..k] + [s[k + 1]]
    ensures k + 1 < |s| ==> RemoveAt(s, k)[k + 1..] == s[k + 2..]
  {
    var r := RemoveAt(s, k);
    if k + 1 < |s| {
      assert r[..k + 1] == r[..k] + [r[k]];
      assert r[k + 1..] == r[k..][1..];
      assert s[k + 2..] == s[k + 1..][1..];
    }
  }

  /** Overwriting slot `k` leaves the slices around it alone. */
  lemma UpdateSlices<T>(s: seq<T>, k: nat, v: T)
    requires k < |s|
    ensures s[k := v][..k + 1] == s[..k] + [v]
    ensures s[k := v][k + 1..] == s[k + 1..]
    ensures s[k := v][..k] == s[..k]
  {
    assert s[k := v][..k + 1] == s[k := v][..k] + [v];
  }

  lemma AppendAssoc<T>(a: seq<T>, b: seq<T>, c: seq<T>)
    ensures (a + b) + c == a + (b + c)
  {
  }
}

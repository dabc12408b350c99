/** The bounding-box test the game uses for every contact between the ship
    and a treasure, an obstacle or a power-up. */
module Geometry {

  /** An axis-aligned box: top-left corner, width and height, in canvas units
      (y grows downwards). */
  datatype Box = Box(x: real, y: real, width: real, height: real)

  /** The box test exactly as the game computes it. The fourth conjunct adds
      the SECOND box's height to the first box's top, where the first box's own
      height would be expected; the test is therefore not symmetric. With a
      first box at least as tall as the second (the ship against anything the
      game spawns) it reports only real overlaps, though not all of them. */
  predicate CheckCollision(a: Box, b: Box)
    ensures a.height >= b.height && CheckCollision(a, b) ==> Intersects(a, b)
    ensures a.height <= b.height && Intersects(a, b) ==> CheckCollision(a, b)
  {
    && a.x < b.x + b.width
    && a.x + a.width > b.x
    && a.y < b.y + b.height
    && a.y + b.height > b.y
  }

  /** The usual overlap of two boxes, each with its own width and height. */
  predicate Intersects(a: Box, b: Box)
  {
    && a.x < b.x + b.width
    && a.x + a.width > b.x
    && a.y < b.y + b.height
    && a.y + a.height > b.y
  }

  /** The reference test is symmetric. */
  lemma IntersectsSymmetric(a: Box, b: Box)
    ensures Intersects(a, b) == Intersects(b, a)
  {
  }

  /** The game's test is the reference overlap whenever the two boxes are
      equally tall, and is then symmetric too. */
  lemma CheckCollisionAgreesOnEqualHeights(a: Box, b: Box)
    requires a.height == b.height
    ensures CheckCollision(a, b) == Intersects(a, b)
    ensures CheckCollision(a, b) == CheckCollision(b, a)
  {
    IntersectsSymmetric(a, b);
  }

  /** The game's vertical test reduces to "the first box's top lies strictly
      within one height of the second box's top", measured with the second
      box's height. */
  lemma CheckCollisionVertical(a: Box, b: Box)
    ensures CheckCollision(a, b) <==>
              && a.x < b.x + b.width && a.x + a.width > b.x
              && b.y - b.height < a.y < b.y + b.height
  {
  }

  /** A 30-tall treasure whose top lies 40 below the top of a 50-tall ship
      overlaps the ship's lower part, yet the game's test misses that contact
      when the ship is the first argument (as in every call the game makes),
      and finds it when the treasure is. */
  lemma CheckCollisionNotSymmetric()
    ensures var ship := Box(0.0, 0.0, 50.0, 50.0);
            var treasure := Box(0.0, 40.0, 30.0, 30.0);
            && Intersects(ship, treasure)
            && !CheckCollision(ship, treasure)
            && CheckCollision(treasure, ship)
  {
  }
}

/** Words, boxes and the padded collision test of the word-cloud layout engine.
    Coordinates are container-local reals: x grows to the right, y grows downwards. */
module Geometry {

  /** An input label: its text and its importance. */
  datatype Word = Word(text: string, value: real)

  /** An axis-aligned box: top-left corner and extent. */
  datatype Position = Position(x: real, y: real, width: real, height: real)

  /** A word after layout: the word, its box and the font size it was sized with. */
  datatype PlacedWord = PlacedWord(text: string, value: real, x: real, y: real,
                                   width: real, height: real, fontSize: real)
  {
    function Box(): (b: Position)
      ensures b.x == x && b.y == y && b.width == width && b.height == height
    {
      Position(x, y, width, height)
    }

    function AsWord(): (w: Word)
      ensures w.text == text && w.value == value
    {
      Word(text, value)
    }
  }

  /** Builds the placed word from the word, its box and its font size (the `{ ...word, ...position, fontSize }` record). */
  function Place(w: Word, p: Position, fontSize: real): (pw: PlacedWord)
    ensures pw.AsWord() == w && pw.Box() == p && pw.fontSize == fontSize
  {
    PlacedWord(w.text, w.value, p.x, p.y, p.width, p.height, fontSize)
  }

  /** The words of a layout, in placement order. */
  function Words(ps: seq<PlacedWord>): (ws: seq<Word>)
    ensures |ws| == |ps|
    ensures forall i :: 0 <= i < |ps| ==> ws[i] == ps[i].AsWord()
  {
    if ps == [] then [] else Words(ps[..|ps| - 1]) + [ps[|ps| - 1].AsWord()]
  }

  /** Placing one more word adds its word at the end. */
  lemma WordsAppend(ps: seq<PlacedWord>, p: PlacedWord)
    ensures Words(ps + [p]) == Words(ps) + [p.AsWord()]
  {
    assert (ps + [p])[..|ps|] == ps;
  }

  /** Spacing that two boxes must keep between them on at least one axis. */
  const Padding: real := 4.0

  /** The spans [p, p + l] and [q, q + m], each grown by Padding at its far end, share a point. */
  predicate SpansMeet(p: real, l: real, q: real, m: real)
  {
    q <= p + l + Padding && p <= q + m + Padding
  }

  /** The negated separation test used for one placed box: `a` collides with `b`
      unless it lies more than Padding to the left of, to the right of, above or below `b`.
      That is, the padded spans of the two boxes meet on both axes. */
  function Overlaps(a: Position, b: Position): (r: bool)
    ensures r <==> SpansMeet(a.x, a.width, b.x, b.width) && SpansMeet(a.y, a.height, b.y, b.height)
  {
    !(a.x + a.width + Padding < b.x ||
      a.x > b.x + b.width + Padding ||
      a.y + a.height + Padding < b.y ||
      a.y > b.y + b.height + Padding)
  }

  /** True iff the candidate collides with some already placed word. */
  function CheckCollision(pos: Position, placed: seq<PlacedWord>): (r: bool)
    ensures r <==> exists i :: 0 <= i < |placed| && Overlaps(pos, placed[i].Box())
  {
    if placed == [] then false
    else Overlaps(pos, placed[0].Box()) || CheckCollision(pos, placed[1..])
  }

  /** A point of the plane lies in the box grown by Padding to the right and downwards. */
  predicate InPadded(px: real, py: real, b: Position)
  {
    b.x <= px <= b.x + b.width + Padding && b.y <= py <= b.y + b.height + Padding
  }

  /** Independent reading of the collision test: for boxes of non-negative extent, two boxes
      collide exactly when their padded boxes share a point. */
  lemma OverlapsIffPaddedBoxesMeet(a: Position, b: Position)
    requires a.width >= 0.0 && a.height >= 0.0 && b.width >= 0.0 && b.height >= 0.0
    ensures Overlaps(a, b) <==> exists px, py :: InPadded(px, py, a) && InPadded(px, py, b)
  {
    if Overlaps(a, b) {
      var px := if a.x < b.x then b.x else a.x;
      var py := if a.y < b.y then b.y else a.y;
      assert InPadded(px, py, a) && InPadded(px, py, b);
    }
  }

  /** The test does not depend on which box is the candidate and which is already placed. */
  lemma CollisionSymmetric(a: PlacedWord, b: PlacedWord)
    ensures CheckCollision(a.Box(), [b]) == CheckCollision(b.Box(), [a])
  {
    assert [b][0] == b && [a][0] == a;
  }

  /** The comparisons are strict: for boxes whose padded vertical spans meet, a horizontal gap
      of exactly Padding still collides, while any larger gap separates them. */
  lemma GapOfExactlyPaddingCollides(a: Position, b: Position)
    requires SpansMeet(a.y, a.height, b.y, b.height)
    requires a.width >= 0.0 && b.width >= 0.0
    ensures b.x == a.x + a.width + Padding ==> Overlaps(a, b) && Overlaps(b, a)
    ensures b.x > a.x + a.width + Padding ==> !Overlaps(a, b) && !Overlaps(b, a)
  {
  }

  /** Nothing collides with an empty layout. */
  lemma NoCollisionWithEmptyLayout(pos: Position)
    ensures !CheckCollision(pos, [])
  {
  }

  /** Colliding with a concatenation is colliding with one of its parts. */
  lemma {:induction false} CollisionWithAppend(pos: Position, xs: seq<PlacedWord>, ys: seq<PlacedWord>)
    ensures CheckCollision(pos, xs + ys) == (CheckCollision(pos, xs) || CheckCollision(pos, ys))
  {
    if xs == [] {
      assert xs + ys == ys;
    } else {
      assert (xs + ys)[1..] == xs[1..] + ys;
      CollisionWithAppend(pos, xs[1..], ys);
    }
  }

  /** No two distinct words of the layout collide. */
  predicate NonOverlapping(placed: seq<PlacedWord>)
  {
    forall i, j :: 0 <= i < |placed| && 0 <= j < |placed| && i != j ==>
      !Overlaps(placed[i].Box(), placed[j].Box())
  }

  /** Appending a word that does not collide with a non-overlapping layout keeps it non-overlapping. */
  lemma AppendKeepsNonOverlapping(placed: seq<PlacedWord>, p: PlacedWord)
    requires NonOverlapping(placed)
    requires !CheckCollision(p.Box(), placed)
    ensures NonOverlapping(placed + [p])
  {
    var out := placed + [p];
    forall i, j | 0 <= i < |out| && 0 <= j < |out| && i != j
      ensures !Overlaps(out[i].Box(), out[j].Box())
    {
      if i == |placed| {
        assert !Overlaps(p.Box(), placed[j].Box());
      } else if j == |placed| {
        assert !Overlaps(p.Box(), placed[i].Box());
      }
    }
  }
}

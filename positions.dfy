/** Editor positions and ranges, byte spans and line tables.

    A `Position` is the editor protocol's (line, character) pair; positions
    are compared lexicographically, as the derived ordering of the protocol
    type does. A `Span` is a half-open byte interval of one module's source.
    How a span becomes a range (UTF-16 counting over the line table) lives
    outside this model and is passed around as a function `SpanToRange`. */
module Positions {

  datatype Position = Position(line: nat, character: nat)

  datatype Range = Range(start: Position, end: Position)

  /** A half-open [start, end) interval of byte offsets. */
  datatype Span = Span(start: nat, end: nat)

  /** The byte offsets at which the lines of a module's source begin. */
  datatype LineNumbers = LineNumbers(lineStarts: seq<nat>)

  /** The conversion of a byte span into an editor range. */
  type SpanToRange = (Span, LineNumbers) -> Range

  /** `a < b` in the lexicographic order of positions. */
  predicate Before(a: Position, b: Position) {
    a.line < b.line || (a.line == b.line && a.character < b.character)
  }

  /** `a <= b` in the lexicographic order of positions. */
  predicate AtOrBefore(a: Position, b: Position) {
    a.line < b.line || (a.line == b.line && a.character <= b.character)
  }

  /** A range whose start does not come after its end. */
  predicate WellFormed(r: Range) {
    AtOrBefore(r.start, r.end)
  }

  /** `within`: the range is half-open, start <= p < end. Only a non-empty
      range contains a position, and never its end. */
  predicate Within(p: Position, r: Range): (b: bool)
    ensures b ==> Before(r.start, r.end) && p != r.end
    ensures b <==> (p == r.start || Before(r.start, p)) && Before(p, r.end)
  {
    AtOrBefore(r.start, p) && Before(p, r.end)
  }

  /** `overlaps`: some endpoint of either range lies within the other. At
      least one of the two ranges is then non-empty, so two bare cursors
      never overlap. */
  predicate Overlaps(a: Range, b: Range): (o: bool)
    ensures o ==> Before(a.start, a.end) || Before(b.start, b.end)
    ensures a.start == a.end && b.start == b.end ==> !o
  {
    Within(a.start, b) || Within(a.end, b) || Within(b.start, a) || Within(b.end, a)
  }

  /** The lexicographic order is a total order: exactly one of a < b,
      a == b, b < a holds, and `AtOrBefore` is `Before` or equality. */
  lemma PositionOrderTotal(a: Position, b: Position)
    ensures AtOrBefore(a, b) <==> (Before(a, b) || a == b)
    ensures Before(a, b) ==> !AtOrBefore(b, a)
    ensures Before(a, b) || a == b || Before(b, a)
  {
  }

  /** Only a non-empty range contains a position; in particular an empty
      range (start == end) contains nothing. */
  lemma WithinOnlyNonEmpty(p: Position, r: Range)
    requires Within(p, r)
    ensures Before(r.start, r.end)
    ensures r.start != r.end
  {
  }

  /** `overlaps` does not depend on the order of its arguments. */
  lemma OverlapsSymmetric(a: Range, b: Range)
    ensures Overlaps(a, b) <==> Overlaps(b, a)
  {
  }

  /** For an empty request range (a bare cursor), overlapping a range is
      exactly containing the cursor. */
  lemma CursorOverlaps(p: Position, r: Range)
    ensures Overlaps(Range(p, p), r) <==> Within(p, r)
  {
  }

  /** Two ranges that share a position overlap. */
  lemma SharedPositionOverlaps(p: Position, a: Range, b: Range)
    requires Within(p, a) && Within(p, b)
    ensures Overlaps(a, b)
  {
    if AtOrBefore(a.start, b.start) {
      assert Within(b.start, a);
    } else {
      assert Within(a.start, b);
    }
  }

  /** Conversely, two well-formed ranges that overlap have a position in
      common once both are closed at their ends: `overlaps` also accepts
      ranges that only touch, the end of one being the start of the other. */
  lemma OverlapsMeet(a: Range, b: Range)
    requires WellFormed(a) && WellFormed(b)
    requires Overlaps(a, b)
    ensures exists p :: AtOrBefore(a.start, p) && AtOrBefore(p, a.end)
                     && AtOrBefore(b.start, p) && AtOrBefore(p, b.end)
  {
    var p := if Within(a.start, b) then a.start
             else if Within(a.end, b) then a.end
             else if Within(b.start, a) then b.start
             else b.end;
    assert AtOrBefore(a.start, p) && AtOrBefore(p, a.end)
        && AtOrBefore(b.start, p) && AtOrBefore(p, b.end);
  }

  /** Touching ranges overlap: [0:0, 1:0) and [1:0, 2:0) share no position
      of their half-open extents, yet `overlaps` holds of them. */
  lemma TouchingRangesOverlap()
    ensures Overlaps(Range(Position(0, 0), Position(1, 0)), Range(Position(1, 0), Position(2, 0)))
    ensures !exists p :: Within(p, Range(Position(0, 0), Position(1, 0)))
                      && Within(p, Range(Position(1, 0), Position(2, 0)))
  {
  }
}

/** The "Remove unused imports" code action.

    Every unused import of the module becomes one deletion edit; a deletion
    that would leave its line empty also takes the line's terminator. The
    action is offered only when one of the deleted ranges overlaps the
    range of the request, and its edits are sorted by their start. */
module UnusedImports {
  import opened Positions
  import opened Syntax

  datatype TextEdit = TextEdit(range: Range, newText: string)

  datatype CodeActionKind = QuickFix

  /** A code action with a single-document workspace edit. */
  datatype CodeAction = CodeAction(title: string, kind: CodeActionKind, uri: string, edits: seq<TextEdit>, preferred: bool)

  const RemoveUnusedImportsTitle := "Remove unused imports"

  /** The `any` over the line starts in `starts`: one of them is the span's
      start, and the offset right after the span's end also starts a line. */
  function AnyLineStartAt(starts: seq<nat>, lineStarts: seq<nat>, span: Span): (b: bool)
    ensures b <==> span.start in starts && span.end + 1 in lineStarts
  {
    if starts == [] then false
    else (starts[0] == span.start && span.end + 1 in lineStarts) || AnyLineStartAt(starts[1..], lineStarts, span)
  }

  /** `delete_line`: the span starts at a line start, and the offset right
      after its end is a line start too. */
  function DeleteLine(span: Span, lines: LineNumbers): (b: bool)
    ensures b <==> span.start in lines.lineStarts && span.end + 1 in lines.lineStarts
  {
    AnyLineStartAt(lines.lineStarts, lines.lineStarts, span)
  }

  /** The bytes removed for one unused import: the span, extended by exactly
      one byte (the line terminator) when it starts a line and the offset
      after its end starts a line; otherwise the span untouched. */
  function DeletionSpan(span: Span, lines: LineNumbers): (r: Span)
    ensures r.start == span.start
    ensures r.end == span.end + 1 <==> span.start in lines.lineStarts && span.end + 1 in lines.lineStarts
    ensures r.end != span.end + 1 ==> r == span
  {
    Span(span.start, if DeleteLine(span, lines) then span.end + 1 else span.end)
  }

  /** The edit deleting one unused import. */
  function UnusedImportEdit(span: Span, lines: LineNumbers, toRange: SpanToRange): TextEdit {
    TextEdit(toRange(DeletionSpan(span, lines), lines), "")
  }

  /** The edits for all unused imports, in the order of the unused spans:
      the i-th deletes the deletion span of the i-th unused import. */
  function UnusedImportEdits(unused: seq<Span>, lines: LineNumbers, toRange: SpanToRange): (edits: seq<TextEdit>)
    ensures |edits| == |unused|
    ensures forall i :: 0 <= i < |unused| ==>
      edits[i].newText == "" && edits[i].range == toRange(DeletionSpan(unused[i], lines), lines)
  {
    seq(|unused|, i requires 0 <= i < |unused| => UnusedImportEdit(unused[i], lines, toRange))
  }

  /** Some edit's range overlaps the request's range. */
  predicate Hovered(request: Range, edits: seq<TextEdit>) {
    exists i :: 0 <= i < |edits| && Overlaps(request, edits[i].range)
  }

  predicate SortedByStart(edits: seq<TextEdit>) {
    forall i, j :: 0 <= i < j < |edits| ==> AtOrBefore(edits[i].range.start, edits[j].range.start)
  }

  /** The "Remove unused imports" action is offered for `m` and `request`:
      there are unused imports, and one of their deletions overlaps the
      request's range. */
  predicate RemovalOffered(m: Module, request: Range, toRange: SpanToRange) {
    m.unusedImports != [] && Hovered(request, UnusedImportEdits(m.unusedImports, m.lines, toRange))
  }

  /** The action pushed for `edits`: the preferred quick fix removing the
      unused imports, holding the edits sorted by start. */
  predicate IsRemoveUnusedImports(a: CodeAction, uri: string, edits: seq<TextEdit>) {
    && a.title == RemoveUnusedImportsTitle
    && a.kind == QuickFix
    && a.preferred
    && a.uri == uri
    && SortedByStart(a.edits)
    && multiset(a.edits) == multiset(edits)
  }

  /** Inserts `e` into sorted edits after every edit that does not start
      after it, so that edits with equal starts keep their order. */
  method InsertByStart(sorted: seq<TextEdit>, e: TextEdit) returns (r: seq<TextEdit>)
    requires SortedByStart(sorted)
    ensures SortedByStart(r)
    ensures multiset(r) == multiset(sorted) + multiset{e}
    ensures exists j :: (0 <= j <= |sorted| && r == sorted[..j] + [e] + sorted[j..]
      && (forall k :: 0 <= k < j ==> AtOrBefore(sorted[k].range.start, e.range.start))
      && (forall k :: j <= k < |sorted| ==> Before(e.range.start, sorted[k].range.start)))
  {
    var j := 0;
    while j < |sorted| && AtOrBefore(sorted[j].range.start, e.range.start)
      invariant 0 <= j <= |sorted|
      invariant forall k :: 0 <= k < j ==> AtOrBefore(sorted[k].range.start, e.range.start)
    {
      j := j + 1;
    }
    r := sorted[..j] + [e] + sorted[j..];
    assert sorted == sorted[..j] + sorted[j..];
    assert forall k :: j <= k < |sorted| ==> Before(e.range.start, sorted[k].range.start);
  }

  /** `sort_by_key(|edit| edit.range.start)`: the edits, reordered so that
      their starts ascend. */
  method SortByStart(edits: seq<TextEdit>) returns (sorted: seq<TextEdit>)
    ensures SortedByStart(sorted)
    ensures multiset(sorted) == multiset(edits)
  {
    sorted := [];
    for i := 0 to |edits|
      invariant SortedByStart(sorted)
      invariant multiset(sorted) == multiset(edits[..i])
    {
      assert edits[..i + 1] == edits[..i] + [edits[i]];
      sorted := InsertByStart(sorted, edits[i]);
    }
    assert edits[..|edits|] == edits;
  }

  /** `code_action_unused_imports`: `actions` with, when the module has
      unused imports and one of their deletions overlaps the request range,
      the "Remove unused imports" quick fix appended. */
  method CodeActionUnusedImports(m: Module, uri: string, request: Range, toRange: SpanToRange, actions: seq<CodeAction>)
    returns (result: seq<CodeAction>)
    ensures !RemovalOffered(m, request, toRange) ==> result == actions
    ensures RemovalOffered(m, request, toRange) ==>
      |result| == |actions| + 1 && result[..|actions|] == actions &&
      IsRemoveUnusedImports(result[|actions|], uri, UnusedImportEdits(m.unusedImports, m.lines, toRange))
  {
    var unused := m.unusedImports;
    if |unused| == 0 {
      return actions;
    }
    var lines := m.lines;
    var hovered := false;
    var edits: seq<TextEdit> := [];
    for i := 0 to |unused|
      invariant |edits| == i
      invariant forall k :: 0 <= k < i ==> edits[k] == UnusedImportEdit(unused[k], lines, toRange)
      invariant hovered <==> exists k :: 0 <= k < i && Overlaps(request, edits[k].range)
    {
      var span := unused[i];
      var adjustedEnd := if DeleteLine(span, lines) then span.end + 1 else span.end;
      var range := toRange(Span(span.start, adjustedEnd), lines);
      hovered := hovered || Overlaps(request, range);
      edits := edits + [TextEdit(range, "")];
    }
    assert edits == UnusedImportEdits(unused, lines, toRange);
    if !hovered {
      return actions;
    }
    var sortedEdits := SortByStart(edits);
    result := actions + [CodeAction(RemoveUnusedImportsTitle, QuickFix, uri, sortedEdits, true)];
  }

  /** The quick fix holds one deletion per unused import and nothing else:
      each of its edits replaces the deletion range of some unused import
      with the empty text. */
  lemma {:induction false} RemovalDeletesEachUnusedImport(
    a: CodeAction, uri: string, unused: seq<Span>, lines: LineNumbers, toRange: SpanToRange)
    requires IsRemoveUnusedImports(a, uri, UnusedImportEdits(unused, lines, toRange))
    ensures |a.edits| == |unused|
    ensures forall e :: e in a.edits ==> (e.newText == "" &&
      exists i :: 0 <= i < |unused| && e.range == toRange(DeletionSpan(unused[i], lines), lines))
    ensures forall i :: 0 <= i < |unused| ==> UnusedImportEdit(unused[i], lines, toRange) in a.edits
  {
    var edits := UnusedImportEdits(unused, lines, toRange);
    assert |multiset(a.edits)| == |multiset(edits)|;
    forall e | e in a.edits
      ensures e.newText == "" &&
        exists i :: 0 <= i < |unused| && e.range == toRange(DeletionSpan(unused[i], lines), lines)
    {
      assert e in multiset(a.edits);
      assert e in multiset(edits);
      var i :| 0 <= i < |edits| && edits[i] == e;
      assert e.range == toRange(DeletionSpan(unused[i], lines), lines);
    }
    forall i | 0 <= i < |unused|
      ensures UnusedImportEdit(unused[i], lines, toRange) in a.edits
    {
      assert edits[i] in multiset(edits);
    }
  }

  /** The whole-line case: an import on a line of its own, with the span's
      end at the line terminator, is deleted together with that terminator,
      so the following line moves up. */
  lemma WholeLineImportDeletesTerminator(lineStart: nat, lineEnd: nat, lines: LineNumbers)
    requires lineStart in lines.lineStarts && lineEnd + 1 in lines.lineStarts
    ensures DeletionSpan(Span(lineStart, lineEnd), lines) == Span(lineStart, lineEnd + 1)
  {
  }

  /** A cursor inside the line of an unused import that fills its line is
      offered the fix, and the fix deletes that line together with its
      terminator. */
  lemma CursorOnWholeLineImportOffersRemoval(m: Module, i: int, cursor: Position, toRange: SpanToRange)
    requires 0 <= i < |m.unusedImports|
    requires m.unusedImports[i].start in m.lines.lineStarts && m.unusedImports[i].end + 1 in m.lines.lineStarts
    requires Within(cursor, toRange(Span(m.unusedImports[i].start, m.unusedImports[i].end + 1), m.lines))
    ensures RemovalOffered(m, Range(cursor, cursor), toRange)
    ensures TextEdit(toRange(Span(m.unusedImports[i].start, m.unusedImports[i].end + 1), m.lines), "")
      in UnusedImportEdits(m.unusedImports, m.lines, toRange)
  {
    var edits := UnusedImportEdits(m.unusedImports, m.lines, toRange);
    var whole := Span(m.unusedImports[i].start, m.unusedImports[i].end + 1);
    assert DeletionSpan(m.unusedImports[i], m.lines) == whole;
    assert edits[i] == TextEdit(toRange(whole, m.lines), "");
    CursorOverlaps(cursor, edits[i].range);
  }
}

/** The document outline (`textDocument/documentSymbol`).

    Every definition of a module other than an import gives one symbol, in
    declaration order. A custom type's symbol has its constructors as
    children, and each constructor has its labelled arguments as field
    children. Each symbol has a full range (with the documentation in front
    of it and the body after its head) and a selection range (its name). */
module Symbols {
  import opened Wrappers
  import opened Positions
  import opened Syntax

  datatype SymbolKind = FunctionKind | ClassKind | ConstantKind | EnumMemberKind | ConstructorKind | FieldKind

  datatype SymbolTag = DeprecatedTag

  datatype DocumentSymbol = DocumentSymbol(
    name: string,
    detail: Option<string>,
    kind: SymbolKind,
    tags: Option<seq<SymbolTag>>,
    range: Range,
    selectionRange: Range,
    children: Option<seq<DocumentSymbol>>)

  /** The type pretty-printer, which lives outside this model. */
  type Printer = Type -> string

  /** `make_deprecated_symbol_tag`: the deprecated tag, for a deprecated
      definition only. */
  function DeprecatedSymbolTag(d: Deprecation): (tags: Option<seq<SymbolTag>>)
    ensures tags.Some? <==> d.IsDeprecated()
    ensures tags.Some? ==> tags.value == [DeprecatedTag]
  {
    if d.IsDeprecated() then Some([DeprecatedTag]) else None
  }

  /** `get_function_type`: the function type made of a function's argument
      types, in order, and its return type. */
  function FunctionType(f: FunctionDef): (t: Type)
    ensures t.Fn? && t.retrn == f.returnType && |t.args| == |f.arguments|
    ensures forall i :: 0 <= i < |f.arguments| ==> t.args[i] == f.arguments[i].type_
  {
    Fn(seq(|f.arguments|, i requires 0 <= i < |f.arguments| => f.arguments[i].type_), f.returnType)
  }

  // ----- Spans -----

  /** `inner` lies inside `outer`. */
  predicate SpanInside(inner: Span, outer: Span) {
    outer.start <= inner.start && inner.end <= outer.end
  }

  /** Where the documentation starts, when there is some, or else where the
      definition starts. */
  function DocStart(docPosition: Option<nat>, location: Span): nat {
    docPosition.GetOr(location.start)
  }

  /** The full span of a labelled constructor argument: from its
      documentation, when it has some, to the end of the argument. */
  function FieldFullSpan(a: ConstructorArg): (r: Span)
    ensures r.start == DocStart(a.docPosition, a.location)
    ensures r.end == a.location.end
  {
    match a.docPosition
    case Some(doc) => Span(doc, a.location.end)
    case None => a.location
  }

  /** The selection span of a field: its label, or else the whole argument. */
  function FieldSelectionSpan(a: ConstructorArg): (r: Span)
    ensures a.labelLocation.Some? ==> r == a.labelLocation.value
    ensures a.labelLocation.None? ==> r == a.location
  {
    a.labelLocation.GetOr(a.location)
  }

  /** The full span of a constructor: from its documentation (or its name)
      to one past the end of its last argument, taking in the closing
      parenthesis, or to the end of its name when it has no arguments. */
  function ConstructorFullSpan(c: RecordConstructor): (r: Span)
    ensures r.start == DocStart(c.docPosition, c.location)
    ensures c.arguments == [] ==> r.end == c.location.end
    ensures c.arguments != [] ==> r.end == c.arguments[|c.arguments| - 1].location.end + 1
  {
    Span(DocStart(c.docPosition, c.location),
         if |c.arguments| == 0 then c.location.end else c.arguments[|c.arguments| - 1].location.end + 1)
  }

  /** The full span of a definition's symbol: from its documentation (or
      its own start) to the end of its body, its head, its constructors or
      its value. */
  function FullSpan(d: Definition): (r: Span)
    requires !d.Import?
    ensures d.Function? ==> r == Span(DocStart(d.fun.docPosition, d.fun.location), d.fun.endPosition)
    ensures d.TypeAlias? ==> r == Span(DocStart(d.alias.docPosition, d.alias.location), d.alias.location.end)
    ensures d.CustomType? ==>
      r == Span(DocStart(d.customType.docPosition, d.customType.location), d.customType.endPosition)
    ensures d.ModuleConstant? ==>
      r == Span(DocStart(d.constant.docPosition, d.constant.location), d.constant.valueLocation.end)
  {
    match d
    case Function(f) => Span(DocStart(f.docPosition, f.location), f.endPosition)
    case TypeAlias(a) =>
      (match a.docPosition
       case Some(doc) => Span(doc, a.location.end)
       case None => a.location)
    case CustomType(t) => Span(DocStart(t.docPosition, t.location), t.endPosition)
    case ModuleConstant(c) => Span(DocStart(c.docPosition, c.location), c.valueLocation.end)
  }

  /** The selection span of a definition's symbol: its name. A function
      without a recorded name span falls back to its head, and a constant's
      location is its name. */
  function SelectionSpan(d: Definition): (r: Span)
    requires !d.Import?
    ensures d.Function? ==> r == (if d.fun.nameLocation.Some? then d.fun.nameLocation.value else d.fun.location)
    ensures d.TypeAlias? ==> r == d.alias.aliasLocation
    ensures d.CustomType? ==> r == d.customType.nameLocation
    ensures d.ModuleConstant? ==> r == d.constant.location
  {
    match d
    case Function(f) => f.nameLocation.GetOr(f.location)
    case TypeAlias(a) => a.aliasLocation
    case CustomType(t) => t.nameLocation
    case ModuleConstant(c) => c.location
  }

  /** The nesting of spans the parser produces for a definition: the
      documentation comes first, the name lies in the head, and the body
      (or value, or constructors) ends after the head. */
  predicate NestedSpans(d: Definition)
    requires !d.Import?
  {
    match d
    case Function(f) =>
      DocStart(f.docPosition, f.location) <= f.location.start &&
      (f.nameLocation.Some? ==> SpanInside(f.nameLocation.value, f.location)) &&
      f.location.end <= f.endPosition
    case TypeAlias(a) =>
      (a.docPosition.Some? ==> a.docPosition.value <= a.location.start) &&
      SpanInside(a.aliasLocation, a.location)
    case CustomType(t) =>
      DocStart(t.docPosition, t.location) <= t.location.start &&
      SpanInside(t.nameLocation, t.location) &&
      t.location.end <= t.endPosition
    case ModuleConstant(c) =>
      DocStart(c.docPosition, c.location) <= c.location.start &&
      c.location.end <= c.valueLocation.end
  }

  /** With the parser's nesting, a symbol's selection span lies inside its
      full span, as the editor protocol demands of document symbols. */
  lemma SelectionInsideFullSpan(d: Definition)
    requires !d.Import? && NestedSpans(d)
    ensures SpanInside(SelectionSpan(d), FullSpan(d))
  {
  }

  /** The same for constructors, whose arguments follow their name, and for
      fields, whose label lies in the argument. */
  lemma ConstructorSelectionInsideFullSpan(c: RecordConstructor)
    requires DocStart(c.docPosition, c.location) <= c.location.start
    requires forall i :: 0 <= i < |c.arguments| ==> c.location.end <= c.arguments[i].location.end
    ensures SpanInside(c.location, ConstructorFullSpan(c))
    ensures forall a :: (a in c.arguments && (a.docPosition.Some? ==> a.docPosition.value <= a.location.start) &&
      (a.labelLocation.Some? ==> SpanInside(a.labelLocation.value, a.location))) ==>
      SpanInside(FieldSelectionSpan(a), FieldFullSpan(a))
  {
  }

  // ----- Symbols, as functions of the syntax tree -----

  /** The field symbol of a labelled constructor argument. */
  function FieldSymbol(a: ConstructorArg, lines: LineNumbers, toRange: SpanToRange, pretty: Printer): (s: DocumentSymbol)
    requires a.labelName.Some?
    ensures s.name == a.labelName.value && s.kind == FieldKind
    ensures s.detail == Some(pretty(a.type_)) && s.tags.None? && s.children.None?
    ensures s.range == toRange(FieldFullSpan(a), lines)
    ensures s.selectionRange == toRange(FieldSelectionSpan(a), lines)
  {
    DocumentSymbol(a.labelName.value, Some(pretty(a.type_)), FieldKind, None,
      toRange(FieldFullSpan(a), lines), toRange(FieldSelectionSpan(a), lines), None)
  }

  /** The labelled arguments, in order. */
  function Labelled(args: seq<ConstructorArg>): (r: seq<ConstructorArg>)
    ensures |r| <= |args|
    ensures forall a :: a in r <==> a in args && a.labelName.Some?
  {
    if args == [] then []
    else Labelled(args[..|args| - 1]) + (if args[|args| - 1].labelName.Some? then [args[|args| - 1]] else [])
  }

  /** The field symbols of a constructor's arguments, unlabelled ones
      skipped: all of them fields without children or tags. */
  function FieldSymbols(args: seq<ConstructorArg>, lines: LineNumbers, toRange: SpanToRange, pretty: Printer): (r: seq<DocumentSymbol>)
    ensures |r| <= |args|
    ensures forall s :: s in r ==> s.kind == FieldKind && s.children.None? && s.tags.None?
  {
    if args == [] then []
    else
      var last := args[|args| - 1];
      FieldSymbols(args[..|args| - 1], lines, toRange, pretty) +
        (if last.labelName.Some? then [FieldSymbol(last, lines, toRange, pretty)] else [])
  }

  /** The symbol of one constructor of a custom type. */
  function ConstructorSymbolOf(c: RecordConstructor, lines: LineNumbers, toRange: SpanToRange, pretty: Printer): (s: DocumentSymbol)
    ensures s.name == c.name && s.detail.None? && s.tags.None?
    ensures s.kind == EnumMemberKind <==> |c.arguments| == 0
    ensures s.kind == EnumMemberKind || s.kind == ConstructorKind
    ensures s.children == Some(FieldSymbols(c.arguments, lines, toRange, pretty))
    ensures s.range == toRange(ConstructorFullSpan(c), lines)
    ensures s.selectionRange == toRange(c.location, lines)
  {
    DocumentSymbol(c.name, None, if |c.arguments| == 0 then EnumMemberKind else ConstructorKind, None,
      toRange(ConstructorFullSpan(c), lines), toRange(c.location, lines),
      Some(FieldSymbols(c.arguments, lines, toRange, pretty)))
  }

  /** The symbol of a custom type: one child per constructor, in order. */
  function TypeSymbolOf(t: CustomTypeDef, lines: LineNumbers, toRange: SpanToRange, pretty: Printer): (s: DocumentSymbol)
    ensures s.name == t.name && s.kind == ClassKind && s.detail.None?
    ensures s.tags == DeprecatedSymbolTag(t.deprecation)
    ensures s.children.Some? && |s.children.value| == |t.constructors|
    ensures forall i :: 0 <= i < |t.constructors| ==>
      s.children.value[i] == ConstructorSymbolOf(t.constructors[i], lines, toRange, pretty)
    ensures s.range == toRange(Span(DocStart(t.docPosition, t.location), t.endPosition), lines)
    ensures s.selectionRange == toRange(t.nameLocation, lines)
  {
    var constructors := seq(|t.constructors|, i requires 0 <= i < |t.constructors| =>
      ConstructorSymbolOf(t.constructors[i], lines, toRange, pretty));
    DocumentSymbol(t.name, None, ClassKind, DeprecatedSymbolTag(t.deprecation),
      toRange(FullSpan(CustomType(t)), lines), toRange(t.nameLocation, lines), Some(constructors))
  }

  /** The symbol of a definition that is not an import. */
  function DefinitionSymbol(d: Definition, lines: LineNumbers, toRange: SpanToRange, pretty: Printer): (s: DocumentSymbol)
    requires !d.Import?
    ensures s.range == toRange(FullSpan(d), lines)
    ensures s.selectionRange == toRange(SelectionSpan(d), lines)
    ensures s.children.Some? <==> d.CustomType?
    ensures d.Function? ==> (s.name == d.fun.name && s.kind == FunctionKind &&
      s.detail == Some(pretty(FunctionType(d.fun))) && s.tags == DeprecatedSymbolTag(d.fun.deprecation))
    ensures d.TypeAlias? ==> (s.name == d.alias.alias && s.kind == ClassKind &&
      s.detail == Some(pretty(d.alias.type_)) && s.tags == DeprecatedSymbolTag(d.alias.deprecation))
    ensures d.CustomType? ==> s == TypeSymbolOf(d.customType, lines, toRange, pretty)
    ensures d.ModuleConstant? ==> (s.name == d.constant.name && s.kind == ConstantKind &&
      s.detail == Some(pretty(d.constant.type_)) && s.tags == DeprecatedSymbolTag(d.constant.deprecation))
  {
    match d
    case Function(f) =>
      DocumentSymbol(f.name, Some(pretty(FunctionType(f))), FunctionKind, DeprecatedSymbolTag(f.deprecation),
        toRange(FullSpan(d), lines), toRange(SelectionSpan(d), lines), None)
    case TypeAlias(a) =>
      DocumentSymbol(a.alias, Some(pretty(a.type_)), ClassKind, DeprecatedSymbolTag(a.deprecation),
        toRange(FullSpan(d), lines), toRange(SelectionSpan(d), lines), None)
    case CustomType(t) => TypeSymbolOf(t, lines, toRange, pretty)
    case ModuleConstant(c) =>
      DocumentSymbol(c.name, Some(pretty(c.type_)), ConstantKind, DeprecatedSymbolTag(c.deprecation),
        toRange(FullSpan(d), lines), toRange(SelectionSpan(d), lines), None)
  }

  /** The outline of a module's definitions. */
  function SymbolsOf(defs: seq<Definition>, lines: LineNumbers, toRange: SpanToRange, pretty: Printer): (r: seq<DocumentSymbol>)
    ensures |r| <= |defs|
  {
    if defs == [] then []
    else
      var last := defs[|defs| - 1];
      SymbolsOf(defs[..|defs| - 1], lines, toRange, pretty) +
        (if last.Import? then [] else [DefinitionSymbol(last, lines, toRange, pretty)])
  }

  /** The definitions that are not imports, in declaration order. */
  function NonImports(defs: seq<Definition>): (r: seq<Definition>)
    ensures |r| <= |defs|
    ensures forall d :: d in r <==> d in defs && !d.Import?
  {
    if defs == [] then []
    else NonImports(defs[..|defs| - 1]) + (if defs[|defs| - 1].Import? then [] else [defs[|defs| - 1]])
  }

  // ----- Properties of the outline -----

  /** One symbol per definition that is not an import, in declaration order. */
  lemma {:induction false} SymbolsFollowDeclarations(defs: seq<Definition>, lines: LineNumbers, toRange: SpanToRange, pretty: Printer)
    ensures var nd := NonImports(defs);
      |SymbolsOf(defs, lines, toRange, pretty)| == |nd| &&
      forall i :: 0 <= i < |nd| ==> SymbolsOf(defs, lines, toRange, pretty)[i] == DefinitionSymbol(nd[i], lines, toRange, pretty)
  {
    if defs != [] {
      SymbolsFollowDeclarations(defs[..|defs| - 1], lines, toRange, pretty);
    }
  }

  /** The outline of a sequence of definitions is the outline of its first
      part followed by that of the rest. */
  lemma {:induction false} SymbolsOfAppend(a: seq<Definition>, b: seq<Definition>, lines: LineNumbers, toRange: SpanToRange, pretty: Printer)
    ensures SymbolsOf(a + b, lines, toRange, pretty) == SymbolsOf(a, lines, toRange, pretty) + SymbolsOf(b, lines, toRange, pretty)
  {
    if b == [] {
      assert a + b == a;
    } else {
      assert (a + b)[..|a + b| - 1] == a + b[..|b| - 1];
      SymbolsOfAppend(a, b[..|b| - 1], lines, toRange, pretty);
    }
  }

  /** A module of imports only has an empty outline. */
  lemma {:induction false} ImportsGiveNoSymbols(defs: seq<Definition>, lines: LineNumbers, toRange: SpanToRange, pretty: Printer)
    requires forall i :: 0 <= i < |defs| ==> defs[i].Import?
    ensures SymbolsOf(defs, lines, toRange, pretty) == []
  {
    if defs != [] {
      ImportsGiveNoSymbols(defs[..|defs| - 1], lines, toRange, pretty);
    }
  }

  /** A constructor's children are the field symbols of its labelled
      arguments, in order. */
  lemma {:induction false} FieldsFollowLabelledArguments(args: seq<ConstructorArg>, lines: LineNumbers, toRange: SpanToRange, pretty: Printer)
    ensures var la := Labelled(args);
      |FieldSymbols(args, lines, toRange, pretty)| == |la| &&
      forall i :: 0 <= i < |la| ==>
        la[i].labelName.Some? &&
        FieldSymbols(args, lines, toRange, pretty)[i] == FieldSymbol(la[i], lines, toRange, pretty)
  {
    if args != [] {
      FieldsFollowLabelledArguments(args[..|args| - 1], lines, toRange, pretty);
    }
  }

  predicate FieldShaped(s: DocumentSymbol) {
    s.kind == FieldKind && s.children.None?
  }

  predicate ConstructorShaped(s: DocumentSymbol) {
    (s.kind == EnumMemberKind || s.kind == ConstructorKind) &&
    s.children.Some? && forall f :: f in s.children.value ==> FieldShaped(f)
  }

  /** A top-level symbol is a leaf, or a type whose children are
      constructors whose children are fields. */
  predicate OutlineShaped(s: DocumentSymbol) {
    s.children.Some? ==> s.kind == ClassKind && forall c :: c in s.children.value ==> ConstructorShaped(c)
  }

  /** The outline is at most three levels deep: type, constructors, fields. */
  lemma {:induction false} OutlineIsTypeConstructorField(defs: seq<Definition>, lines: LineNumbers, toRange: SpanToRange, pretty: Printer)
    ensures forall s :: s in SymbolsOf(defs, lines, toRange, pretty) ==> OutlineShaped(s)
  {
    if defs != [] {
      OutlineIsTypeConstructorField(defs[..|defs| - 1], lines, toRange, pretty);
      var last := defs[|defs| - 1];
      if last.CustomType? {
        var s := DefinitionSymbol(last, lines, toRange, pretty);
        forall c | c in s.children.value ensures ConstructorShaped(c) {
          var i :| 0 <= i < |last.customType.constructors| && s.children.value[i] == c;
        }
      }
    }
  }

  // ----- Symbols, built as the engine builds them -----

  /** The symbol of one constructor, its field symbols pushed one labelled
      argument at a time. */
  method ConstructorSymbol(c: RecordConstructor, lines: LineNumbers, toRange: SpanToRange, pretty: Printer) returns (s: DocumentSymbol)
    ensures s == ConstructorSymbolOf(c, lines, toRange, pretty)
  {
    var arguments: seq<DocumentSymbol> := [];
    for i := 0 to |c.arguments|
      invariant arguments == FieldSymbols(c.arguments[..i], lines, toRange, pretty)
    {
      assert c.arguments[..i + 1][..i] == c.arguments[..i];
      var argument := c.arguments[i];
      if argument.labelName.None? {
        continue;
      }
      var fullArgSpan := match argument.docPosition
        case Some(doc) => Span(doc, argument.location.end)
        case None => argument.location;
      arguments := arguments + [DocumentSymbol(argument.labelName.value, Some(pretty(argument.type_)), FieldKind, None,
        toRange(fullArgSpan, lines), toRange(argument.labelLocation.GetOr(argument.location), lines), None)];
    }
    assert c.arguments[..|c.arguments|] == c.arguments;
    var fullConstructorSpan := Span(
      c.docPosition.GetOr(c.location.start),
      if |c.arguments| > 0 then c.arguments[|c.arguments| - 1].location.end + 1 else c.location.end);
    s := DocumentSymbol(c.name, None, if |c.arguments| == 0 then EnumMemberKind else ConstructorKind, None,
      toRange(fullConstructorSpan, lines), toRange(c.location, lines), Some(arguments));
  }

  /** `custom_type_symbol`. */
  method CustomTypeSymbol(t: CustomTypeDef, lines: LineNumbers, toRange: SpanToRange, pretty: Printer) returns (s: DocumentSymbol)
    ensures s == TypeSymbolOf(t, lines, toRange, pretty)
  {
    var constructors: seq<DocumentSymbol> := [];
    for i := 0 to |t.constructors|
      invariant |constructors| == i
      invariant forall k :: 0 <= k < i ==> constructors[k] == ConstructorSymbolOf(t.constructors[k], lines, toRange, pretty)
    {
      var symbol := ConstructorSymbol(t.constructors[i], lines, toRange, pretty);
      constructors := constructors + [symbol];
    }
    assert constructors == TypeSymbolOf(t, lines, toRange, pretty).children.value;
    var fullTypeSpan := Span(t.docPosition.GetOr(t.location.start), t.endPosition);
    s := DocumentSymbol(t.name, None, ClassKind, DeprecatedSymbolTag(t.deprecation),
      toRange(fullTypeSpan, lines), toRange(t.nameLocation, lines), Some(constructors));
  }

  /** The loop of `document_symbol` over a module's definitions. */
  method DocumentSymbols(defs: seq<Definition>, lines: LineNumbers, toRange: SpanToRange, pretty: Printer) returns (symbols: seq<DocumentSymbol>)
    ensures symbols == SymbolsOf(defs, lines, toRange, pretty)
  {
    symbols := [];
    for i := 0 to |defs|
      invariant symbols == SymbolsOf(defs[..i], lines, toRange, pretty)
    {
      assert defs[..i + 1][..i] == defs[..i];
      match defs[i]
      case Function(f) =>
        var fullFunctionSpan := Span(f.docPosition.GetOr(f.location.start), f.endPosition);
        symbols := symbols + [DocumentSymbol(f.name, Some(pretty(FunctionType(f))), FunctionKind,
          DeprecatedSymbolTag(f.deprecation), toRange(fullFunctionSpan, lines),
          toRange(f.nameLocation.GetOr(f.location), lines), None)];
      case TypeAlias(a) =>
        var fullAliasSpan := match a.docPosition
          case Some(doc) => Span(doc, a.location.end)
          case None => a.location;
        symbols := symbols + [DocumentSymbol(a.alias, Some(pretty(a.type_)), ClassKind,
          DeprecatedSymbolTag(a.deprecation), toRange(fullAliasSpan, lines),
          toRange(a.aliasLocation, lines), None)];
      case CustomType(t) =>
        var symbol := CustomTypeSymbol(t, lines, toRange, pretty);
        symbols := symbols + [symbol];
      case Import(_) =>
      case ModuleConstant(c) =>
        var fullConstantSpan := Span(c.docPosition.GetOr(c.location.start), c.valueLocation.end);
        symbols := symbols + [DocumentSymbol(c.name, Some(pretty(c.type_)), ConstantKind,
          DeprecatedSymbolTag(c.deprecation), toRange(fullConstantSpan, lines),
          toRange(c.location, lines), None)];
    }
    assert defs[..|defs|] == defs;
  }

  /** A custom type with two constructors, the first with one labelled and
      one unlabelled argument, the second with none: one root symbol, two
      constructor children, one field grandchild under the first. */
  lemma TwoConstructorsOneField(lines: LineNumbers, toRange: SpanToRange, pretty: Printer, ty: Type, sp: Span)
    ensures var c1 := RecordConstructor("Circle", sp, None,
              [ConstructorArg(Some("radius"), None, None, sp, ty), ConstructorArg(None, None, None, sp, ty)]);
      var c2 := RecordConstructor("Empty", sp, None, []);
      var t := CustomTypeDef("Shape", sp, sp, None, 0, [c1, c2], NotDeprecated);
      var out := SymbolsOf([CustomType(t)], lines, toRange, pretty);
      |out| == 1 && out[0].children.Some? && |out[0].children.value| == 2 &&
      out[0].children.value[0].kind == ConstructorKind &&
      out[0].children.value[0].children == Some([FieldSymbol(c1.arguments[0], lines, toRange, pretty)]) &&
      out[0].children.value[1].kind == EnumMemberKind &&
      out[0].children.value[1].children == Some([])
  {
    var c1 := RecordConstructor("Circle", sp, None,
      [ConstructorArg(Some("radius"), None, None, sp, ty), ConstructorArg(None, None, None, sp, ty)]);
    assert c1.arguments[..1] == [c1.arguments[0]];
    assert c1.arguments[..1][..0] == [];
    assert FieldSymbols(c1.arguments[..1], lines, toRange, pretty) == [FieldSymbol(c1.arguments[0], lines, toRange, pretty)];
    assert FieldSymbols(c1.arguments, lines, toRange, pretty) == [FieldSymbol(c1.arguments[0], lines, toRange, pretty)];
    var c2 := RecordConstructor("Empty", sp, None, []);
    var t := CustomTypeDef("Shape", sp, sp, None, 0, [c1, c2], NotDeprecated);
    assert [CustomType(t)][..0] == [];
    var out := SymbolsOf([CustomType(t)], lines, toRange, pretty);
    assert out == [TypeSymbolOf(t, lines, toRange, pretty)];
    assert out[0].children.value[0] == ConstructorSymbolOf(c1, lines, toRange, pretty);
  }
}

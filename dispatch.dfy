/** What the completion and hover handlers do for each kind of node found
    under the cursor. The completer and the hover renderers live outside
    this model: completion items are given as inputs, and a hover is
    described by which renderer it uses. */
module Dispatch {
  import opened Wrappers
  import opened Positions
  import opened Syntax
  import opened HexDocs

  /** The node found at a position. */
  datatype Located =
    | Statement
    | Expression(expr: Expr)
    | Pattern
    | FunctionBody
    | ArgNode(arg: Arg)
    | Annotation(location: Span, type_: Type)
    | UnqualifiedImport(name: string, moduleName: string, isType: bool, location: Span)
    | ModuleStatement(definition: Definition)

  datatype CompletionStrategy =
    | NoCompletions
    | ValueCompletions
    | TypeCompletions
    /** The values and types of the module an import statement names. */
    | UnqualifiedCompletionsFrom(moduleName: string)

  /** The completion `match` over the found node. */
  function CompletionStrategyFor(found: Located): (r: CompletionStrategy)
    ensures r == ValueCompletions <==> found.Statement? || found.Expression? || found.FunctionBody?
    ensures r == TypeCompletions <==>
      found.Annotation? ||
      (found.ModuleStatement? &&
       (found.definition.Function? || found.definition.TypeAlias? || found.definition.CustomType?))
    ensures r.UnqualifiedCompletionsFrom? <==> found.ModuleStatement? && found.definition.Import?
    ensures r.UnqualifiedCompletionsFrom? ==> r.moduleName == found.definition.imp.moduleName
    ensures r == NoCompletions <==>
      found.Pattern? || found.ArgNode? || found.UnqualifiedImport? ||
      (found.ModuleStatement? && found.definition.ModuleConstant?)
  {
    match found
    case Pattern => NoCompletions
    case Statement => ValueCompletions
    case Expression(_) => ValueCompletions
    case ModuleStatement(Function(_)) => TypeCompletions
    case FunctionBody => ValueCompletions
    case ModuleStatement(TypeAlias(_)) => TypeCompletions
    case ModuleStatement(CustomType(_)) => TypeCompletions
    case ModuleStatement(Import(i)) => UnqualifiedCompletionsFrom(i.moduleName)
    case ModuleStatement(ModuleConstant(_)) => NoCompletions
    case UnqualifiedImport(_, _, _, _) => NoCompletions
    case ArgNode(_) => NoCompletions
    case Annotation(_, _) => TypeCompletions
  }

  /** The answer of `completion`. `importCompletions` is what the completer
      offers for an import being written; `values` and `types` are its value
      and type completions; `fromInterface` gives its completions from a
      module's interface, found by name in `interfaces`. */
  function Completion<Item>(
    current: Option<Module>,
    importCompletions: Option<Result<Option<seq<Item>>>>,
    found: Option<Located>,
    values: seq<Item>,
    types: seq<Item>,
    interfaces: map<string, ModuleInterface>,
    fromInterface: ModuleInterface -> seq<Item>): (r: Result<Option<seq<Item>>>)
    ensures current.None? ==> r == Ok(None)
    ensures current.Some? && importCompletions.Some? ==> r == importCompletions.value
    ensures current.Some? && importCompletions.None? ==> r.Ok?
    ensures current.Some? && importCompletions.None? && found.None? ==> r == Ok(None)
    ensures current.Some? && importCompletions.None? && found.Some? ==>
      var s := CompletionStrategyFor(found.value);
      (s == NoCompletions ==> r == Ok(None)) &&
      (s == ValueCompletions ==> r == Ok(Some(values))) &&
      (s == TypeCompletions ==> r == Ok(Some(types))) &&
      (s.UnqualifiedCompletionsFrom? && s.moduleName !in interfaces ==> r == Ok(None)) &&
      (s.UnqualifiedCompletionsFrom? && s.moduleName in interfaces ==>
        r == Ok(Some(fromInterface(interfaces[s.moduleName]))))
  {
    if current.None? then Ok(None)
    else if importCompletions.Some? then importCompletions.value
    else if found.None? then Ok(None)
    else
      match CompletionStrategyFor(found.value)
      case NoCompletions => Ok(None)
      case ValueCompletions => Ok(Some(values))
      case TypeCompletions => Ok(Some(types))
      case UnqualifiedCompletionsFrom(m) =>
        Ok(if m in interfaces then Some(fromInterface(interfaces[m])) else None)
  }

  /** While an import is being written, only import completions are
      offered, whatever node the cursor is on. */
  lemma ImportCompletionsShortCircuit<Item>(
    current: Module, items: Result<Option<seq<Item>>>, found: Option<Located>,
    values: seq<Item>, types: seq<Item>,
    interfaces: map<string, ModuleInterface>, fromInterface: ModuleInterface -> seq<Item>)
    ensures Completion(Some(current), Some(items), found, values, types, interfaces, fromInterface) == items
  {
  }

  /** Which hover renderer the hover `match` picks. */
  datatype HoverStrategy =
    | NoHover
    | FunctionHeadHover(fun: FunctionDef)
    | ModuleConstantHover(constant: ConstantDef)
    /** An unqualified import: a type or a value looked up by name in the
        interface of the imported module. */
    | ImportedTypeHover(moduleName: string, name: string, location: Span)
    | ImportedValueHover(moduleName: string, name: string, location: Span)
    | PatternHover
    | ExpressionHover(expr: Expr)
    | ArgHover(arg: Arg)
    | AnnotationHover(location: Span, type_: Type)

  /** The hover `match` over the found node. */
  function HoverStrategyFor(found: Located): (r: HoverStrategy)
    ensures r == NoHover <==>
      found.Statement? || found.FunctionBody? ||
      (found.ModuleStatement? && !found.definition.Function? && !found.definition.ModuleConstant?)
    ensures found.UnqualifiedImport? ==>
      (if found.isType then r.ImportedTypeHover? else r.ImportedValueHover?) &&
      r.moduleName == found.moduleName && r.name == found.name && r.location == found.location
    ensures r.ExpressionHover? <==> found.Expression?
    ensures r.ExpressionHover? ==> r.expr == found.expr
    ensures found.ModuleStatement? && found.definition.Function? ==> r == FunctionHeadHover(found.definition.fun)
    ensures found.ModuleStatement? && found.definition.ModuleConstant? ==>
      r == ModuleConstantHover(found.definition.constant)
    ensures found.Pattern? ==> r == PatternHover
    ensures found.ArgNode? ==> r == ArgHover(found.arg)
    ensures found.Annotation? ==> r == AnnotationHover(found.location, found.type_)
  {
    match found
    case Statement => NoHover
    case ModuleStatement(Function(f)) => FunctionHeadHover(f)
    case ModuleStatement(ModuleConstant(c)) => ModuleConstantHover(c)
    case ModuleStatement(_) => NoHover
    case UnqualifiedImport(name, m, isType, location) =>
      if isType then ImportedTypeHover(m, name, location) else ImportedValueHover(m, name, location)
    case Pattern => PatternHover
    case Expression(e) => ExpressionHover(e)
    case ArgNode(a) => ArgHover(a)
    case FunctionBody => NoHover
    case Annotation(location, t) => AnnotationHover(location, t)
  }

  /** `hover`: the renderer answering for the found node, with the HexDocs
      link section its text ends with. An unqualified import is looked up in
      the interface of its module (`interfaces`), and there is no hover when
      that module or the imported name is unknown. */
  function Hover(found: Option<Located>, current: Option<Module>, interfaces: map<string, ModuleInterface>, hexDeps: set<string>)
    : (r: Option<(HoverStrategy, string)>)
    ensures found.None? ==> r.None?
    ensures found.Some? && !found.value.UnqualifiedImport? ==>
      (r.Some? <==> HoverStrategyFor(found.value) != NoHover) &&
      (r.Some? ==> r.value.0 == HoverStrategyFor(found.value))
    ensures found.Some? && found.value.UnqualifiedImport? ==>
      var u := found.value;
      (r.Some? <==> (u.moduleName in interfaces &&
        (if u.isType then u.name in interfaces[u.moduleName].types else u.name in interfaces[u.moduleName].values))) &&
      (r.Some? ==> r.value.0 == HoverStrategyFor(u))
    ensures r.Some? && r.value.0.ExpressionHover? ==> r.value.1 == ExpressionLinkSection(found.value.expr, current, hexDeps)
    ensures r.Some? && r.value.0.ImportedValueHover? ==>
      r.value.1 == ImportedValueLinkSection(interfaces[found.value.moduleName], found.value.name, hexDeps)
    ensures r.Some? && !r.value.0.ExpressionHover? && !r.value.0.ImportedValueHover? ==> r.value.1 == ""
  {
    if found.None? then None
    else
      var strategy := HoverStrategyFor(found.value);
      match strategy
      case NoHover => None
      case ImportedTypeHover(m, name, _) =>
        if m in interfaces && name in interfaces[m].types then Some((strategy, "")) else None
      case ImportedValueHover(m, name, _) =>
        if m in interfaces && name in interfaces[m].values
        then Some((strategy, ImportedValueLinkSection(interfaces[m], name, hexDeps)))
        else None
      case ExpressionHover(e) => Some((strategy, ExpressionLinkSection(e, current, hexDeps)))
      case _ => Some((strategy, ""))
  }
}

/** The language server engine: one per project. It answers the editor's
    requests from the compiler's latest results, and hands back with every
    response the warnings the compiler has emitted since the previous
    response and, when it has compiled since then, which modules it
    compiled.

    The compiler itself is not modelled. Its module table and the module
    interfaces it knows are fixed when the engine is made; a compilation is
    given as its outcome and the warnings it emitted. */
module Engine {
  import opened Wrappers
  import opened Positions
  import opened Syntax
  import opened HexDocs
  import opened UnusedImports
  import opened Symbols
  import opened Dispatch
  import opened ModulePath

  /** What one run of the compiler gives: the paths of the modules it
      compiled; the modules it compiled before an error stopped it, with
      that error; or an error alone. */
  datatype CompileOutcome =
    | Compiled(paths: seq<string>)
    | PartialFailure(paths: seq<string>, error: Error)
    | Failed(error: Error)

  /** Whether the response reports a compilation, and of which modules. */
  datatype Compilation = Yes(modules: seq<string>) | No

  datatype Response<T> = Response(result: Result<T>, warnings: seq<Warning>, compilation: Compilation)

  class LanguageServerEngine {
    /** The project root, as path components. */
    const root: seq<string>
    /** The compiler's table of compiled modules, by module name. */
    const modules: map<string, Module>
    /** The interfaces of the modules the compiler can import, by name. */
    const interfaces: map<string, ModuleInterface>
    /** The names of the dependencies that come from the Hex registry. */
    const hexDeps: set<string>

    var modulesCompiledSinceLastFeedback: seq<string>
    var compiledSinceLastFeedback: bool
    /** The warnings the compiler has emitted and not yet handed over. */
    var warnings: seq<Warning>

    /** Modules are recorded only by a compilation, which also raises the
        flag: with the flag down there is nothing recorded. */
    predicate Valid()
      reads this
    {
      !compiledSinceLastFeedback ==> modulesCompiledSinceLastFeedback == []
    }

    /** `new`: an engine for the package table of the project's manifest,
        with nothing compiled and no feedback pending. */
    constructor (root: seq<string>, packages: seq<(string, ManifestPackage)>,
                 modules: map<string, Module>, interfaces: map<string, ModuleInterface>)
      ensures Valid()
      ensures this.root == root && this.modules == modules && this.interfaces == interfaces
      ensures hexDeps == HexDeps(packages)
      ensures modulesCompiledSinceLastFeedback == [] && !compiledSinceLastFeedback && warnings == []
    {
      this.root := root;
      this.modules := modules;
      this.interfaces := interfaces;
      hexDeps := HexDeps(packages);
      modulesCompiledSinceLastFeedback := [];
      compiledSinceLastFeedback := false;
      warnings := [];
    }

    /** `compile`: raises the flag and records the modules the run compiled,
        whether or not it also failed; returns the error of a failed run.
        The warnings the run emitted join the backlog either way. */
    method Compile(outcome: CompileOutcome, emitted: seq<Warning>) returns (r: Result<()>)
      requires Valid()
      modifies this
      ensures Valid()
      ensures compiledSinceLastFeedback
      ensures warnings == old(warnings) + emitted
      ensures outcome.Compiled? ==>
        r == Ok(()) && modulesCompiledSinceLastFeedback == old(modulesCompiledSinceLastFeedback) + outcome.paths
      ensures outcome.PartialFailure? ==>
        r == Err(outcome.error) && modulesCompiledSinceLastFeedback == old(modulesCompiledSinceLastFeedback) + outcome.paths
      ensures outcome.Failed? ==>
        r == Err(outcome.error) && modulesCompiledSinceLastFeedback == old(modulesCompiledSinceLastFeedback)
    {
      compiledSinceLastFeedback := true;
      warnings := warnings + emitted;
      match outcome
      case Compiled(paths) =>
        modulesCompiledSinceLastFeedback := modulesCompiledSinceLastFeedback + paths;
        r := Ok(());
      case PartialFailure(paths, error) =>
        modulesCompiledSinceLastFeedback := modulesCompiledSinceLastFeedback + paths;
        r := Err(error);
      case Failed(error) =>
        r := Err(error);
    }

    /** `respond`: wraps a handler's result with all pending feedback and
        clears it, so that the next response reports only what happens
        after this one. */
    method Respond<T>(result: Result<T>) returns (resp: Response<T>)
      requires Valid()
      modifies this
      ensures Valid()
      ensures resp.result == result
      ensures resp.warnings == old(warnings) && warnings == []
      ensures old(compiledSinceLastFeedback) ==> resp.compilation == Yes(old(modulesCompiledSinceLastFeedback))
      ensures !old(compiledSinceLastFeedback) ==> resp.compilation == No
      ensures !compiledSinceLastFeedback && modulesCompiledSinceLastFeedback == []
    {
      var taken := warnings;
      warnings := [];
      var compilation: Compilation;
      if compiledSinceLastFeedback {
        compilation := Yes(modulesCompiledSinceLastFeedback);
        modulesCompiledSinceLastFeedback := [];
        compiledSinceLastFeedback := false;
      } else {
        compilation := No;
      }
      resp := Response(result, taken, compilation);
    }

    /** `compile_please`: compiles and reports the compilation, including the
        modules compiled before it and not yet reported. */
    method CompilePlease(outcome: CompileOutcome, emitted: seq<Warning>) returns (resp: Response<()>)
      requires Valid()
      modifies this
      ensures Valid()
      ensures outcome.Compiled? ==>
        resp.result == Ok(()) && resp.compilation == Yes(old(modulesCompiledSinceLastFeedback) + outcome.paths)
      ensures outcome.PartialFailure? ==>
        resp.result == Err(outcome.error) && resp.compilation == Yes(old(modulesCompiledSinceLastFeedback) + outcome.paths)
      ensures outcome.Failed? ==>
        resp.result == Err(outcome.error) && resp.compilation == Yes(old(modulesCompiledSinceLastFeedback))
      ensures resp.warnings == old(warnings) + emitted && warnings == []
      ensures !compiledSinceLastFeedback && modulesCompiledSinceLastFeedback == []
    {
      var r := Compile(outcome, emitted);
      resp := Respond(r);
    }

    /** `module_for_uri`: the compiled module held by the file at `path`. */
    function ModuleForUri(path: seq<string>): (r: Option<Module>)
      ensures r.Some? <==> ModuleNameForPath(root, path).Some? && ModuleNameForPath(root, path).value in modules
      ensures r.Some? ==> r.value == modules[ModuleNameForPath(root, path).value]
    {
      match ModuleNameForPath(root, path)
      case None => None
      case Some(name) => if name in modules then Some(modules[name]) else None
    }

    /** The document `<root>/<dir>/a/b/c.gleam` holds the compiled module
        `a/b/c`, whenever the compiler has one by that name. */
    lemma SourceFileOpensItsModule(dir: string, directories: seq<string>, file: string)
      requires Join(directories + [file]) in modules
      ensures ModuleForUri(root + [dir] + directories + [file + GleamExtension]) ==
        Some(modules[Join(directories + [file])])
    {
      SourceFileModuleName(root, dir, directories, file);
    }

    /** `document_symbol`: the outline of the document, empty when it holds
        no compiled module. */
    method DocumentSymbolRequest(path: seq<string>, toRange: SpanToRange, pretty: Printer)
      returns (resp: Response<seq<DocumentSymbol>>)
      requires Valid()
      modifies this
      ensures Valid()
      ensures ModuleForUri(path).None? ==> resp.result == Ok([])
      ensures ModuleForUri(path).Some? ==>
        var m := ModuleForUri(path).value;
        resp.result == Ok(SymbolsOf(m.definitions, m.lines, toRange, pretty))
      ensures resp.warnings == old(warnings) && warnings == []
      ensures resp.compilation == (if old(compiledSinceLastFeedback) then Yes(old(modulesCompiledSinceLastFeedback)) else No)
      ensures !compiledSinceLastFeedback && modulesCompiledSinceLastFeedback == []
    {
      var symbols: seq<DocumentSymbol> := [];
      var current := ModuleForUri(path);
      if current.Some? {
        var m := current.value;
        symbols := DocumentSymbols(m.definitions, m.lines, toRange, pretty);
      }
      resp := Respond(Ok(symbols));
    }

    /** `code_actions`: the unused-imports quick fix when it applies,
        followed by the actions offered for redundant tuples in case
        subjects (`redundantTuple`); nothing when there is no action or no
        compiled module. */
    method CodeActionsRequest(path: seq<string>, uri: string, request: Range, toRange: SpanToRange,
                              redundantTuple: seq<CodeAction>)
      returns (resp: Response<Option<seq<CodeAction>>>)
      requires Valid()
      modifies this
      ensures Valid()
      ensures resp.result.Ok?
      ensures ModuleForUri(path).None? ==> resp.result.value.None?
      ensures ModuleForUri(path).Some? ==>
        var m := ModuleForUri(path).value;
        var offered := RemovalOffered(m, request, toRange);
        (resp.result.value.None? <==> !offered && redundantTuple == []) &&
        (resp.result.value.Some? && !offered ==> resp.result.value.value == redundantTuple) &&
        (resp.result.value.Some? && offered ==>
          var actions := resp.result.value.value;
          |actions| == 1 + |redundantTuple| && actions[1..] == redundantTuple &&
          IsRemoveUnusedImports(actions[0], uri, UnusedImportEdits(m.unusedImports, m.lines, toRange)))
      ensures resp.warnings == old(warnings) && warnings == []
      ensures resp.compilation == (if old(compiledSinceLastFeedback) then Yes(old(modulesCompiledSinceLastFeedback)) else No)
      ensures !compiledSinceLastFeedback && modulesCompiledSinceLastFeedback == []
    {
      var result: Option<seq<CodeAction>> := None;
      var current := ModuleForUri(path);
      if current.Some? {
        var m := current.value;
        var actions := CodeActionUnusedImports(m, uri, request, toRange, []);
        actions := actions + redundantTuple;
        result := if actions == [] then None else Some(actions);
      }
      resp := Respond(Ok(result));
    }

    /** `completion`: see `Dispatch.Completion`; the completer's answers are
        given as inputs. */
    method CompletionRequest<Item>(path: seq<string>, importCompletions: Option<Result<Option<seq<Item>>>>,
                                   found: Option<Located>, values: seq<Item>, types: seq<Item>,
                                   fromInterface: ModuleInterface -> seq<Item>)
      returns (resp: Response<Option<seq<Item>>>)
      requires Valid()
      modifies this
      ensures Valid()
      ensures resp.result == Completion(ModuleForUri(path), importCompletions, found, values, types, interfaces, fromInterface)
      ensures resp.warnings == old(warnings) && warnings == []
      ensures resp.compilation == (if old(compiledSinceLastFeedback) then Yes(old(modulesCompiledSinceLastFeedback)) else No)
      ensures !compiledSinceLastFeedback && modulesCompiledSinceLastFeedback == []
    {
      var result := Completion(ModuleForUri(path), importCompletions, found, values, types, interfaces, fromInterface);
      resp := Respond(result);
    }

    /** `hover`: see `Dispatch.Hover`; the node under the cursor, `found`,
        counts only when the document holds a compiled module. */
    method HoverRequest(path: seq<string>, found: Option<Located>)
      returns (resp: Response<Option<(HoverStrategy, string)>>)
      requires Valid()
      modifies this
      ensures Valid()
      ensures ModuleForUri(path).None? ==> resp.result == Ok(None)
      ensures ModuleForUri(path).Some? ==> resp.result == Ok(Hover(found, ModuleForUri(path), interfaces, hexDeps))
      ensures resp.warnings == old(warnings) && warnings == []
      ensures resp.compilation == (if old(compiledSinceLastFeedback) then Yes(old(modulesCompiledSinceLastFeedback)) else No)
      ensures !compiledSinceLastFeedback && modulesCompiledSinceLastFeedback == []
    {
      var current := ModuleForUri(path);
      var hover := if current.None? then None else Hover(found, current, interfaces, hexDeps);
      resp := Respond(Ok(hover));
    }
  }

  /** Feedback is handed over once: after a compilation, the first response
      reports it with the warnings it emitted, and the next response reports
      no compilation and no warnings. */
  method FeedbackIsReportedOnce(engine: LanguageServerEngine, outcome: CompileOutcome, emitted: seq<Warning>,
                                path: seq<string>, found: Option<Located>)
    returns (first: Response<()>, second: Response<Option<(HoverStrategy, string)>>)
    requires engine.Valid()
    modifies engine
    ensures first.warnings == old(engine.warnings) + emitted && first.compilation.Yes?
    ensures !outcome.Failed? ==> first.compilation.modules == old(engine.modulesCompiledSinceLastFeedback) + outcome.paths
    ensures second.warnings == [] && second.compilation == No
  {
    first := engine.CompilePlease(outcome, emitted);
    second := engine.HoverRequest(path, found);
  }
}

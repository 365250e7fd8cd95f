# Gleam language server engine, modelled in Dafny

This project models the engine of the Gleam language server
(`compiler-core/src/language_server/engine.rs`). The engine owns the
project's compiler and answers the editor's requests: document outline,
code actions, completion and hover. Every response also carries the
feedback pending since the previous response: the compiler's warnings and,
when there was a compilation, the modules it compiled.

Files and modules:

- `wrappers.dfy` (`Wrappers`): `Option`, `Result`, `Error` and `Warning`.
- `positions.dfy` (`Positions`): editor positions and their lexicographic
  order, ranges, byte spans and line tables, and `within` / `overlaps`.
  The conversion from byte span to editor range is a function parameter,
  `SpanToRange`.
- `syntax.dfy` (`Syntax`): the parts of the typed syntax tree, module record
  and manifest that the engine reads.
- `symbols.dfy` (`Symbols`): the document outline. Symbols are defined as
  functions of the syntax tree. The loops of `document_symbol` and
  `custom_type_symbol` are methods proved equal to those functions.
- `code_action.dfy` (`UnusedImports`): the "Remove unused imports" quick fix.
- `hexdocs.dfy` (`HexDocs`): the Hex-dependency set, and the "View on
  HexDocs" link that ends the hover text of an imported member.
- `dispatch.dfy` (`Dispatch`): what completion and hover do for each kind of
  node under the cursor.
- `module_path.dfy` (`ModulePath`): from a document's path to its module
  name.
- `engine.dfy` (`Engine`): the engine as a class. Its fields hold the
  pending feedback, and each request handler is a method that ends by
  handing over that feedback.

The type pretty-printer (`Printer`) and the completer's answers are
parameters. So is the outcome of a compilation: the engine's contract holds
whatever the compiler does.

## Model

| member | source | states |
|---|---|---|
| Positions.Within | compiler-core/src/language_server/engine.rs:748-751 | a position is within a range iff it is at or after the start and before the end; only a non-empty range contains one, and never its end |
| Positions.Overlaps | compiler-core/src/language_server/engine.rs:743-746 | when two ranges overlap, at least one of them is non-empty, so two bare cursors never overlap |
| Positions.PositionOrderTotal | compiler-core/src/language_server/engine.rs:748-751 | the position order used by `within` is total and antisymmetric |
| Positions.WithinOnlyNonEmpty | compiler-core/src/language_server/engine.rs:748-751 | `within` treats ranges as half-open, so an empty range contains no position |
| Positions.OverlapsSymmetric | compiler-core/src/language_server/engine.rs:743-746 | `overlaps(a, b)` equals `overlaps(b, a)` |
| Positions.CursorOverlaps | compiler-core/src/language_server/engine.rs:743-751 | an empty request range (a cursor) overlaps a range exactly when the cursor is within it |
| Positions.SharedPositionOverlaps | compiler-core/src/language_server/engine.rs:743-751 | two ranges that share a position overlap |
| Positions.OverlapsMeet | compiler-core/src/language_server/engine.rs:743-751 | two well-formed overlapping ranges have a common point, counting end points |
| Positions.TouchingRangesOverlap | compiler-core/src/language_server/engine.rs:743-751 | ranges that only touch (one ends where the other starts) overlap, though they share no position |
| HexDocs.HexDeps | compiler-core/src/language_server/engine.rs:104-115 | a package name is in the set iff some package-table entry with that name has a Hex source |
| HexDocs.QualifiedName | compiler-core/src/language_server/engine.rs:811-835 | there is a name iff the expression is a `module.member` selection, or an importable module function or constant; the pair is (module, member) |
| HexDocs.FormatHexdocsLinkSection | compiler-core/src/language_server/engine.rs:837-840 | the text is the link line for https://hexdocs.pm/{package}/{module}.html#{name}, with each part at its fixed place |
| HexDocs.FindHexPackage | compiler-core/src/language_server/engine.rs:842-856 | nothing iff no import of the module comes from a Hex dependency; otherwise the package of the first such import |
| HexDocs.GetHexdocsLinkSection | compiler-core/src/language_server/engine.rs:842-856 | no link iff there is no Hex import of the module; otherwise the link built from the first such import's package |
| HexDocs.ExpressionLinkSection | compiler-core/src/language_server/engine.rs:687-700 | the link is empty iff there is no current module, the expression names no member, or there is no Hex import; otherwise it is that link |
| HexDocs.ImportedValueLinkSection | compiler-core/src/language_server/engine.rs:430-433 | an imported value gets a link into its module iff the module's package is a Hex dependency |
| HexDocs.RegistryDependencyGetsLink | compiler-core/src/language_server/engine.rs:687-700 | hovering `module.member`, with the module imported from a Hex dependency, gives exactly that member's link |
| HexDocs.NonRegistryDependencyGetsNoLink | compiler-core/src/language_server/engine.rs:842-856 | the same hover gives no link when the package is not a Hex dependency |
| HexDocs.ImportedValueLinkFollowsManifest | compiler-core/src/language_server/engine.rs:104-115 | an imported value has a link iff its package appears in the package table with a Hex source |
| UnusedImports.AnyLineStartAt | compiler-core/src/language_server/engine.rs:805-809 | true iff one of the given line starts is the span's start, and the offset after the span's end starts a line |
| UnusedImports.DeleteLine | compiler-core/src/language_server/engine.rs:805-809 | true iff the span starts at a line start and the offset after its end is also a line start |
| UnusedImports.DeletionSpan | compiler-core/src/language_server/engine.rs:771-778 | the start is unchanged; the end grows by exactly one byte iff `delete_line` holds, and the span is untouched otherwise |
| UnusedImports.UnusedImportEdits | compiler-core/src/language_server/engine.rs:768-789 | one edit per unused import, in order; the i-th replaces the deletion span of the i-th unused import with the empty text |
| UnusedImports.InsertByStart | compiler-core/src/language_server/engine.rs:795 | the result is sorted by start, is a permutation of the input plus the new edit, and places the edit after every edit that does not start after it |
| UnusedImports.SortByStart | compiler-core/src/language_server/engine.rs:795 | the edits come out sorted by start and are a permutation of the input |
| UnusedImports.CodeActionUnusedImports | compiler-core/src/language_server/engine.rs:753-802 | the actions are unchanged when there are no unused imports or no deletion overlaps the request; otherwise exactly one action is appended, the preferred quick fix "Remove unused imports" for the document, holding the deletion edits sorted by start |
| UnusedImports.RemovalDeletesEachUnusedImport | compiler-core/src/language_server/engine.rs:768-799 | the quick fix holds one edit per unused import; each edit deletes the range of some unused import, and every unused import's deletion is among them |
| UnusedImports.CursorOnWholeLineImportOffersRemoval | compiler-core/src/language_server/engine.rs:753-802 | a cursor inside the deletion range of an unused import that fills its line gets the fix offered, and the fix's edits include the deletion of that line with its terminator |
| UnusedImports.WholeLineImportDeletesTerminator | compiler-core/src/language_server/engine.rs:772-778 | an import filling its line is deleted together with the line terminator |
| Symbols.DeprecatedSymbolTag | compiler-core/src/language_server/engine.rs:858-862 | there is a tag iff the definition is deprecated, and then it is the deprecated tag alone |
| Symbols.FunctionType | compiler-core/src/language_server/engine.rs:617-622 | a function type whose arguments are the function's argument types, in order, and whose return type is the function's |
| Symbols.FullSpan | compiler-core/src/language_server/engine.rs:290-297 | a function's, custom type's or constant's full span runs from its documentation (or its start) to the end of its body, constructors or value |; an alias's to the end of its head (lines 318-321)
| Symbols.SelectionSpan | compiler-core/src/language_server/engine.rs:307-310 | the name span of each definition kind; a function without one falls back to its head, and a constant's location is its name (lines 362-366) |
| Symbols.FieldFullSpan | compiler-core/src/language_server/engine.rs:524-527 | from the argument's documentation, when it has some, to the end of the argument |
| Symbols.FieldSelectionSpan | compiler-core/src/language_server/engine.rs:535-538 | the label's span, or else the whole argument |
| Symbols.ConstructorFullSpan | compiler-core/src/language_server/engine.rs:549-559 | from the documentation (or the name) to one past the end of the last argument, or to the end of the name when there are no arguments |
| Symbols.SelectionInsideFullSpan | compiler-core/src/language_server/engine.rs:290-369 | when the parser's spans nest, a symbol's selection range lies inside its full range |
| Symbols.ConstructorSelectionInsideFullSpan | compiler-core/src/language_server/engine.rs:519-559 | the same holds for constructors and for their fields |
| Symbols.FieldSymbol | compiler-core/src/language_server/engine.rs:530-542 | named after the label, of kind field, with the pretty-printed type as detail, no tags and no children; full range from the field's full span and selection range from its label |
| Symbols.Labelled | compiler-core/src/language_server/engine.rs:519-522 | exactly the labelled arguments are kept |
| Symbols.FieldSymbols | compiler-core/src/language_server/engine.rs:519-543 | at most one symbol per argument; each is a field symbol with no children and no tags |
| Symbols.ConstructorSymbolOf | compiler-core/src/language_server/engine.rs:545-576 | named after the constructor; an enum member iff it has no arguments, a constructor otherwise; its children are the field symbols of its arguments; its full range is the constructor's full span and its selection range its name |
| Symbols.TypeSymbolOf | compiler-core/src/language_server/engine.rs:511-597 | named after the type, of kind class, tagged iff deprecated; the i-th child is the i-th constructor's symbol; the full range runs from the documentation to the end of the constructors, the selection range is the name |
| Symbols.DefinitionSymbol | compiler-core/src/language_server/engine.rs:290-369 | each definition kind gets its name, kind, detail, tags, full range and selection range; only custom types have children |
| Symbols.SymbolsOf | compiler-core/src/language_server/engine.rs:287-372 | at most one symbol per definition |
| Symbols.NonImports | compiler-core/src/language_server/engine.rs:342 | exactly the definitions that are not imports |
| Symbols.SymbolsFollowDeclarations | compiler-core/src/language_server/engine.rs:287-372 | the outline has one symbol per non-import definition, in declaration order, and the i-th symbol is that definition's symbol |
| Symbols.SymbolsOfAppend | compiler-core/src/language_server/engine.rs:287-372 | the outline of concatenated definitions is the concatenation of their outlines |
| Symbols.ImportsGiveNoSymbols | compiler-core/src/language_server/engine.rs:342 | a module of imports only has an empty outline |
| Symbols.FieldsFollowLabelledArguments | compiler-core/src/language_server/engine.rs:519-543 | a constructor's fields are the field symbols of its labelled arguments, one each, in order |
| Symbols.OutlineIsTypeConstructorField | compiler-core/src/language_server/engine.rs:287-598 | the outline is at most three levels deep: types hold constructors, and constructors hold fields that have no children |
| Symbols.ConstructorSymbol | compiler-core/src/language_server/engine.rs:515-576 | the loop over a constructor's arguments builds the constructor's symbol |
| Symbols.CustomTypeSymbol | compiler-core/src/language_server/engine.rs:511-598 | `custom_type_symbol` builds the type's symbol |
| Symbols.DocumentSymbols | compiler-core/src/language_server/engine.rs:287-372 | the loop over the definitions builds the outline |
| Symbols.TwoConstructorsOneField | compiler-core/src/language_server/engine.rs:511-598 | a type with a constructor of one labelled and one unlabelled argument, and a constructor without arguments, has the outline type → (constructor → one field, enum member) |
| Dispatch.CompletionStrategyFor | compiler-core/src/language_server/engine.rs:216-249 | values for statements, expressions and function bodies; types for annotations and for function, alias and custom type definitions; an import's module members; nothing for the rest |
| Dispatch.Completion | compiler-core/src/language_server/engine.rs:193-252 | no answer without a module; import completions take precedence; no answer without a node; otherwise the strategy's items, with nothing when the imported module has no interface |
| Dispatch.ImportCompletionsShortCircuit | compiler-core/src/language_server/engine.rs:201-206 | while an import is being written, the answer is the import completions, whatever the node |
| Dispatch.HoverStrategyFor | compiler-core/src/language_server/engine.rs:404-462 | no hover for statements, function bodies and definitions other than functions and constants; function heads, constants, patterns, expressions, arguments and annotations each get their own renderer with their own node; an unqualified import is hovered as a type or a value as it is one |
| Dispatch.Hover | compiler-core/src/language_server/engine.rs:395-464 | there is a hover iff a node was found and its renderer applies; an unqualified import needs its module's interface and its name there; expressions and imported values end with their HexDocs link section, and other hovers with none |
| ModulePath.Join | compiler-core/src/language_server/engine.rs:502-503 | no components join to the empty string, and one component to itself |
| ModulePath.StripSuffix | compiler-core/src/language_server/engine.rs:504 | there is a result iff the text ends with the suffix, and the result followed by the suffix is the text |
| ModulePath.ModuleNameForPath | compiler-core/src/language_server/engine.rs:495-505 | no name for a path outside the root; otherwise a name iff the path below the source directory ends in `.gleam`, and the name followed by `.gleam` is that path |
| ModulePath.JoinAppend | compiler-core/src/language_server/engine.rs:502-503 | joining one more component puts a "/" between the joined rest and it |
| ModulePath.JoinExtendLast | compiler-core/src/language_server/engine.rs:502-503 | extending the last component extends the joined path |
| ModulePath.SourceFileModuleName | compiler-core/src/language_server/engine.rs:495-505 | `<root>/<dir>/a/b/c.gleam` names the module `a/b/c` |
| Engine.LanguageServerEngine.constructor | compiler-core/src/language_server/engine.rs:84-124 | the Hex-dependency set comes from the package table; nothing is compiled and no feedback is pending |
| Engine.LanguageServerEngine.Compile | compiler-core/src/language_server/engine.rs:131-144 | raises the compiled flag; appends the compiled modules on success and on a partial failure; returns Ok on success and the error otherwise; emitted warnings join the backlog |
| Engine.LanguageServerEngine.Respond | compiler-core/src/language_server/engine.rs:377-393 | returns the handler's result with all pending warnings; reports the recorded modules iff the flag was raised; then nothing is pending |
| Engine.LanguageServerEngine.CompilePlease | compiler-core/src/language_server/engine.rs:127-129 | reports a compilation of the modules recorded before plus those just compiled (also on a partial failure), with the error if the run failed |
| Engine.LanguageServerEngine.ModuleForUri | compiler-core/src/language_server/engine.rs:486-508 | a module iff the path gives a module name that the compiler has, and then that module |
| Engine.LanguageServerEngine.SourceFileOpensItsModule | compiler-core/src/language_server/engine.rs:486-508 | the file `<root>/<dir>/a/b/c.gleam` opens the compiled module `a/b/c` |
| Engine.LanguageServerEngine.DocumentSymbolRequest | compiler-core/src/language_server/engine.rs:276-375 | the outline of the document's module, or empty without one, with the pending feedback |
| Engine.LanguageServerEngine.CodeActionsRequest | compiler-core/src/language_server/engine.rs:255-274 | the unused-imports fix (when offered) followed by the redundant-tuple actions; no answer when there are none or no module |
| Engine.LanguageServerEngine.CompletionRequest | compiler-core/src/language_server/engine.rs:188-253 | the completion answer for the document's module, with the pending feedback |
| Engine.LanguageServerEngine.HoverRequest | compiler-core/src/language_server/engine.rs:395-464 | no hover without a module; otherwise the hover of the node under the cursor, with the pending feedback |
| Engine.FeedbackIsReportedOnce | compiler-core/src/language_server/engine.rs:377-393 | after a compilation, the first response reports it with its warnings, and the next reports no compilation and no warnings |

## Left out

- `compiler-core/src/git.rs` is not part of this model: the engine does not use it.
- Engine.LanguageServerEngine.constructor: the fallible start-up steps (making the build locker, downloading dependencies, building the compiler) and the progress notifications are left out, because they are I/O.
- `goto_definition` is left out: it needs the compiler's source table, and the definition location of syntax-tree nodes is outside the engine.
- Hover text: the markdown body (the pretty-printed type and the documentation) and the hover range are left out. The model keeps which renderer answers and the HexDocs link section that ends the text.
- The completer (import completions, value, type and unqualified completions), `RedundantTupleInCaseSubject`, `find_node` and `type_constructor_from_modules` are other components. Their answers are inputs.
- The compiler is not modelled. Its module table and module interfaces are fixed, and a compilation is given as its outcome and its warnings. A compilation does not change the module table in the model.
- Conversion from byte spans to editor ranges (`src_span_to_lsp_range`, UTF-16 columns) is a function parameter.
- Engine.LanguageServerEngine.ModuleForUri: URL parsing and `to_file_path` (which panics on non-file URLs) are left out. The path is given as its components.
- Positions.PositionOrderTotal: positions are unbounded naturals, not 32-bit integers.
- UnusedImports.SortByStart: `sort_by_key` is a stable sort, but the model states only sortedness and permutation, not that equal starts keep their order.
- HexDocs.HexDeps: the package table, a hash map in the compiler, is given as a sequence of its entries.
- The fields of `LanguageServerEngine` other than the feedback and the Hex-dependency set (`paths`, `compiler`, `progress_reporter`) are reduced to the project root, the module table and the interfaces.

/** The slice of the type-checked syntax tree, the compiled module record
    and the package manifest that the language-server engine reads. Only
    the fields the engine touches are kept. */
module Syntax {
  import opened Wrappers
  import opened Positions

  /** Types, as far as the engine builds them: a function type out of a
      function's argument and return types; every other type is named. */
  datatype Type = Fn(args: seq<Type>, retrn: Type) | Named(moduleName: string, name: string, params: seq<Type>)

  datatype Deprecation = NotDeprecated | Deprecated(message: string) {
    predicate IsDeprecated() { Deprecated? }
  }

  /** A function argument. */
  datatype Arg = Arg(type_: Type, location: Span)

  datatype FunctionDef = FunctionDef(
    name: string,
    location: Span,
    nameLocation: Option<Span>,
    docPosition: Option<nat>,
    endPosition: nat,
    arguments: seq<Arg>,
    returnType: Type,
    deprecation: Deprecation)

  datatype TypeAliasDef = TypeAliasDef(
    alias: string,
    location: Span,
    aliasLocation: Span,
    docPosition: Option<nat>,
    type_: Type,
    deprecation: Deprecation)

  /** An argument of a custom-type constructor; only labelled ones become
      field symbols. */
  datatype ConstructorArg = ConstructorArg(
    labelName: Option<string>,
    labelLocation: Option<Span>,
    docPosition: Option<nat>,
    location: Span,
    type_: Type)

  datatype RecordConstructor = RecordConstructor(
    name: string,
    location: Span,
    docPosition: Option<nat>,
    arguments: seq<ConstructorArg>)

  datatype CustomTypeDef = CustomTypeDef(
    name: string,
    location: Span,
    nameLocation: Span,
    docPosition: Option<nat>,
    endPosition: nat,
    constructors: seq<RecordConstructor>,
    deprecation: Deprecation)

  /** An import statement: the imported module and the package it comes from. */
  datatype ImportDef = ImportDef(moduleName: string, package: string, location: Span)

  /** A module constant; `location` is the span of its name and `valueLocation`
      the span of its value expression. */
  datatype ConstantDef = ConstantDef(
    name: string,
    location: Span,
    valueLocation: Span,
    docPosition: Option<nat>,
    type_: Type,
    deprecation: Deprecation)

  datatype Definition =
    | Function(fun: FunctionDef)
    | TypeAlias(alias: TypeAliasDef)
    | CustomType(customType: CustomTypeDef)
    | Import(imp: ImportDef)
    | ModuleConstant(constant: ConstantDef)

  /** What a value constructor refers to; only module functions and module
      constants carry the module they were defined in. */
  datatype ValueConstructorVariant =
    | ModuleFn(moduleName: string)
    | ModuleConstantVariant(moduleName: string)
    | LocalVariable
    | Record

  /** A typed expression, kept to the two shapes that name a module member. */
  datatype Expr =
    | Var(name: string, importable: bool, variant: ValueConstructorVariant)
    | ModuleSelect(labelName: string, moduleName: string)
    | OtherExpr

  /** The interface of an imported module, as the compiler reports it: its
      name, its package and the names of its public types and values. */
  datatype ModuleInterface = ModuleInterface(name: string, package: string, types: set<string>, values: set<string>)

  /** The compiled record of one module: its name, its line table, its
      definitions in declaration order and the spans of its unused imports. */
  datatype Module = Module(
    name: string,
    lines: LineNumbers,
    definitions: seq<Definition>,
    unusedImports: seq<Span>)

  /** Where a dependency's source comes from. */
  datatype ManifestPackageSource =
    | Hex(outerChecksum: string)
    | Git(repo: string, commit: string)
    | Local(path: string)

  datatype ManifestPackage = ManifestPackage(name: string, version: string, source: ManifestPackageSource)
}

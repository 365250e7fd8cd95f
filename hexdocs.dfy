/** Links to a dependency's documentation on HexDocs.

    A hovered value or module member gets a "View on HexDocs" link only when
    the current module imports the member's module from a package whose
    manifest source is the Hex registry. */
module HexDocs {
  import opened Wrappers
  import opened Syntax

  /** The `hex_deps` set: the names of the packages of the package table
      whose manifest source is Hex. The table is given as its entries. */
  function HexDeps(packages: seq<(string, ManifestPackage)>): (deps: set<string>)
    ensures forall k :: k in deps <==>
      exists i :: 0 <= i < |packages| && packages[i].0 == k && packages[i].1.source.Hex?
  {
    if packages == [] then {}
    else
      var rest := HexDeps(packages[1..]);
      assert forall k :: k in rest ==>
        exists i :: 0 <= i < |packages| && packages[i].0 == k && packages[i].1.source.Hex? by {
        forall k | k in rest
          ensures exists i :: 0 <= i < |packages| && packages[i].0 == k && packages[i].1.source.Hex?
        {
          var j :| 0 <= j < |packages[1..]| && packages[1..][j].0 == k && packages[1..][j].1.source.Hex?;
          assert packages[j + 1] == packages[1..][j];
        }
      }
      assert forall i :: 1 <= i < |packages| ==> packages[i] == packages[1..][i - 1];
      if packages[0].1.source.Hex? then {packages[0].0} + rest else rest
  }

  /** `get_expr_qualified_name`: the (module, member) an expression names,
      when it is an importable module function or constant, or a
      `module.member` selection. */
  function QualifiedName(e: Expr): (r: Option<(string, string)>)
    ensures r.Some? <==>
      e.ModuleSelect? ||
      (e.Var? && e.importable && (e.variant.ModuleFn? || e.variant.ModuleConstantVariant?))
    ensures e.ModuleSelect? ==> r == Some((e.moduleName, e.labelName))
    ensures e.Var? && r.Some? ==> r == Some((e.variant.moduleName, e.name))
  {
    match e
    case Var(name, importable, variant) =>
      if !importable then None
      else (
        match variant
        case ModuleFn(m) => Some((m, name))
        case ModuleConstantVariant(m) => Some((m, name))
        case _ => None)
    case ModuleSelect(member, moduleName) => Some((moduleName, member))
    case OtherExpr => None
  }

  /** The fixed text in front of the package name in a link section. */
  const LinkPrefix := "\nView on [HexDocs](https://hexdocs.pm/"

  /** `format_hexdocs_link_section`: the markdown line linking to
      https://hexdocs.pm/{package}/{module}.html#{name}. */
  function FormatHexdocsLinkSection(packageName: string, moduleName: string, name: string): (r: string)
    ensures |r| == |LinkPrefix| + |packageName| + |moduleName| + |name| + 8
    ensures r[..|LinkPrefix|] == LinkPrefix
    ensures r[|LinkPrefix|..|LinkPrefix| + |packageName|] == packageName
    ensures r[|LinkPrefix| + |packageName|] == '/'
    ensures r[|LinkPrefix| + |packageName| + 1..|LinkPrefix| + |packageName| + 1 + |moduleName|] == moduleName
    ensures r[|r| - |name| - 7..|r| - |name| - 1] == ".html#"
    ensures r[|r| - |name| - 1..|r| - 1] == name
    ensures r[|r| - 1] == ')'
  {
    var link := "https://hexdocs.pm/" + packageName + "/" + moduleName + ".html#" + name;
    "\nView on [HexDocs](" + link + ")"
  }

  /** An import of `moduleName` from a Hex package. */
  predicate IsHexImportOf(d: Definition, moduleName: string, hexDeps: set<string>) {
    d.Import? && d.imp.moduleName == moduleName && d.imp.package in hexDeps
  }

  /** Index `i` holds the first Hex import of `moduleName`. */
  predicate FirstHexImportAt(defs: seq<Definition>, i: int, moduleName: string, hexDeps: set<string>) {
    0 <= i < |defs| && IsHexImportOf(defs[i], moduleName, hexDeps) &&
    forall j :: 0 <= j < i ==> !IsHexImportOf(defs[j], moduleName, hexDeps)
  }

  /** The `find_map` over the definitions: the package of the first import
      of `moduleName` whose package is a Hex dependency. */
  function FindHexPackage(defs: seq<Definition>, moduleName: string, hexDeps: set<string>): (r: Option<string>)
    ensures r.None? <==> forall i :: 0 <= i < |defs| ==> !IsHexImportOf(defs[i], moduleName, hexDeps)
    ensures r.Some? ==> exists i :: FirstHexImportAt(defs, i, moduleName, hexDeps) && defs[i].imp.package == r.value
  {
    if defs == [] then None
    else if IsHexImportOf(defs[0], moduleName, hexDeps) then
      assert FirstHexImportAt(defs, 0, moduleName, hexDeps);
      Some(defs[0].imp.package)
    else
      var r := FindHexPackage(defs[1..], moduleName, hexDeps);
      assert forall i :: 1 <= i < |defs| ==> defs[i] == defs[1..][i - 1];
      if r.Some? then
        var i :| FirstHexImportAt(defs[1..], i, moduleName, hexDeps) && defs[1..][i].imp.package == r.value;
        assert FirstHexImportAt(defs, i + 1, moduleName, hexDeps);
        r
      else r
  }

  /** `get_hexdocs_link_section`: the link for `moduleName.name`, built from
      the package of the current module's first Hex import of `moduleName`;
      no link when there is no such import. */
  function GetHexdocsLinkSection(moduleName: string, name: string, defs: seq<Definition>, hexDeps: set<string>): (r: Option<string>)
    ensures r.None? <==> forall i :: 0 <= i < |defs| ==> !IsHexImportOf(defs[i], moduleName, hexDeps)
    ensures r.Some? ==> exists i :: (FirstHexImportAt(defs, i, moduleName, hexDeps) &&
      r.value == FormatHexdocsLinkSection(defs[i].imp.package, moduleName, name))
  {
    match FindHexPackage(defs, moduleName, hexDeps)
    case None => None
    case Some(packageName) => Some(FormatHexdocsLinkSection(packageName, moduleName, name))
  }

  /** The link section of an expression's hover text: the HexDocs link of
      the member it names, or the empty string. */
  function ExpressionLinkSection(e: Expr, current: Option<Module>, hexDeps: set<string>): (r: string)
    ensures r == "" <==>
      current.None? || QualifiedName(e).None? ||
      GetHexdocsLinkSection(QualifiedName(e).value.0, QualifiedName(e).value.1, current.value.definitions, hexDeps).None?
    ensures r != "" ==>
      r == GetHexdocsLinkSection(QualifiedName(e).value.0, QualifiedName(e).value.1, current.value.definitions, hexDeps).value
  {
    if current.None? then ""
    else match QualifiedName(e)
      case None => ""
      case Some((moduleName, name)) =>
        GetHexdocsLinkSection(moduleName, name, current.value.definitions, hexDeps).GetOr("")
  }

  /** The link section of an imported value's hover text: a link into the
      imported module when its package is a Hex dependency. */
  function ImportedValueLinkSection(imported: ModuleInterface, name: string, hexDeps: set<string>): (r: string)
    ensures r != "" <==> imported.package in hexDeps
    ensures r != "" ==> r == FormatHexdocsLinkSection(imported.package, imported.name, name)
  {
    if imported.package in hexDeps then FormatHexdocsLinkSection(imported.package, imported.name, name) else ""
  }

  /** Hovering `module.member`, where every import of `module` in the
      current module names a package that is a Hex dependency, yields exactly
      the link to that member. */
  lemma RegistryDependencyGetsLink(
    current: Module, hexDeps: set<string>, packageName: string, moduleName: string, member: string)
    requires packageName in hexDeps
    requires exists i :: (0 <= i < |current.definitions| &&
      current.definitions[i].Import? && current.definitions[i].imp.moduleName == moduleName)
    requires forall i :: (0 <= i < |current.definitions| &&
      current.definitions[i].Import? && current.definitions[i].imp.moduleName == moduleName) ==>
      current.definitions[i].imp.package == packageName
    ensures ExpressionLinkSection(ModuleSelect(member, moduleName), Some(current), hexDeps) ==
      FormatHexdocsLinkSection(packageName, moduleName, member)
  {
  }

  /** The same hover yields no link when the package is not a Hex
      dependency (it comes from version control or a local path). */
  lemma NonRegistryDependencyGetsNoLink(
    current: Module, hexDeps: set<string>, packageName: string, moduleName: string, member: string)
    requires packageName !in hexDeps
    requires forall i :: (0 <= i < |current.definitions| &&
      current.definitions[i].Import? && current.definitions[i].imp.moduleName == moduleName) ==>
      current.definitions[i].imp.package == packageName
    ensures ExpressionLinkSection(ModuleSelect(member, moduleName), Some(current), hexDeps) == ""
  {
  }

  /** Hovering an unqualified imported value links to HexDocs exactly when
      its package appears in the package table with a Hex source. */
  lemma ImportedValueLinkFollowsManifest(
    packages: seq<(string, ManifestPackage)>, imported: ModuleInterface, member: string)
    ensures ImportedValueLinkSection(imported, member, HexDeps(packages)) != "" <==>
      exists i :: 0 <= i < |packages| && packages[i].0 == imported.package && packages[i].1.source.Hex?
  {
  }
}

/** From a document's file path to the name of the module it holds: the
    path below the project root, without its first directory (`src` or
    `test`), joined with "/" and stripped of the `.gleam` extension. Paths
    are given as their components. */
module ModulePath {
  import opened Wrappers

  const GleamExtension := ".gleam"

  /** The components joined with "/" between them. */
  function Join(parts: seq<string>): (r: string)
    ensures parts == [] ==> r == ""
    ensures |parts| == 1 ==> r == parts[0]
  {
    if parts == [] then ""
    else if |parts| == 1 then parts[0]
    else parts[0] + "/" + Join(parts[1..])
  }

  /** `strip_suffix`: `s` without `suffix`, when `s` ends with it. */
  function StripSuffix(s: string, suffix: string): (r: Option<string>)
    ensures r.Some? <==> |suffix| <= |s| && s[|s| - |suffix|..] == suffix
    ensures r.Some? ==> r.value + suffix == s
  {
    if |suffix| <= |s| && s[|s| - |suffix|..] == suffix then
      assert s[..|s| - |suffix|] + s[|s| - |suffix|..] == s;
      Some(s[..|s| - |suffix|])
    else None
  }

  /** The path lies under the root. */
  predicate UnderRoot(root: seq<string>, path: seq<string>) {
    |root| <= |path| && path[..|root|] == root
  }

  /** The path below the root, less its first component. */
  function BelowSourceDirectory(root: seq<string>, path: seq<string>): seq<string>
    requires UnderRoot(root, path)
  {
    var components := path[|root|..];
    if components == [] then [] else components[1..]
  }

  /** The module name derivation of `module_for_uri`. */
  function ModuleNameForPath(root: seq<string>, path: seq<string>): (r: Option<string>)
    ensures !UnderRoot(root, path) ==> r.None?
    ensures UnderRoot(root, path) ==>
      (r.Some? <==> StripSuffix(Join(BelowSourceDirectory(root, path)), GleamExtension).Some?)
    ensures r.Some? ==> UnderRoot(root, path) && r.value + GleamExtension == Join(BelowSourceDirectory(root, path))
  {
    if UnderRoot(root, path) then StripSuffix(Join(BelowSourceDirectory(root, path)), GleamExtension)
    else None
  }

  /** Appending to the last component appends to the joined path. */
  lemma {:induction false} JoinExtendLast(parts: seq<string>, last: string, suffix: string)
    ensures Join(parts + [last + suffix]) == Join(parts + [last]) + suffix
  {
    if parts == [] {
      assert parts + [last + suffix] == [last + suffix];
      assert parts + [last] == [last];
    } else {
      assert (parts + [last + suffix])[1..] == parts[1..] + [last + suffix];
      assert (parts + [last])[1..] == parts[1..] + [last];
      JoinExtendLast(parts[1..], last, suffix);
    }
  }

  /** Joining one more component puts a "/" between it and the rest. */
  lemma {:induction false} JoinAppend(parts: seq<string>, last: string)
    requires parts != []
    ensures Join(parts + [last]) == Join(parts) + "/" + last
  {
    if |parts| == 1 {
      assert (parts + [last])[1..] == [last];
    } else {
      assert (parts + [last])[1..] == parts[1..] + [last];
      JoinAppend(parts[1..], last);
    }
  }

  /** A source file `<root>/<dir>/a/b/c.gleam` holds the module `a/b/c`. */
  lemma SourceFileModuleName(root: seq<string>, dir: string, directories: seq<string>, file: string)
    ensures ModuleNameForPath(root, root + [dir] + directories + [file + GleamExtension]) ==
      Some(Join(directories + [file]))
  {
    var path := root + [dir] + directories + [file + GleamExtension];
    assert path[..|root|] == root;
    assert BelowSourceDirectory(root, path) == directories + [file + GleamExtension];
    JoinExtendLast(directories, file, GleamExtension);
    var joined := Join(directories + [file]) + GleamExtension;
    assert joined[|joined| - |GleamExtension|..] == GleamExtension;
    assert joined[..|joined| - |GleamExtension|] == Join(directories + [file]);
  }
}

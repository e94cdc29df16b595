/**
 * The path resolver: every storage operation turns an (object type, id,
 * extension) triple into the path `root(type)/id.extension`, where the root
 * directory of each object type comes from a fixed configuration.  This module
 * also states which paths the listing pattern `*.extension` in directory `root` matches.
 */
module Paths {
  import opened Wrappers
  import opened Errors

  /** The type-to-directory configuration: the root directory of each object type. */
  type Config = map<string, string>

  /**
   * The path of object `objId` of type `objType` with extension `objExtension`.
   * An object type with no configured root fails before anything else happens,
   * and otherwise the id can be read back from the path, so distinct ids of one
   * type and extension never share a path.
   */
  function FilePath(config: Config, objType: string, objId: string, objExtension: string): (r: Result<string, StorageError>)
    ensures r.Failure? <==> objType !in config
    ensures r.Failure? ==> r.error == UnknownType(objType)
    ensures r.Success? ==> StemOf(r.value, config[objType], objExtension) == Some(objId)
  {
    if objType in config then
      var path := config[objType] + "/" + objId + "." + objExtension;
      assert path[..|config[objType]| + 1] == config[objType] + "/";
      assert path[|path| - |objExtension| - 1..] == "." + objExtension;
      assert path[|config[objType]| + 1..|path| - |objExtension| - 1] == objId;
      Success(path)
    else
      Failure(UnknownType(objType))
  }

  /**
   * The id `stem` for which `path` is `root/stem.extension`, if `path` has that
   * shape: the inverse of `FilePath` for a fixed root and extension.
   */
  function StemOf(path: string, root: string, extension: string): (r: Option<string>)
    ensures r.Some? ==> path == root + "/" + r.value + "." + extension
  {
    var dir, suffix := root + "/", "." + extension;
    if |dir| + |suffix| <= |path| && path[..|dir|] == dir && path[|path| - |suffix|..] == suffix then
      var stem := path[|dir|..|path| - |suffix|];
      assert path == path[..|dir|] + stem + path[|path| - |suffix|..];
      Some(stem)
    else
      None
  }

  /**
   * The ids that the wildcard of the listing pattern `*.extension` accepts:
   * one path segment (no '/'), and not a hidden name (the file name
   * `stem.extension` does not start with '.', so the stem is neither empty
   * nor starts with '.').
   */
  predicate WildcardMatches(stem: string)
  {
    stem != [] && stem[0] != '.' && '/' !in stem
  }

  /** Whether the pattern `*.extension` in directory `root` matches the existing file `path`. */
  predicate MatchesGlob(path: string, root: string, extension: string)
  {
    match StemOf(path, root, extension)
    case Some(stem) => WildcardMatches(stem)
    case None => false
  }

  /**
   * A path the listing pattern matches lies in exactly one root directory: the
   * listings of two types with different roots never share a path.
   */
  lemma {:induction false} GlobRootIsUnique(path: string, root1: string, root2: string, extension: string)
    requires MatchesGlob(path, root1, extension) && MatchesGlob(path, root2, extension)
    ensures root1 == root2
  {
    var stem1, stem2 := StemOf(path, root1, extension).value, StemOf(path, root2, extension).value;
    var head := path[..|path| - |extension| - 1];
    assert head == root1 + "/" + stem1 by {
      assert path == (root1 + "/" + stem1) + ("." + extension);
    }
    assert head == root2 + "/" + stem2 by {
      assert path == (root2 + "/" + stem2) + ("." + extension);
    }
    SlashFreeStemIsUnique(head, root1, stem1, root2, stem2);
  }

  /** Splitting `head` at a '/' followed by a '/'-free stem gives one root only. */
  lemma {:induction false} SlashFreeStemIsUnique(head: string, root1: string, stem1: string, root2: string, stem2: string)
    requires '/' !in stem1 && '/' !in stem2
    requires head == root1 + "/" + stem1 && head == root2 + "/" + stem2
    ensures root1 == root2
  {
    // The last '/' of `head` sits right after the root, whichever root we split at.
    assert head[|root1|] == '/' && head[|root2|] == '/';
    assert forall i | |root1| < i < |head| :: head[i] == stem1[i - |root1| - 1];
    assert forall i | |root2| < i < |head| :: head[i] == stem2[i - |root2| - 1];
    assert |root1| == |root2|;
    assert root1 == head[..|root1|] == root2;
  }

  /**
   * A path the listing pattern matches has one extension, as long as the
   * extensions contain no '.': listings for "json" and "db" never share a path.
   */
  lemma {:induction false} GlobExtensionIsUnique(path: string, root1: string, root2: string, extension1: string, extension2: string)
    requires '.' !in extension1 && '.' !in extension2
    requires MatchesGlob(path, root1, extension1) && MatchesGlob(path, root2, extension2)
    ensures extension1 == extension2
  {
    assert path[|path| - |extension1| - 1..] == "." + extension1;
    assert path[|path| - |extension2| - 1..] == "." + extension2;
    DotFreeSuffixIsUnique(path, extension1, extension2);
  }

  /** Two '.'-free extensions that both end `name` after a '.' are the same extension. */
  lemma {:induction false} DotFreeSuffixIsUnique(name: string, extension1: string, extension2: string)
    requires '.' !in extension1 && '.' !in extension2
    requires |extension1| < |name| && name[|name| - |extension1| - 1..] == "." + extension1
    requires |extension2| < |name| && name[|name| - |extension2| - 1..] == "." + extension2
    ensures extension1 == extension2
  {
    // The last '.' of `name` sits right before the extension, whichever extension we split at.
    var n := |name|;
    assert name[n - |extension1| - 1] == '.' && name[n - |extension2| - 1] == '.';
    assert forall i | n - |extension1| <= i < n :: name[i] == extension1[i - (n - |extension1|)];
    assert forall i | n - |extension2| <= i < n :: name[i] == extension2[i - (n - |extension2|)];
    assert |extension1| == |extension2|;
    assert extension1 == name[n - |extension1|..] == extension2;
  }

  /**
   * The object stored by `FilePath` shows up in the listing of its own type and
   * extension exactly when its id is one the wildcard accepts.
   */
  lemma FilePathMatchesGlob(config: Config, objType: string, objId: string, objExtension: string)
    requires objType in config
    ensures MatchesGlob(FilePath(config, objType, objId, objExtension).value, config[objType], objExtension)
            <==> WildcardMatches(objId)
  {
  }
}

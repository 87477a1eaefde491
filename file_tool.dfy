/**
 * The file reader the agent uses: it reads a file only when the resolved path lies under one
 * of its allowed roots, the source-documents directory and the index directory. Path
 * resolution, existence and reading are the file system's and are parameters; resolved paths
 * are sequences of components, so "lies under" is being a component prefix.
 */
module FileTools {
  import opened Wrappers

  /** A resolved (absolute, normalised) path as its components. */
  type ResolvedPath = seq<string>

  /** The two settings the tool reads; `None` is an unset path. */
  datatype PathSettings = PathSettings(sourceDocsPath: Option<ResolvedPath>, indexPath: Option<ResolvedPath>)

  /** The file system as the tool sees it; None where the call raises. */
  datatype FileSystem = FileSystem(
    resolve: string -> Option<ResolvedPath>,
    pathExists: ResolvedPath -> bool,
    readText: ResolvedPath -> Option<string>)

  /** `path.is_relative_to(root)`. */
  predicate IsRelativeTo(path: ResolvedPath, root: ResolvedPath)
  {
    root <= path
  }

  /** Some allowed root contains the path. */
  predicate Allowed(path: ResolvedPath, roots: seq<ResolvedPath>)
  {
    exists k :: 0 <= k < |roots| && IsRelativeTo(path, roots[k])
  }

  /** The allowed roots: the source-documents path, then the index path, each when set; none without settings. */
  function AllowedRoots(settings: Option<PathSettings>): (r: seq<ResolvedPath>)
    ensures settings.None? ==> r == []
    ensures settings.Some? ==> |r| <= 2
    ensures settings.Some? && settings.value.sourceDocsPath.Some? ==> |r| > 0 && r[0] == settings.value.sourceDocsPath.value
    ensures settings.Some? && settings.value.indexPath.Some? ==> |r| > 0 && r[|r| - 1] == settings.value.indexPath.value
    ensures forall k :: 0 <= k < |r| ==>
      settings.Some? && (Some(r[k]) == settings.value.sourceDocsPath || Some(r[k]) == settings.value.indexPath)
  {
    if settings.None? then []
    else
      (if settings.value.sourceDocsPath.Some? then [settings.value.sourceDocsPath.value] else []) +
      (if settings.value.indexPath.Some? then [settings.value.indexPath.value] else [])
  }

  /** `read_file`: the text of an existing file under an allowed root, or None. */
  function ReadSpec(roots: seq<ResolvedPath>, filePath: string, fs: FileSystem): Option<string>
  {
    var path := fs.resolve(filePath);
    if path.None? || !Allowed(path.value, roots) || !fs.pathExists(path.value) then None
    else fs.readText(path.value)
  }

  /**
   * A read succeeds only for an existing file whose resolved path lies under an allowed root,
   * and then gives its text; a path outside every root is never read.
   */
  lemma ReadIsConfined(roots: seq<ResolvedPath>, filePath: string, fs: FileSystem)
    ensures ReadSpec(roots, filePath, fs).Some? ==>
      var path := fs.resolve(filePath).value;
      && fs.resolve(filePath).Some?
      && (exists k :: 0 <= k < |roots| && roots[k] <= path)
      && fs.pathExists(path)
      && ReadSpec(roots, filePath, fs) == fs.readText(path)
    ensures fs.resolve(filePath).Some? && !Allowed(fs.resolve(filePath).value, roots) ==> ReadSpec(roots, filePath, fs).None?
    ensures roots == [] ==> ReadSpec(roots, filePath, fs).None?
  {
  }

  /** `FileTool`: its allowed roots. */
  class FileTool {
    var allowedPaths: seq<ResolvedPath>

    /** `__init__`: the resolved source-documents and index paths, when the settings have them. */
    constructor (settings: Option<PathSettings>)
      ensures allowedPaths == AllowedRoots(settings)
    {
      allowedPaths := [];
      if settings.Some? {
        if settings.value.sourceDocsPath.Some? {
          allowedPaths := allowedPaths + [settings.value.sourceDocsPath.value];
        }
        if settings.value.indexPath.Some? {
          allowedPaths := allowedPaths + [settings.value.indexPath.value];
        }
      }
    }

    /** `read_file`: the containment check, then the existence check, then the read. */
    method ReadFile(filePath: string, fs: FileSystem) returns (r: Option<string>)
      ensures r == ReadSpec(allowedPaths, filePath, fs)
    {
      var resolved := fs.resolve(filePath);
      if resolved.None? {
        return None;
      }
      var path := resolved.value;
      var isAllowed := false;
      var k := 0;
      while k < |allowedPaths|
        invariant 0 <= k <= |allowedPaths|
        invariant !isAllowed ==> forall j :: 0 <= j < k ==> !IsRelativeTo(path, allowedPaths[j])
        invariant isAllowed ==> Allowed(path, allowedPaths)
      {
        if IsRelativeTo(path, allowedPaths[k]) {
          isAllowed := true;
          break;
        }
        k := k + 1;
      }
      if !isAllowed {
        return None;
      }
      if !fs.pathExists(path) {
        return None;
      }
      r := fs.readText(path);
    }
  }
}

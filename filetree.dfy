/**
 * The file system as the tool sees it, and the never-raising read helpers
 * of src/utils/file.ts.
 *
 * A directory tree is a value: directories (whose listing may be
 * unreadable, in which case its entries are irrelevant), regular files (whose content may be unreadable) and
 * symbolic links (which may dangle). A link's target is a subtree, so the
 * model has no link cycles. Reads addressed by path go through functions
 * that stand for the file system at the time of the call.
 */
module FileTree {
  import opened Wrappers
  import opened Strings
  import opened Paths

  datatype Node =
    | Directory(name: string, readable: bool, entries: seq<Node>)
    | RegularFile(name: string, content: Option<string>)
    | SymbolicLink(name: string, target: Option<Node>)

  /** What `fs.statSync` describes: a link followed to the entry it ends at; nothing for a dangling link. */
  function Resolve(n: Node): (r: Option<Node>)
    ensures r.Some? ==> !r.value.SymbolicLink?
    ensures !n.SymbolicLink? ==> r == Some(n)
    ensures r.Some? ==> r.value == n || r.value < n
  {
    match n
    case SymbolicLink(_, target) => if target.Some? then Resolve(target.value) else None
    case _ => Some(n)
  }

  datatype FileLinkStats = FileLinkStats(isDirectory: bool, isFile: bool, isSymbolicLink: bool)

  /**
   * `getFileLinkStats`: the `statSync` of the entry, undefined when that
   * fails. `statSync` follows links, so `isSymbolicLink` is never set.
   */
  function GetFileLinkStats(n: Node): (r: Option<FileLinkStats>)
    ensures r.None? <==> Resolve(n).None?
    ensures r.Some? ==> !r.value.isSymbolicLink
    ensures r.Some? ==> r.value.isDirectory == Resolve(n).value.Directory?
    ensures r.Some? ==> r.value.isFile == Resolve(n).value.RegularFile?
  {
    match Resolve(n)
    case None => None
    case Some(target) => Some(FileLinkStats(target.Directory?, target.RegularFile?, target.SymbolicLink?))
  }

  /** A link to a directory is reported as a directory, exactly like the directory itself. */
  lemma LinkStatsLikeTarget(name: string, target: Node)
    ensures GetFileLinkStats(SymbolicLink(name, Some(target))) == GetFileLinkStats(target)
  {
  }

  /**
   * `readFileContent`: the text of a readable regular file, following
   * links; undefined instead of an exception for a directory, a dangling
   * link or an unreadable file.
   */
  function ReadFileContent(n: Node): (r: Option<string>)
    ensures r.Some? <==> Resolve(n).Some? && Resolve(n).value.RegularFile? && Resolve(n).value.content.Some?
    ensures r.Some? ==> r == Resolve(n).value.content
  {
    match Resolve(n)
    case Some(RegularFile(_, content)) => content
    case _ => None
  }

  /**
   * `readDirectory`: the entries of a readable directory, following links;
   * undefined instead of an exception otherwise.
   */
  function ReadDirectory(n: Node): (r: Option<seq<Node>>)
    ensures r.Some? <==> Resolve(n).Some? && Resolve(n).value.Directory? && Resolve(n).value.readable
    ensures r.Some? ==> r.value == Resolve(n).value.entries
  {
    match Resolve(n)
    case Some(Directory(_, readable, entries)) => if readable then Some(entries) else None
    case _ => None
  }

  // ---------------------------------------------------------------------------
  // Reads addressed by path

  /** A record of `readFileWithStats`. */
  datatype FileWithStats = FileWithStats(path: string, content: Option<string>, lastUpdated: Option<int>)

  /**
   * The record for one path: the content, then the modification time, in
   * one `try`; a failed read leaves both absent, a failed `statSync` after
   * a successful read leaves only the time absent.
   */
  function StatsOf(path: string, readFile: string -> Option<string>, modifiedTime: string -> Option<int>): (r: FileWithStats)
    ensures r.path == path && r.content == readFile(path)
    ensures r.lastUpdated.Some? ==> r.content.Some?
    ensures r.content.Some? ==> r.lastUpdated == modifiedTime(path)
  {
    match readFile(path)
    case None => FileWithStats(path, None, None)
    case Some(content) => FileWithStats(path, Some(content), modifiedTime(path))
  }

  /** `readFileWithStats(paths)`: one record per path, in order, each for its own path. */
  method ReadFileWithStats(paths: seq<string>, readFile: string -> Option<string>, modifiedTime: string -> Option<int>)
    returns (results: seq<FileWithStats>)
    ensures |results| == |paths|
    ensures forall i | 0 <= i < |paths| :: results[i] == StatsOf(paths[i], readFile, modifiedTime)
  {
    results := [];
    for i := 0 to |paths|
      invariant |results| == i
      invariant forall j | 0 <= j < i :: results[j] == StatsOf(paths[j], readFile, modifiedTime)
    {
      var path := paths[i];
      var result := FileWithStats(path, None, None);
      var content := readFile(path);
      if content.Some? {
        result := result.(content := content, lastUpdated := modifiedTime(path));
      }
      results := results + [result];
    }
  }

  /** `getFilename`: the last component of the path. */
  function GetFilename(absolutePath: string): (r: string)
    ensures '/' !in r
    ensures (|absolutePath| == 0 || absolutePath[|absolutePath| - 1] != '/') ==>
      EndsWith(absolutePath, r) && (|r| < |absolutePath| ==> absolutePath[|absolutePath| - |r| - 1] == '/')
  {
    Basename(absolutePath)
  }

  /**
   * `path.relative(base, p)` for a path inside the base: the part after the
   * base and its separator. Other paths would need `..` segments, which the
   * model does not build: it keeps such a path whole.
   */
  function Relative(baseDirectoryPath: string, absolutePath: string): (r: string)
    ensures absolutePath == baseDirectoryPath ==> r == ""
    ensures StartsWith(absolutePath, baseDirectoryPath + "/") ==> absolutePath == baseDirectoryPath + "/" + r
  {
    if absolutePath == baseDirectoryPath then ""
    else if StartsWith(absolutePath, baseDirectoryPath + "/") then
      assert absolutePath == absolutePath[..|baseDirectoryPath| + 1] + absolutePath[|baseDirectoryPath| + 1..];
      absolutePath[|baseDirectoryPath| + 1..]
    else absolutePath
  }

  /**
   * `getReadablePath(base, p)`: the base directory's own name joined with
   * `path.relative(base, p)`.
   */
  function GetReadablePath(baseDirectoryPath: string, absolutePath: string): (r: string)
    ensures absolutePath == baseDirectoryPath ==> r == if GetFilename(baseDirectoryPath) == "" then "." else GetFilename(baseDirectoryPath)
    ensures StartsWith(absolutePath, baseDirectoryPath + "/") && GetFilename(baseDirectoryPath) != "" && absolutePath != baseDirectoryPath + "/" ==>
      r == GetFilename(baseDirectoryPath) + "/" + absolutePath[|baseDirectoryPath| + 1..]
  {
    var name := GetFilename(baseDirectoryPath);
    var relative := Relative(baseDirectoryPath, absolutePath);
    assert name != "" && relative != "" ==> PathJoin(name, relative) == name + "/" + relative;
    assert relative == "" ==> PathJoin(name, relative) == if name == "" then "." else name;
    PathJoin(name, relative)
  }

  /** The readable path ends with the path relative to the base: only the base's own location is dropped. */
  lemma ReadablePathKeepsRelativePart(baseDirectoryPath: string, relative: string)
    requires relative != "" && GetFilename(baseDirectoryPath) != ""
    ensures var p := baseDirectoryPath + "/" + relative;
      StartsWith(p, baseDirectoryPath + "/") && GetReadablePath(baseDirectoryPath, p) == GetFilename(baseDirectoryPath) + "/" + relative
  {
    var p := baseDirectoryPath + "/" + relative;
    assert p[..|baseDirectoryPath| + 1] == baseDirectoryPath + "/";
    assert p[|baseDirectoryPath| + 1..] == relative;
  }
}

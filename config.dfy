/** The binary-manager section of the application settings, and the search
    for the project root that the settings loader uses. */
module Config {
  import opened Outcomes
  import opened Paths

  /** Settings of the helper-binary supervisor, as decoded from the
      `binaries` section of the configuration file. */
  datatype BinariesConfig = BinariesConfig(
    enabled: bool,
    useEmbedded: bool,        // true: extract from the payload; false: use a local directory
    binPath: Path,            // local directory of the binaries
    startupOrder: seq<string> // names of the binaries, in launch order
  )

  /** The zero value of the settings record. */
  const ZeroConfig := BinariesConfig(false, false, "", [])

  // The accessors take the settings by pointer; `None` is the nil pointer,
  // on which every accessor answers without failing.

  function IsEnabled(c: Option<BinariesConfig>): (r: bool)
    ensures c.None? ==> !r
    ensures c.Some? ==> r == c.value.enabled
  {
    c.Some? && c.value.enabled
  }

  function IsUseEmbedded(c: Option<BinariesConfig>): (r: bool)
    ensures c.None? ==> !r
    ensures c.Some? ==> r == c.value.useEmbedded
  {
    c.Some? && c.value.useEmbedded
  }

  function GetBinPath(c: Option<BinariesConfig>): (r: Path)
    ensures c.None? ==> r == ""
    ensures c.Some? ==> r == c.value.binPath
  {
    if c.None? then "" else c.value.binPath
  }

  function GetStartupOrder(c: Option<BinariesConfig>): (r: seq<string>)
    ensures c.None? ==> r == []
    ensures c.Some? ==> r == c.value.startupOrder
  {
    if c.None? then [] else c.value.startupOrder
  }

  /** Through the accessors a nil settings pointer cannot be told apart
      from the zero-valued record: disabled, local mode, no path, no names. */
  lemma NilReadsAsZero()
    ensures IsEnabled(None) == IsEnabled(Some(ZeroConfig)) == false
    ensures IsUseEmbedded(None) == IsUseEmbedded(Some(ZeroConfig)) == false
    ensures GetBinPath(None) == GetBinPath(Some(ZeroConfig)) == ""
    ensures GetStartupOrder(None) == GetStartupOrder(Some(ZeroConfig)) == []
  {
  }

  /** The project root is recognised by this file. */
  const ProjectMarker := "go.mod"

  /** At most this many directories are inspected. */
  const MaxSearchDepth: nat := 2

  /** The directories inspected from `dir` on, `depth` at most, climbing
      with `parentOf` (the model of `filepath.Dir`) and stopping at a
      directory that is its own parent, the root of the file system. */
  function SearchPath(dir: Path, parentOf: Path -> Path, depth: nat): (p: seq<Path>)
    ensures |p| <= depth
    ensures depth > 0 ==> |p| > 0 && p[0] == dir
    ensures forall i :: 0 < i < |p| ==> p[i] == parentOf(p[i - 1]) && p[i] != p[i - 1]
    ensures 0 < |p| < depth ==> parentOf(p[|p| - 1]) == p[|p| - 1]
    decreases depth
  {
    if depth == 0 then []
    else if parentOf(dir) == dir then [dir]
    else [dir] + SearchPath(parentOf(dir), parentOf, depth - 1)
  }

  /** `findProjectRoot`: the first inspected directory holding the marker
      file, or an error when none does. `present` says whether `os.Stat` succeeds
      on a path (it does for a file and for a directory alike). */
  method FindProjectRoot(startDir: Path, parentOf: Path -> Path, present: Path -> bool) returns (r: Result<Path>)
    ensures r.Ok? ==>
      var path := SearchPath(startDir, parentOf, MaxSearchDepth);
      exists k :: 0 <= k < |path| && path[k] == r.value && present(Join(r.value, ProjectMarker))
        && forall j :: 0 <= j < k ==> !present(Join(path[j], ProjectMarker))
    ensures r.Err? ==>
      r.msg == "go.mod not found"
      && forall d :: d in SearchPath(startDir, parentOf, MaxSearchDepth) ==> !present(Join(d, ProjectMarker))
  {
    ghost var path := SearchPath(startDir, parentOf, MaxSearchDepth);
    var dir := startDir;
    for i := 0 to MaxSearchDepth
      invariant i <= |path| && (i < |path| ==> dir == path[i])
      invariant i < |path| || i == MaxSearchDepth
      invariant forall j :: 0 <= j < i ==> !present(Join(path[j], ProjectMarker))
    {
      if present(Join(dir, ProjectMarker)) {
        return Ok(dir);
      }
      var parentDir := parentOf(dir);
      if parentDir == dir {
        // the root of the file system: nothing lies beyond it
        assert |path| == i + 1;
        break;
      }
      dir := parentDir;
    }
    return Err("go.mod not found");
  }
}

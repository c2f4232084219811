/** The operating system as the supervisor sees it.

    Every OS call the supervisor makes (and every read of the embedded
    payload) is appended to a call trace. A stat succeeds exactly for the
    paths in the current file map, and a payload read exactly for the keys
    of the payload. Whether any other call succeeds is decided by a fixed
    `Oracle`: a set of paths or process ids for which the OS refuses the
    request, and the answers of `os.UserCacheDir` and `os.Getwd`. The only
    OS state that is kept is the set of files and their bytes, and the next
    process id the OS hands out. */
module Os {
  import opened Outcomes
  import opened Paths

  type Bytes = seq<bv8>
  type Pid = nat

  /** Embedded payload: the read-only file system compiled into the binary,
      keyed by relative path (`bin/<name>`). */
  type Payload = map<Path, Bytes>

  /** Unix permission bits 0755 (rwxr-xr-x), used for every directory,
      written file and chmod of the supervisor. */
  const ExecPerm: int := 493

  datatype Oracle = Oracle(
    userCacheDir: Option<Path>,   // os.UserCacheDir, None when it fails
    cwd: Option<Path>,            // os.Getwd as used by filepath.Abs, None when it fails
    mkdirRefused: set<Path>,      // os.MkdirAll fails for these
    writeRefused: set<Path>,      // os.WriteFile fails for these
    chmodRefused: set<Path>,      // os.Chmod fails for these
    startRefused: set<Path>,      // exec.Cmd.Start fails for these executables
    killRefused: set<Pid>         // os.Process.Kill fails for these (e.g. already exited)
  )

  /** One request to the world outside the supervisor, with its outcome. */
  datatype Call =
    | ReadPayload(path: Path, ok: bool)
    | MkdirAll(path: Path, perm: int, ok: bool)
    | WriteFile(path: Path, data: Bytes, perm: int, ok: bool)
    | Stat(path: Path, ok: bool)
    | Chmod(path: Path, perm: int, ok: bool)
    | Start(path: Path, dir: Path, spawned: Option<Pid>)
    | Kill(pid: Pid, ok: bool)

  /** The mutable part of the host. */
  datatype World = World(files: map<Path, Bytes>, nextPid: Pid, calls: seq<Call>)

  class Host {
    const oracle: Oracle
    var world: World

    /** A host with the given files, no process started yet (the first one
        gets id 1) and no call made so far. */
    constructor (oracle: Oracle, files: map<Path, Bytes>)
      ensures this.oracle == oracle && world == World(files, 1, [])
    {
      this.oracle := oracle;
      world := World(files, 1, []);
    }

    /** `fs.ReadFile` on the embedded payload: present keys are returned. */
    method ReadPayload(payload: Payload, path: Path) returns (data: Result<Bytes>)
      modifies this
      ensures data.Ok? <==> path in payload
      ensures data.Ok? ==> data.value == payload[path]
      ensures world == old(world).(calls := old(world.calls) + [Call.ReadPayload(path, data.Ok?)])
    {
      if path in payload {
        data := Ok(payload[path]);
      } else {
        data := Err("file does not exist");
      }
      world := world.(calls := world.calls + [Call.ReadPayload(path, data.Ok?)]);
    }

    method MkdirAll(path: Path, perm: int) returns (ok: bool)
      modifies this
      ensures ok <==> path !in oracle.mkdirRefused
      ensures world == old(world).(calls := old(world.calls) + [Call.MkdirAll(path, perm, ok)])
    {
      ok := path !in oracle.mkdirRefused;
      world := world.(calls := world.calls + [Call.MkdirAll(path, perm, ok)]);
    }

    /** `os.WriteFile`: on success the file holds exactly `data`. */
    method WriteFile(path: Path, data: Bytes, perm: int) returns (ok: bool)
      modifies this
      ensures ok <==> path !in oracle.writeRefused
      ensures world.files == if ok then old(world.files)[path := data] else old(world.files)
      ensures world.nextPid == old(world.nextPid)
      ensures world.calls == old(world.calls) + [Call.WriteFile(path, data, perm, ok)]
    {
      ok := path !in oracle.writeRefused;
      var files := if ok then world.files[path := data] else world.files;
      world := world.(files := files, calls := world.calls + [Call.WriteFile(path, data, perm, ok)]);
    }

    /** `os.Stat`: succeeds exactly for existing files. */
    method Stat(path: Path) returns (ok: bool)
      modifies this
      ensures ok <==> path in old(world.files)
      ensures world == old(world).(calls := old(world.calls) + [Call.Stat(path, ok)])
    {
      ok := path in world.files;
      world := world.(calls := world.calls + [Call.Stat(path, ok)]);
    }

    method Chmod(path: Path, perm: int) returns (ok: bool)
      modifies this
      ensures ok <==> path !in oracle.chmodRefused
      ensures world == old(world).(calls := old(world.calls) + [Call.Chmod(path, perm, ok)])
    {
      ok := path !in oracle.chmodRefused;
      world := world.(calls := world.calls + [Call.Chmod(path, perm, ok)]);
    }

    /** `exec.Cmd.Start`: a spawned child gets the next process id. */
    method Start(path: Path, dir: Path) returns (pid: Option<Pid>)
      modifies this
      ensures pid == if path in oracle.startRefused then None else Some(old(world.nextPid))
      ensures world.files == old(world.files)
      ensures world.nextPid == old(world.nextPid) + (if pid.Some? then 1 else 0)
      ensures world.calls == old(world.calls) + [Call.Start(path, dir, pid)]
    {
      pid := if path in oracle.startRefused then None else Some(world.nextPid);
      var next := if pid.Some? then world.nextPid + 1 else world.nextPid;
      world := world.(nextPid := next, calls := world.calls + [Call.Start(path, dir, pid)]);
    }

    /** `os.Process.Kill`. */
    method Kill(pid: Pid) returns (ok: bool)
      modifies this
      ensures ok <==> pid !in oracle.killRefused
      ensures world == old(world).(calls := old(world.calls) + [Call.Kill(pid, ok)])
    {
      ok := pid !in oracle.killRefused;
      world := world.(calls := world.calls + [Call.Kill(pid, ok)]);
    }
  }
}

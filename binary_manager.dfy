/** The helper-binary supervisor: it prepares each configured executable
    (extracting it from the embedded payload, or finding it in a local
    directory), launches the executables in the configured order, keeps one
    command per launched process and kills them all on shutdown. */
module Service {
  import opened Outcomes
  import opened Paths
  import opened Os
  import Config

  /** Local directory used when the settings give none. */
  const DefaultBinPath := "./bin"
  /** Directory of the executables inside the embedded payload. */
  const PayloadDir := "bin"
  /** Application directory under the user cache directory. */
  const AppName := "wachat"
  /** Directory under the application cache directory that the embedded
      executables are extracted to. */
  const CacheSubDir := "bin"

  /** A command the supervisor keeps: the executable, its working directory
      and the process, which is nil until the command has been started. */
  datatype Cmd = Cmd(path: Path, dir: Path, process: Option<Pid>)

  /** Settings after the checks of `NewBinaryManagerFromConfig`. */
  datatype Settings = Settings(useEmbedded: bool, binPath: Path, startupOrder: seq<string>)

  /** The checks and defaults `NewBinaryManagerFromConfig` applies before it
      builds a manager: a nil or disabled configuration and an empty startup
      order are rejected, and an empty directory becomes `./bin`. */
  function ResolveSettings(cfg: Option<Config.BinariesConfig>): (r: Result<Settings>)
    ensures !Config.IsEnabled(cfg) ==> r == Err("binary manager is disabled")
    ensures Config.IsEnabled(cfg) && Config.GetStartupOrder(cfg) == [] ==> r == Err("no binaries in startup_order")
    ensures r.Ok? <==> Config.IsEnabled(cfg) && Config.GetStartupOrder(cfg) != []
    ensures r.Ok? ==>
      && r.value.useEmbedded == Config.IsUseEmbedded(cfg)
      && r.value.startupOrder == Config.GetStartupOrder(cfg)
      && r.value.binPath == (if Config.GetBinPath(cfg) == "" then DefaultBinPath else Config.GetBinPath(cfg))
      && r.value.binPath != ""
  {
    if !Config.IsEnabled(cfg) then Err("binary manager is disabled")
    else if |Config.GetStartupOrder(cfg)| == 0 then Err("no binaries in startup_order")
    else
      var binPath := if Config.GetBinPath(cfg) == "" then DefaultBinPath else Config.GetBinPath(cfg);
      Ok(Settings(Config.IsUseEmbedded(cfg), binPath, Config.GetStartupOrder(cfg)))
  }

  /** A nil settings pointer disables the supervisor. */
  lemma NilConfigIsDisabled()
    ensures ResolveSettings(None) == Err("binary manager is disabled")
  {
  }

  /** The directory the embedded executables are extracted to. */
  function EmbeddedCacheDir(userCacheDir: Path): (d: Path)
    ensures IsAbs(userCacheDir) ==> IsAbs(d)
    ensures d != ""
  {
    Join(Join(userCacheDir, AppName), CacheSubDir)
  }

  /** The two directories a manager keeps: the (possibly resolved) local
      directory and the working directory of every executable. */
  datatype Dirs = Dirs(binPath: Path, cacheDir: Path)

  /** How `NewBinaryManager` picks its directories, with the failures the
      host reports: in embedded mode the per-user cache directory of the
      application, which must be creatable; in local mode the configured
      directory, made absolute against the working directory if needed. */
  function ResolveDirs(useEmbedded: bool, binPath: Path, o: Oracle): (r: Result<Dirs>)
    ensures useEmbedded && o.userCacheDir.None? ==> r == Err("failed to get cache directory")
    ensures useEmbedded && o.userCacheDir.Some? && EmbeddedCacheDir(o.userCacheDir.value) in o.mkdirRefused ==>
      r == Err("failed to create app cache directory")
    ensures !useEmbedded && !IsAbs(binPath) && o.cwd.None? ==> r == Err("failed to resolve bin path")
    ensures !useEmbedded && !IsAbs(binPath) && o.cwd.Some? ==>
      r == Ok(Dirs(Join(o.cwd.value, binPath), Join(o.cwd.value, binPath)))
    ensures useEmbedded ==>
      (r.Err? <==> o.userCacheDir.None? || EmbeddedCacheDir(o.userCacheDir.value) in o.mkdirRefused)
    ensures useEmbedded && r.Ok? ==>
      r.value == Dirs(binPath, EmbeddedCacheDir(o.userCacheDir.value))
    ensures !useEmbedded ==> (r.Err? <==> !IsAbs(binPath) && o.cwd.None?)
    ensures !useEmbedded && IsAbs(binPath) ==> r == Ok(Dirs(binPath, binPath))
    ensures !useEmbedded && r.Ok? ==>
      r.value.cacheDir == r.value.binPath
      && (o.cwd.None? || IsAbs(o.cwd.value) ==> IsAbs(r.value.cacheDir))
  {
    if useEmbedded then
      if o.userCacheDir.None? then Err("failed to get cache directory")
      else
        var cacheDir := EmbeddedCacheDir(o.userCacheDir.value);
        if cacheDir in o.mkdirRefused then Err("failed to create app cache directory")
        else Ok(Dirs(binPath, cacheDir))
    else if IsAbs(binPath) then Ok(Dirs(binPath, binPath))
    else if o.cwd.None? then Err("failed to resolve bin path")
    else
      var absPath := Join(o.cwd.value, binPath);
      Ok(Dirs(absPath, absPath))
  }

  /** Everything one launch attempt produces: the error returned, the host
      afterwards and the command kept, if any. */
  datatype AttemptResult = AttemptResult(err: MaybeError, world: World, cmd: Option<Cmd>)

  /** The state a whole start-up run reaches: how many launches succeeded,
      the host afterwards and the commands kept, in launch order. */
  datatype RunResult = RunResult(successes: nat, world: World, started: seq<Cmd>)

  /** A trace extending a trace that extends a third one extends the third,
      by the two additions one after the other. */
  lemma PrefixChain(c0: seq<Call>, c1: seq<Call>, c2: seq<Call>)
    requires |c1| >= |c0| && c1[..|c0|] == c0
    requires |c2| >= |c1| && c2[..|c1|] == c1
    ensures c2[..|c0|] == c0
    ensures c2[|c0|..] == c1[|c0|..] + c2[|c1|..]
  {
    assert c2[..|c0|] == c2[..|c1|][..|c0|];
  }

  /** Calls that look for an executable: the read of the embedded payload and
      the check that a local file exists. Each launch attempt begins with
      exactly one of them. */
  predicate IsProbe(c: Call) {
    c.ReadPayload? || c.Stat?
  }

  /** The paths probed by a call trace, in order. */
  function ProbedPaths(calls: seq<Call>): (ps: seq<Path>)
    ensures |ps| <= |calls|
  {
    if calls == [] then []
    else
      var last := calls[|calls| - 1];
      ProbedPaths(calls[..|calls| - 1]) + (if IsProbe(last) then [last.path] else [])
  }

  lemma {:induction false} ProbedPathsAppend(a: seq<Call>, b: seq<Call>)
    ensures ProbedPaths(a + b) == ProbedPaths(a) + ProbedPaths(b)
    decreases |b|
  {
    if b == [] {
      assert a + b == a;
    } else {
      var b' := b[..|b| - 1];
      assert (a + b)[..|a + b| - 1] == a + b';
      assert (a + b)[|a + b| - 1] == b[|b| - 1];
      ProbedPathsAppend(a, b');
    }
  }

  /** A trace that opens with one probe and has no other probes. */
  lemma {:induction false} ProbedPathsOfOneProbe(calls: seq<Call>)
    requires |calls| > 0 && IsProbe(calls[0])
    requires forall k :: 0 < k < |calls| ==> !IsProbe(calls[k])
    ensures ProbedPaths(calls) == [calls[0].path]
    decreases |calls|
  {
    if |calls| > 1 {
      ProbedPathsOfOneProbe(calls[..|calls| - 1]);
    }
  }

  /** The Kill requests a shutdown sends for `cmds`: one per started process,
      in list order. */
  function KillCalls(o: Oracle, cmds: seq<Cmd>): (ks: seq<Call>)
    ensures |ks| <= |cmds|
    ensures forall k :: 0 <= k < |ks| ==> ks[k].Kill?
  {
    if cmds == [] then []
    else
      var last := cmds[|cmds| - 1];
      KillCalls(o, cmds[..|cmds| - 1])
        + (match last.process
           case Some(pid) => [Kill(pid, pid !in o.killRefused)]
           case None => [])
  }

  /** When every command holds a process, shutdown sends exactly one Kill to
      each, in list order, whether or not earlier ones failed. */
  lemma {:induction false} KillsEveryProcess(o: Oracle, cmds: seq<Cmd>)
    requires forall c :: c in cmds ==> c.process.Some?
    ensures |KillCalls(o, cmds)| == |cmds|
    ensures forall k :: 0 <= k < |cmds| ==>
      KillCalls(o, cmds)[k] == Kill(cmds[k].process.value, cmds[k].process.value !in o.killRefused)
    decreases |cmds|
  {
    if cmds != [] {
      var init := cmds[..|cmds| - 1];
      assert forall c :: c in init ==> c in cmds;
      KillsEveryProcess(o, init);
    }
  }

  class BinaryManager {
    const useEmbedded: bool
    const binaries: Payload
    const binPath: Path
    var processes: seq<Cmd>
    const execOrder: seq<string>
    const cacheDir: Path

    /** Every kept command has been started, in the manager's directory. */
    ghost predicate Valid()
      reads this
    {
      forall c :: c in processes ==> c.process.Some? && c.dir == cacheDir
    }

    constructor (useEmbedded: bool, binaries: Payload, binPath: Path, execOrder: seq<string>, cacheDir: Path)
      ensures this.useEmbedded == useEmbedded && this.binaries == binaries && this.binPath == binPath
      ensures this.execOrder == execOrder && this.cacheDir == cacheDir
      ensures processes == [] && Valid()
    {
      this.useEmbedded := useEmbedded;
      this.binaries := binaries;
      this.binPath := binPath;
      this.processes := [];
      this.execOrder := execOrder;
      this.cacheDir := cacheDir;
    }

    /** `NewBinaryManager`: pick the directories (creating the cache
        directory in embedded mode) and build a manager with no processes. */
    static method NewBinaryManager(useEmbedded: bool, binaries: Payload, binPath: Path, execOrder: seq<string>, host: Host)
      returns (r: Result<BinaryManager>)
      modifies host
      ensures var d := ResolveDirs(useEmbedded, binPath, host.oracle);
        && (r.Err? <==> d.Err?)
        && (r.Err? ==> r.msg == d.msg)
        && (r.Ok? ==>
              && fresh(r.value) && r.value.Valid()
              && r.value.useEmbedded == useEmbedded && r.value.binaries == binaries
              && r.value.binPath == d.value.binPath && r.value.cacheDir == d.value.cacheDir
              && r.value.execOrder == execOrder && r.value.processes == [])
      ensures host.world ==
        if useEmbedded && host.oracle.userCacheDir.Some? then
          var dir := EmbeddedCacheDir(host.oracle.userCacheDir.value);
          old(host.world).(calls := old(host.world.calls) + [MkdirAll(dir, ExecPerm, dir !in host.oracle.mkdirRefused)])
        else old(host.world)
    {
      var cacheDir: Path;
      var binPath := binPath;
      if useEmbedded {
        var userCacheDir := host.oracle.userCacheDir;
        if userCacheDir.None? {
          return Err("failed to get cache directory");
        }
        cacheDir := EmbeddedCacheDir(userCacheDir.value);
        var ok := host.MkdirAll(cacheDir, ExecPerm);
        if !ok {
          return Err("failed to create app cache directory");
        }
      } else {
        if !IsAbs(binPath) {
          var cwd := host.oracle.cwd;
          if cwd.None? {
            return Err("failed to resolve bin path");
          }
          binPath := Join(cwd.value, binPath);
        }
        cacheDir := binPath;
      }
      var bm := new BinaryManager(useEmbedded, binaries, binPath, execOrder, cacheDir);
      return Ok(bm);
    }

    /** `NewBinaryManagerFromConfig`: check the settings, apply the default
        directory, then build the manager. */
    static method NewBinaryManagerFromConfig(cfg: Option<Config.BinariesConfig>, binaries: Payload, host: Host)
      returns (r: Result<BinaryManager>)
      modifies host
      ensures var s := ResolveSettings(cfg);
        && (s.Err? ==> r == Err(s.msg) && host.world == old(host.world))
        && (s.Ok? ==>
              var d := ResolveDirs(s.value.useEmbedded, s.value.binPath, host.oracle);
              && (r.Err? <==> d.Err?)
              && (r.Err? ==> r.msg == d.msg)
              && (r.Ok? ==>
                    && fresh(r.value) && r.value.Valid()
                    && r.value.useEmbedded == s.value.useEmbedded && r.value.binaries == binaries
                    && r.value.binPath == d.value.binPath && r.value.cacheDir == d.value.cacheDir
                    && r.value.execOrder == s.value.startupOrder && r.value.processes == [])
              && host.world ==
                   if s.value.useEmbedded && host.oracle.userCacheDir.Some? then
                     var dir := EmbeddedCacheDir(host.oracle.userCacheDir.value);
                     old(host.world).(calls := old(host.world.calls) + [MkdirAll(dir, ExecPerm, dir !in host.oracle.mkdirRefused)])
                   else old(host.world))
    {
      var s := ResolveSettings(cfg);
      if s.Err? {
        return Err(s.msg);
      }
      r := NewBinaryManager(s.value.useEmbedded, binaries, s.value.binPath, s.value.startupOrder, host);
    }

    /** Where the executable for `name` is launched from. */
    function ExecutablePath(name: string): Path {
      Join(cacheDir, name)
    }

    /** Where the bytes of `name` are kept in the embedded payload. */
    function PayloadPath(name: string): Path {
      Join(PayloadDir, name)
    }

    /** The path a launch attempt for `name` probes first. */
    function ProbePath(name: string): Path {
      if useEmbedded then PayloadPath(name) else ExecutablePath(name)
    }

    /** The executable for `name` is ready on disk: extracted (the payload
        has it and it could be written) or present in the local directory. */
    predicate Resolved(o: Oracle, files: map<Path, Bytes>, name: string) {
      if useEmbedded then PayloadPath(name) in binaries && ExecutablePath(name) !in o.writeRefused
      else ExecutablePath(name) in files
    }

    /** Reference condition for a launch to succeed: the executable is ready
        and the OS agrees to start it. A refused chmod plays no part. */
    predicate Launchable(o: Oracle, files: map<Path, Bytes>, name: string) {
      Resolved(o, files, name) && ExecutablePath(name) !in o.startRefused
    }

    /** The last step of a launch: spawn the executable. */
    function Spawn(o: Oracle, w: World, name: string): (a: AttemptResult) {
      var exe := ExecutablePath(name);
      if exe in o.startRefused then
        AttemptResult(Error("failed to start " + name), w.(calls := w.calls + [Start(exe, cacheDir, None)]), None)
      else
        var cmd := Cmd(exe, cacheDir, Some(w.nextPid));
        AttemptResult(Nil, w.(nextPid := w.nextPid + 1, calls := w.calls + [Start(exe, cacheDir, cmd.process)]), Some(cmd))
    }

    /** What `startBinary` does for `name` on host state `w`. */
    function Attempt(o: Oracle, w: World, name: string): (a: AttemptResult)
      ensures a.err.Nil? <==> Launchable(o, w.files, name)
      ensures a.cmd.Some? <==> a.err.Nil?
      ensures a.cmd.Some? ==> a.cmd.value == Cmd(ExecutablePath(name), cacheDir, Some(w.nextPid))
      ensures a.world.nextPid == w.nextPid + (if a.cmd.Some? then 1 else 0)
      ensures |a.world.calls| > |w.calls| && a.world.calls[..|w.calls|] == w.calls
      // files change only by extraction, which writes the payload bytes verbatim
      ensures a.world.files ==
        if useEmbedded && Resolved(o, w.files, name) then w.files[ExecutablePath(name) := binaries[PayloadPath(name)]]
        else w.files
    {
      var exe := ExecutablePath(name);
      if useEmbedded then
        var src := PayloadPath(name);
        var w1 := w.(calls := w.calls + [ReadPayload(src, src in binaries)]);
        if src !in binaries then
          AttemptResult(Error("failed to read embedded binary " + name), w1, None)
        else
          var ok := exe !in o.writeRefused;
          var files := if ok then w1.files[exe := binaries[src]] else w1.files;
          var w2 := w1.(files := files, calls := w1.calls + [WriteFile(exe, binaries[src], ExecPerm, ok)]);
          if !ok then AttemptResult(Error("failed to write binary " + name), w2, None)
          else Spawn(o, w2, name)
      else
        var found := exe in w.files;
        var w1 := w.(calls := w.calls + [Stat(exe, found)]);
        if !found then
          AttemptResult(Error("binary " + name + " not found at " + exe), w1, None)
        else
          // a refused chmod is only a warning
          var w2 := w1.(calls := w1.calls + [Chmod(exe, ExecPerm, exe !in o.chmodRefused)]);
          Spawn(o, w2, name)
    }

    /** Whether chmod succeeds never changes the outcome of a launch. */
    lemma ChmodFailureNotFatal(o: Oracle, w: World, name: string, refused: set<Path>)
      ensures Attempt(o, w, name).err == Attempt(o.(chmodRefused := refused), w, name).err
      ensures Attempt(o, w, name).cmd == Attempt(o.(chmodRefused := refused), w, name).cmd
    {
    }

    /** `startBinary`: prepare the executable for `name`, start it, and keep
        its command when it started. */
    method StartBinary(name: string, host: Host) returns (err: MaybeError)
      requires Valid()
      modifies this, host
      ensures Valid()
      ensures var a := Attempt(host.oracle, old(host.world), name);
        && err == a.err && host.world == a.world
        && processes == old(processes) + (if a.cmd.Some? then [a.cmd.value] else [])
    {
      var executablePath: Path;
      if useEmbedded {
        var binaryPath := PayloadPath(name);
        var data := host.ReadPayload(binaries, binaryPath);
        if data.Err? {
          return Error("failed to read embedded binary " + name);
        }
        executablePath := ExecutablePath(name);
        var ok := host.WriteFile(executablePath, data.value, ExecPerm);
        if !ok {
          return Error("failed to write binary " + name);
        }
      } else {
        executablePath := ExecutablePath(name);
        var found := host.Stat(executablePath);
        if !found {
          return Error("binary " + name + " not found at " + executablePath);
        }
        var chmodOk := host.Chmod(executablePath, ExecPerm);
        // a refused chmod is only a warning
      }
      var process := host.Start(executablePath, cacheDir);
      if process.None? {
        return Error("failed to start " + name);
      }
      processes := processes + [Cmd(executablePath, cacheDir, process)];
      return Nil;
    }

    /** A start-up run over `names`, one attempt after the other, from host
        state `w`. */
    function Run(o: Oracle, w: World, names: seq<string>): (r: RunResult)
      ensures r.successes == |r.started| <= |names|
      ensures forall c :: c in r.started ==> c.process.Some? && c.dir == cacheDir
      ensures !useEmbedded ==> r.world.files == w.files
      decreases |names|
    {
      if names == [] then RunResult(0, w, [])
      else
        var prev := Run(o, w, names[..|names| - 1]);
        var a := Attempt(o, prev.world, names[|names| - 1]);
        RunResult(prev.successes + (if a.err.Nil? then 1 else 0), a.world,
                  prev.started + (if a.cmd.Some? then [a.cmd.value] else []))
    }

    /** The names whose launch succeeds on a host holding `files`. */
    function LaunchableNames(o: Oracle, files: map<Path, Bytes>, names: seq<string>): (ls: seq<string>)
      ensures |ls| <= |names|
    {
      if names == [] then []
      else
        var last := names[|names| - 1];
        LaunchableNames(o, files, names[..|names| - 1]) + (if Launchable(o, files, last) then [last] else [])
    }

    /** A name is selected exactly when it is one of the names and it is
        launchable. */
    lemma {:induction false} LaunchableNamesMembers(o: Oracle, files: map<Path, Bytes>, names: seq<string>)
      ensures forall n :: n in LaunchableNames(o, files, names) <==> n in names && Launchable(o, files, n)
      decreases |names|
    {
      if names != [] {
        var init, last := names[..|names| - 1], names[|names| - 1];
        LaunchableNamesMembers(o, files, init);
        assert names == init + [last];
      }
    }

    /** A single name is kept exactly when it is launchable. */
    lemma LaunchableNamesOfOne(o: Oracle, files: map<Path, Bytes>, n: string)
      ensures LaunchableNames(o, files, [n]) == if Launchable(o, files, n) then [n] else []
    {
      assert [n][..0] == [];
    }

    /** Appending a name appends it to the selection exactly when it is
        launchable. */
    lemma LaunchableNamesSnoc(o: Oracle, files: map<Path, Bytes>, s: seq<string>, n: string)
      ensures LaunchableNames(o, files, s + [n]) ==
        LaunchableNames(o, files, s) + (if Launchable(o, files, n) then [n] else [])
    {
      assert (s + [n])[..|s|] == s;
    }

    /** Selecting the launchable names keeps their order: the selection of a
        concatenation is the concatenation of the selections. */
    lemma {:induction false} LaunchableNamesAppend(o: Oracle, files: map<Path, Bytes>, a: seq<string>, b: seq<string>)
      ensures LaunchableNames(o, files, a + b) == LaunchableNames(o, files, a) + LaunchableNames(o, files, b)
      decreases |b|
    {
      if b == [] {
        assert a + b == a;
      } else {
        var init, last := b[..|b| - 1], b[|b| - 1];
        assert b == init + [last];
        assert a + b == (a + init) + [last];
        LaunchableNamesAppend(o, files, a, init);
        LaunchableNamesSnoc(o, files, a + init, last);
        LaunchableNamesSnoc(o, files, init, last);
      }
    }

    /** A run launches exactly the launchable names, in order, and keeps one
        command for each, launched from the manager's directory. */
    lemma {:induction false} RunStartsLaunchable(o: Oracle, w: World, names: seq<string>)
      ensures var r := Run(o, w, names);
        var ls := LaunchableNames(o, w.files, names);
        && |r.started| == |ls|
        && forall i :: 0 <= i < |ls| ==> r.started[i].path == ExecutablePath(ls[i])
      decreases |names|
    {
      if names != [] {
        RunStartsLaunchable(o, w, names[..|names| - 1]);
      }
    }

    /** Probed paths that match the names keep matching after one more name. */
    lemma ProbesExtend(ps: seq<Path>, names: seq<string>)
      requires |names| > 0 && |ps| == |names| - 1
      requires forall i :: 0 <= i < |ps| ==> ps[i] == ProbePath(names[i])
      ensures var qs := ps + [ProbePath(names[|names| - 1])];
        forall i :: 0 <= i < |names| ==> qs[i] == ProbePath(names[i])
    {
    }

    /** The calls one attempt appends: the first is its only probe, and a
        spawn is requested, as the last call, exactly when the executable is
        ready. */
    lemma AttemptCalls(o: Oracle, w: World, name: string)
      ensures var calls := Attempt(o, w, name).world.calls;
        |calls| > |w.calls| && calls[..|w.calls|] == w.calls
      ensures var t := Attempt(o, w, name).world.calls[|w.calls|..];
        && |t| > 0 && IsProbe(t[0]) && t[0].path == ProbePath(name)
        && (forall k :: 0 < k < |t| ==> !IsProbe(t[k]))
        && (Resolved(o, w.files, name) ==> t[|t| - 1].Start? && t[|t| - 1].path == ExecutablePath(name))
        && (!Resolved(o, w.files, name) ==> forall k :: 0 <= k < |t| ==> !t[k].Start?)
    {
      var t := Attempt(o, w, name).world.calls[|w.calls|..];
      var src, exe := PayloadPath(name), ExecutablePath(name);
      var spawned := if exe in o.startRefused then None else Some(w.nextPid);
      if useEmbedded {
        var read := ReadPayload(src, src in binaries);
        if src !in binaries {
          assert t == [read];
        } else {
          var write := WriteFile(exe, binaries[src], ExecPerm, exe !in o.writeRefused);
          if exe in o.writeRefused {
            assert t == [read, write];
          } else {
            assert t == [read, write, Start(exe, cacheDir, spawned)];
          }
        }
      } else {
        var stat := Stat(exe, exe in w.files);
        if exe !in w.files {
          assert t == [stat];
        } else {
          var chmod := Chmod(exe, ExecPerm, exe !in o.chmodRefused);
          assert t == [stat, chmod, Start(exe, cacheDir, spawned)];
        }
      }
    }

    /** One attempt probes its name exactly once. */
    lemma AttemptProbesOnce(o: Oracle, w: World, name: string)
      ensures var calls := Attempt(o, w, name).world.calls;
        && |calls| > |w.calls| && calls[..|w.calls|] == w.calls
        && ProbedPaths(calls[|w.calls|..]) == [ProbePath(name)]
    {
      AttemptCalls(o, w, name);
      ProbedPathsOfOneProbe(Attempt(o, w, name).world.calls[|w.calls|..]);
    }

    /** A run tries every name, in order: each one is probed exactly once,
        whatever happened to the names before it. */
    lemma {:induction false} RunProbesEveryName(o: Oracle, w: World, names: seq<string>)
      ensures var calls := Run(o, w, names).world.calls;
        && |calls| >= |w.calls| && calls[..|w.calls|] == w.calls
        && var ps := ProbedPaths(calls[|w.calls|..]);
           |ps| == |names| && forall i :: 0 <= i < |names| ==> ps[i] == ProbePath(names[i])
      decreases |names|
    {
      if names == [] {
        assert w.calls[|w.calls|..] == [];
      } else {
        var init, last := names[..|names| - 1], names[|names| - 1];
        RunProbesEveryName(o, w, init);
        var mid := Run(o, w, init).world;
        AttemptProbesOnce(o, mid, last);
        TraceExtends(w.calls, mid.calls, Run(o, w, names).world.calls, names);
      }
    }

    /** Two traces that each extend the previous one, the second adding the
        probe of the last name, together probe every name in order. */
    lemma TraceExtends(c0: seq<Call>, c1: seq<Call>, c2: seq<Call>, names: seq<string>)
      requires |names| > 0
      requires |c1| >= |c0| && c1[..|c0|] == c0
      requires |c2| >= |c1| && c2[..|c1|] == c1
      requires var ps := ProbedPaths(c1[|c0|..]);
        |ps| == |names| - 1 && forall i :: 0 <= i < |ps| ==> ps[i] == ProbePath(names[i])
      requires ProbedPaths(c2[|c1|..]) == [ProbePath(names[|names| - 1])]
      ensures |c2| >= |c0| && c2[..|c0|] == c0
      ensures var ps := ProbedPaths(c2[|c0|..]);
        |ps| == |names| && forall i :: 0 <= i < |names| ==> ps[i] == ProbePath(names[i])
    {
      var d1, d2 := c1[|c0|..], c2[|c1|..];
      PrefixChain(c0, c1, c2);
      ProbedPathsAppend(d1, d2);
      ProbesExtend(ProbedPaths(d1), names);
    }

    /** In embedded mode, after a run every executable that could be
        extracted is on disk holding exactly its payload bytes. */
    lemma {:induction false} RunExtractsPayload(o: Oracle, w: World, names: seq<string>, name: string)
      requires useEmbedded && name in names && Resolved(o, w.files, name)
      ensures var files := Run(o, w, names).world.files;
        ExecutablePath(name) in files && files[ExecutablePath(name)] == binaries[PayloadPath(name)]
      decreases |names|
    {
      var init := names[..|names| - 1];
      var last := names[|names| - 1];
      var prev := Run(o, w, init);
      if name in init {
        RunExtractsPayload(o, w, init, name);
        if Resolved(o, prev.world.files, last) && ExecutablePath(last) == ExecutablePath(name) {
          JoinInjective(cacheDir, last, name);
        }
      } else {
        assert name == last;
      }
    }

    /** One more name extends a run by one attempt. */
    lemma RunExtends(o: Oracle, w: World, names: seq<string>, i: nat)
      requires i < |names|
      ensures var prev := Run(o, w, names[..i]);
        var a := Attempt(o, prev.world, names[i]);
        Run(o, w, names[..i + 1]) ==
          RunResult(prev.successes + (if a.err.Nil? then 1 else 0), a.world,
                    prev.started + (if a.cmd.Some? then [a.cmd.value] else []))
    {
      assert names[..i + 1][..i] == names[..i];
    }

    /** A run succeeds somewhere exactly when some name is launchable, and
        it keeps as many commands as there are launchable names. */
    lemma RunSucceedsIffLaunchable(o: Oracle, w: World, names: seq<string>)
      ensures var r := Run(o, w, names);
        var ls := LaunchableNames(o, w.files, names);
        && |r.started| == |ls|
        && (r.successes == 0 <==> forall n :: n in names ==> !Launchable(o, w.files, n))
    {
      RunStartsLaunchable(o, w, names);
      LaunchableNamesMembers(o, w.files, names);
      var ls := LaunchableNames(o, w.files, names);
      if ls != [] {
        assert ls[0] in ls;
      }
    }

    /** `StartAll`: try every name in order, go on after failures, and fail
        only when nothing started. */
    method StartAll(host: Host) returns (err: MaybeError)
      requires Valid()
      modifies this, host
      ensures Valid()
      ensures var r := Run(host.oracle, old(host.world), execOrder);
        && host.world == r.world
        && processes == old(processes) + r.started
        && (err.Error? <==> r.successes == 0)
        && (err.Error? ==> err.msg == "failed to start any binaries")
      ensures var ls := LaunchableNames(host.oracle, old(host.world.files), execOrder);
        && |processes| == |old(processes)| + |ls| <= |old(processes)| + |execOrder|
        && (err.Error? <==> forall n :: n in execOrder ==> !Launchable(host.oracle, old(host.world.files), n))
    {
      ghost var o, w0, p0 := host.oracle, host.world, processes;
      var successCount := 0;
      ghost var r := Run(o, w0, []);
      for i := 0 to |execOrder|
        invariant Valid()
        invariant r == Run(o, w0, execOrder[..i])
        invariant successCount == r.successes && host.world == r.world && processes == p0 + r.started
      {
        RunExtends(o, w0, execOrder, i);
        r := Run(o, w0, execOrder[..i + 1]);
        var e := StartBinary(execOrder[i], host);
        if e.Nil? {
          successCount := successCount + 1;
        }
        // a failed name is only logged; the loop goes on with the next one
      }
      assert execOrder[..|execOrder|] == execOrder;
      assert r == Run(o, w0, execOrder);
      RunSucceedsIffLaunchable(o, w0, execOrder);
      if successCount == 0 {
        return Error("failed to start any binaries");
      }
      return Nil;
    }

    /** `GetProcessCount`: how many commands are kept, one per process that
        was started. */
    function GetProcessCount(): (n: nat)
      reads this
      ensures n == |processes|
    {
      |processes|
    }

    /** `Cleanup`: ask the OS to kill every started process, in list order,
        ignoring failures. The list itself is left as it is. */
    method Cleanup(host: Host)
      modifies host
      ensures host.world == old(host.world).(calls := old(host.world.calls) + KillCalls(host.oracle, processes))
    {
      for i := 0 to |processes|
        invariant host.world == old(host.world).(calls := old(host.world.calls) + KillCalls(host.oracle, processes[..i]))
      {
        assert processes[..i + 1][..i] == processes[..i];
        var cmd := processes[i];
        if cmd.process.Some? {
          var killed := host.Kill(cmd.process.value);
          // a failed kill is only logged
        }
      }
      assert processes[..|processes|] == processes;
    }
  }

  /** Shutting down twice is harmless: the list of commands stays as it is
      and the second shutdown repeats exactly the Kill requests of the first. */
  method CleanupTwice(bm: BinaryManager, host: Host)
    modifies host
    ensures bm.processes == old(bm.processes)
    ensures var ks := KillCalls(host.oracle, bm.processes);
      host.world == old(host.world).(calls := old(host.world.calls) + ks + ks)
  {
    bm.Cleanup(host);
    bm.Cleanup(host);
  }

  /** With a payload holding "a" but not "b" and a host that refuses no
      write and no start, only "a" can be launched. */
  lemma OnlyFirstLaunchable(bm: BinaryManager, o: Oracle)
    requires bm.useEmbedded && "bin/a" in bm.binaries && "bin/b" !in bm.binaries
    requires o.writeRefused == {} && o.startRefused == {}
    ensures bm.Resolved(o, map[], "a")
    ensures bm.LaunchableNames(o, map[], ["a", "b"]) == ["a"]
  {
    assert bm.PayloadPath("a") == "bin/a";
    assert bm.PayloadPath("b") == "bin/b";
    assert ["a", "b"][..1] == ["a"];
    assert ["a"][..0] == [];
  }

  /** Start-up in embedded mode with the startup order ["a", "b"], a payload
      that holds only "a" and a host that refuses nothing: start-up succeeds,
      one process is kept and "a" is extracted with its payload bytes. */
  method EmbeddedPartialStart() returns (err: MaybeError, count: nat, extracted: bool)
    ensures err == Nil && count == 1 && extracted
  {
    var o := Oracle(Some("/home/user/.cache"), Some("/work"), {}, {}, {}, {}, {});
    var host := new Host(o, map[]);
    var cfg := Some(Config.BinariesConfig(true, true, "", ["a", "b"]));
    var payload: Payload := map["bin/a" := [0x7f, 0x45, 0x4c, 0x46]];
    var r := BinaryManager.NewBinaryManagerFromConfig(cfg, payload, host);
    assert r.Ok?;
    var bm := r.value;
    OnlyFirstLaunchable(bm, o);
    ghost var w1 := host.world;
    err := bm.StartAll(host);
    count := bm.GetProcessCount();
    bm.RunExtractsPayload(o, w1, ["a", "b"], "a");
    var exe := bm.ExecutablePath("a");
    extracted := exe in host.world.files && host.world.files[exe] == payload["bin/a"];
  }
}

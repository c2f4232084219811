# wachat helper-binary supervisor, modelled in Dafny

wachat is a desktop chat client. Beside its GUI it runs a fixed set of helper
executables. The `BinaryManager` in `backend/service/binary_manager.go`
supervises them. At construction it checks the `binaries` settings and picks
a working directory. In embedded mode this is `<user cache>/wachat/bin`. In
local mode it is the configured directory, made absolute.

`StartAll` walks the startup order. For each name, `startBinary` gets the
executable ready. In embedded mode it extracts the executable from the payload
compiled into the program. In local mode it checks that the file exists and
chmods it. Then it spawns the executable, and each started command is appended
to `processes`. A failed name never stops the later ones. `StartAll` fails
only when nothing started. `GetProcessCount` reports how many commands are
kept. `Cleanup` sends a kill to each of them and leaves the list as it is.
The settings accessors of `backend/config/config.go` are safe on a nil
pointer and feed these checks. `findProjectRoot`, used by the settings loader,
looks for `go.mod` in at most two directories.

The files:

- `outcomes.dfy` (module `Outcomes`): `Option`, `Result` for Go's `(T, error)`
  and `MaybeError` for a bare `error`. An error is its `fmt.Errorf` text
  without the wrapped cause.
- `paths.dfy` (module `Paths`): Unix paths, `IsAbs` and `Join`.
- `os.dfy` (module `Os`): the host as a class `Host`. It has a fixed `Oracle`
  that says which requests the OS refuses, and a mutable `World` with the
  files, the next process id and the trace of every call made to the OS or to
  the embedded payload.
- `config.dfy` (module `Config`): the `BinariesConfig` record, its four
  accessors over `Option` (`None` is the nil pointer), and `FindProjectRoot`.
- `binary_manager.dfy` (module `Service`): class `BinaryManager`. Its constant
  fields mirror the Go fields. `processes` is the one field that changes.
  Its methods are proved against specification functions: `Attempt` is one
  launch and `Run` is a start-up run. Lemmas state what those functions
  guarantee.

## Model

| member | source | states |
|---|---|---|
| `Paths.Join` | backend/service/binary_manager.go:140 | joining onto an absolute directory gives an absolute path; the result starts with the directory and ends with the element; empty parts are dropped |
| `Paths.JoinInjective` | backend/service/binary_manager.go:147 | in one directory different names give different executable paths (without lexical cleaning, see `Paths.Join` under "## Left out") |
| `Os.Host.ReadPayload` | backend/service/binary_manager.go:134 | reading the payload succeeds exactly for present keys and returns their bytes; the read is traced |
| `Os.Host.MkdirAll` | backend/service/binary_manager.go:80 | creating the cache directory fails exactly when the host refuses it; traced with permission 0755 |
| `Os.Host.WriteFile` | backend/service/binary_manager.go:141 | on success the file holds exactly the written bytes; a refused write changes no file (see `Os.Host.WriteFile` under "## Left out") |
| `Os.Host.Stat` | backend/service/binary_manager.go:150 | stat succeeds exactly for existing files |
| `Os.Host.Chmod` | backend/service/binary_manager.go:155 | chmod fails exactly when the host refuses it and changes no file |
| `Os.Host.Start` | backend/service/binary_manager.go:168 | a started process gets the next process id; a refused start gets none and uses no id |
| `Os.Host.Kill` | backend/service/binary_manager.go:199 | a kill fails exactly when the host refuses it and changes nothing else |
| `Config.IsEnabled` | backend/config/config.go:35-37 | false on a nil pointer, otherwise the stored flag |
| `Config.IsUseEmbedded` | backend/config/config.go:40-42 | false on a nil pointer, otherwise the stored flag |
| `Config.GetBinPath` | backend/config/config.go:45-50 | `""` on a nil pointer, otherwise the stored directory |
| `Config.GetStartupOrder` | backend/config/config.go:53-58 | empty on a nil pointer, otherwise the stored list |
| `Config.NilReadsAsZero` | backend/config/config.go:34-58 | through the accessors a nil pointer reads exactly like the zero-valued record |
| `Config.SearchPath` | backend/config/config.go:64-74 | at most two directories are inspected: first the start directory, then each next one the parent of the previous, and the search stops early only at a directory that is its own parent |
| `Config.FindProjectRoot` | backend/config/config.go:63-76 | returns the first inspected directory holding `go.mod`, after checking that no earlier one holds it; returns the "go.mod not found" error exactly when no inspected directory holds it |
| `Service.ResolveSettings` | backend/service/binary_manager.go:33-48 | a nil or disabled config is rejected as disabled; an empty startup order is rejected; otherwise the order is kept verbatim, the mode is the configured one, and the directory is the configured one, or `./bin` when that is empty |
| `Service.NilConfigIsDisabled` | backend/service/binary_manager.go:34-35 | a nil settings pointer yields the "binary manager is disabled" error |
| `Service.EmbeddedCacheDir` | backend/service/binary_manager.go:79 | the extraction directory is non-empty and absolute when the user cache directory is |
| `Service.ResolveDirs` | backend/service/binary_manager.go:71-95 | embedded: "failed to get cache directory" when the user cache directory is unknown, "failed to create app cache directory" when it cannot be created, otherwise `<cache>/wachat/bin`; local: an absolute directory is kept verbatim, a relative one gives "failed to resolve bin path" when the working directory is unknown and otherwise `<cwd>/<binPath>`, and the result is absolute when the working directory is |
| `Service.BinaryManager.constructor` | backend/service/binary_manager.go:97-104 | a new manager keeps its settings verbatim and has no processes |
| `Service.BinaryManager.NewBinaryManager` | backend/service/binary_manager.go:68-105 | fails exactly when the directories cannot be resolved; otherwise a fresh manager with the resolved directories, the order verbatim and zero processes; the only host effect is the cache-directory creation in embedded mode |
| `Service.BinaryManager.NewBinaryManagerFromConfig` | backend/service/binary_manager.go:33-63 | a rejected config returns its error and leaves the host untouched; otherwise it fails with the directory error exactly when the checked settings' directories cannot be resolved, else returns a fresh manager with those directories, the order verbatim and no processes; the only host effect is the cache-directory creation in embedded mode |
| `Service.BinaryManager.Attempt` | backend/service/binary_manager.go:131-175 | a launch succeeds exactly when the executable is ready and the OS starts it; a command is kept exactly on success, for `cacheDir/name`, working in `cacheDir`, with the next process id; the trace only grows; files change only by a successful extraction, which writes the payload bytes of `bin/<name>` verbatim |
| `Service.BinaryManager.AttemptCalls` | backend/service/binary_manager.go:131-170 | the calls of one attempt open with its only probe, of `bin/<name>` or `cacheDir/name`; a spawn of `cacheDir/name` is the last call when the executable is ready, and no spawn is requested otherwise |
| `Service.BinaryManager.AttemptProbesOnce` | backend/service/binary_manager.go:131-152 | one attempt probes exactly one path, the one for its own name |
| `Service.BinaryManager.ChmodFailureNotFatal` | backend/service/binary_manager.go:155-157 | whether chmod succeeds never changes a launch's error or kept command |
| `Service.BinaryManager.StartBinary` | backend/service/binary_manager.go:128-187 | does what `Attempt` says: same error and host state, and `processes` grows by exactly the kept command or not at all |
| `Service.BinaryManager.Run` | backend/service/binary_manager.go:109-117 | the success count equals the number of kept commands and never exceeds the number of names; every kept command was started in `cacheDir`; local mode changes no file |
| `Service.BinaryManager.LaunchableNames` | backend/service/binary_manager.go:110-117 | the names whose launch succeeds, selected from the startup order; never more of them than there are names |
| `Service.BinaryManager.LaunchableNamesMembers` | backend/service/binary_manager.go:110-117 | a name is selected exactly when it is in the startup order and launchable, so every launchable name is selected |
| `Service.BinaryManager.LaunchableNamesOfOne` | backend/service/binary_manager.go:110-117 | a single name is selected exactly when it is launchable |
| `Service.BinaryManager.LaunchableNamesAppend` | backend/service/binary_manager.go:110-117 | the selection of a concatenation of name lists is the concatenation of their selections, so the selected names keep startup order and duplicates |
| `Service.BinaryManager.RunStartsLaunchable` | backend/service/binary_manager.go:110-117 | a run keeps one command per launchable name, in startup order, for that name's executable path |
| `Service.BinaryManager.RunProbesEveryName` | backend/service/binary_manager.go:110-115 | a run only appends to the trace, and probes every name exactly once, in startup order, whatever happened to earlier names |
| `Service.BinaryManager.RunExtractsPayload` | backend/service/binary_manager.go:133-143 | in embedded mode, after a run every name that could be extracted is on disk at `cacheDir/name` holding exactly its payload bytes |
| `Service.BinaryManager.RunSucceedsIffLaunchable` | backend/service/binary_manager.go:109-121 | a run has zero successes exactly when no name is launchable, and keeps as many commands as there are launchable names |
| `Service.BinaryManager.StartAll` | backend/service/binary_manager.go:108-125 | the host and `processes` end as the run over `execOrder` says; the error "failed to start any binaries" is returned exactly when no name is launchable; `processes` grows by the number of launchable names, at most `len(execOrder)` |
| `Service.BinaryManager.GetProcessCount` | backend/service/binary_manager.go:190-192 | the count is the number of kept commands |
| `Service.KillCalls` | backend/service/binary_manager.go:196-203 | shutdown makes at most one request per command, and every request is a kill |
| `Service.KillsEveryProcess` | backend/service/binary_manager.go:196-203 | when every command holds a process, exactly one kill goes to each, in list order, whatever the earlier kills returned |
| `Service.BinaryManager.Cleanup` | backend/service/binary_manager.go:195-204 | the only effect is the kill requests for the commands, in order; `processes` and the files are unchanged |
| `Service.CleanupTwice` | backend/service/binary_manager.go:195-204 | a second shutdown leaves the commands in place and sends kills to the same process ids again; their results come from the fixed host oracle, so they repeat the first shutdown's |
| `Service.OnlyFirstLaunchable` | backend/service/binary_manager.go:131-143 | with a payload holding `bin/a` but not `bin/b`, and no refused write or start, only `a` of `["a", "b"]` is launchable |
| `Service.EmbeddedPartialStart` | backend/service/binary_manager.go:108-125 | embedded mode with order `["a", "b"]` and a payload holding only `a`: start-up succeeds, one process is kept, and `a` is extracted with its payload bytes |

## Left out

- Logging (`log.Printf`, `log.Println`) is left out. It never feeds back into state.
- The `process.Wait` goroutine (binary_manager.go:178-184) is left out. It only logs the exit and never changes the manager.
- The cancellation context given to `exec.CommandContext` is left out.
- The stdout and stderr wiring of the child is left out.
- Locking is not modelled. The code has no lock, and the model has one thread.
- OS calls are modelled as answers from a fixed `Oracle`. These are `os.UserCacheDir`, `os.MkdirAll`, `os.WriteFile`, `os.Chmod`, `exec.Cmd.Start` and `os.Process.Kill`, plus the `os.Getwd` inside `filepath.Abs`. `os.Stat` is not one of them: it succeeds exactly for the paths in the current file map, which embedded writes extend. `fs.ReadFile` on the payload succeeds exactly for the payload's keys.
- `Os.Host.Start`: whether a start succeeds depends only on the oracle. It does not depend on whether the file exists or is executable.
- `Service.CleanupTwice`: refused kills come from a fixed set of process ids. So a second kill that Go would see fail with `os.ErrProcessDone`, after the process has been reaped, is not modelled.
- `Os.Host.WriteFile`: a refused write is modelled as touching no file. Go's `os.WriteFile` truncates the file when it opens it, so a write or close that fails afterwards (a full disk, say) can leave a truncated or partly written file at `cacheDir/name`. A write can also be refused because of what the manager did earlier, which a fixed oracle cannot express. On Linux, opening an executable that is running for writing fails with "text file busy". So in embedded mode a repeated name in the startup order, or a second `StartAll`, can fail at binary_manager.go:141-142 in the program. The model extracts and starts it again. For repeated names, and for repeated `StartAll` calls, the model can therefore count more launches than the program does.
- File permission bits are not part of the file state. The 0755 mode is only recorded in the traced `MkdirAll`, `WriteFile` and `Chmod` calls. So the model does not capture that `os.WriteFile` keeps the mode of a file that already exists.
- `Paths.Join`: lexical cleaning (`filepath.Clean` of `.`, `..` and doubled separators) is not modelled. So `./bin` made absolute reads `<cwd>/./bin`, and `Paths.JoinInjective` holds where Go's `filepath.Join` would map `a` and `./a` to one path.
- Only Unix paths are modelled. Windows paths are left out.
- `Config.FindProjectRoot`: `filepath.Dir` and `os.Stat` are parameters (`parentOf`, `present`). They are not modelled concretely. Like `os.Stat`, `present` may also hold for a directory named `go.mod`.
- Error messages keep the `fmt.Errorf` text without the wrapped cause.
- In Go, a nil `BinariesConfig` interface and a typed nil pointer both give the "disabled" error. Both are modelled as `None`.
- `config.Load`, its viper search paths and defaults, and `Get`/`GetAIConfig` with the global config are left out. `app.go` and `main.go` are left out too. They are library glue and GUI wiring.
- Names are not de-duplicated, and nothing stops `StartAll` from being called twice. So `len(processes) <= len(execOrder)` is not an invariant of the manager. It holds after one `StartAll` on a fresh manager. `StartAll` proves the bound per call, on top of the processes the manager already had.

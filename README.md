# singularity-pmix-plugin: the PMIx hand-off between the CLI and the starter

The Singularity PMIx plugin is loaded twice: once in the `singularity` CLI process,
which parses `--pmix` and launches the container, and once in the starter process,
which runs it. The two share no memory. The CLI's `PreRun` hook for `run` and `exec`
records "PMIx was enabled" as a marker file in `/tmp/sypmix`, named by the decimal
pid, and calls `init_pmix`. The starter's post-start hook looks for the marker of its
own pid and calls `fini_pmix` when it is there.

This project models that hand-off in Dafny:

- `Decimal`: `strconv.Itoa`, with a parser that reads it back, so that distinct pids
  are shown to have distinct marker names.
- `FilePath`: `filepath.Join` for a clean directory and one element, with the split at
  the last separator that undoes it.
- `MarkerStore`: class `Store`, the host filesystem reduced to whether `/tmp/sypmix`
  exists and the names of the files in it, with `getBasedir`, `createTempFile`,
  `checkTempFile` and `deleteTempFile` as methods. Which filesystem calls fail
  (`os.MkdirAll`, `ioutil.WriteFile`, `os.RemoveAll`) is a `Faults` input.
- `Plugin`: class `Process`, one load of the plugin. It holds its pid (`os.Getpid()`),
  the shared `Store`, the global `enablePMIx`, counters of calls to the C stubs, and a
  ghost trace of the calls that leave the plugin (init, the host's `PreRun`, fini) in order.
  Class `Command` is a cobra command. Its `PreRun` field holds a `PreRun` value: unset,
  the host's own callback, or the PMIx closure around the value it replaced.
  `callbackRun` and `callbackExec` overwrite that field in place.
- `Scenarios`: whole runs on a fresh filesystem, each with what it is guaranteed to
  observe: a CLI process runs the `PreRun` chain, then a starter process runs the
  post-start hook.

The model keeps these behaviours of the code as written:

- The marker is never removed. `deleteTempFile` has no caller, and
  `callbackPMIxFinalize` leaves the marker in place (`Scenarios.FlagSet`).
- When the marker cannot be created, the closure returns before the host's own
  `PreRun`. This path does not fail open (`Scenarios.BaseDirFails`).
- A stale marker for the same pid makes `createTempFile` fail. Then neither
  `init_pmix` nor the host's `PreRun` runs, but the starter still calls `fini_pmix`
  (`Scenarios.StaleMarker`).
- `callbackPMIxFinalize` ignores its `pid` argument and looks up the marker of
  `os.Getpid()` (`Scenarios.PidMismatch`).

## Model

| member | source | states |
|---|---|---|
| `Decimal.NatDigits` | main.go:97 | the decimal form of a natural number is a non-empty string of digits with no leading zero; 0 is written "0" |
| `Decimal.Itoa` | main.go:97 | `strconv.Itoa` gives a non-empty string; it starts with '-' exactly when the number is negative, and every other character is a digit |
| `Decimal.ParseNatDigits` | main.go:97 | reading the digits of n back gives n |
| `Decimal.ParseIntItoa` | main.go:97 | `ParseInt` undoes `Itoa` for every integer, negative ones included |
| `Decimal.ItoaInjective` | main.go:97 | two pids have the same decimal name if and only if they are equal |
| `FilePath.Join` | main.go:102 | `filepath.Join(dir, elem)` for a clean directory and one element names the file `elem` directly inside `dir`. Splitting the result at its last separator gives back `dir` and `elem` |
| `MarkerStore.BaseDir` | main.go:85 | the base directory is `/tmp/sypmix` |
| `MarkerStore.MarkerName` | main.go:97 | `strconv.Itoa(os.Getpid())` is one path element (non-empty, no separator, not "." or "..") and reads back as the pid |
| `MarkerStore.MarkerPath` | main.go:102 | the marker of a pid is the file named by its decimal pid, directly inside `/tmp/sypmix` |
| `MarkerStore.MarkerPathInjective` | main.go:102 | distinct pids have distinct marker paths, and equal pids equal ones |
| `MarkerStore.Store.FileExists` | main.go:103 | `util.FileExists` on the marker path of a pid is true exactly when the base directory exists and holds that pid's marker |
| `MarkerStore.Store.GetBasedir` | main.go:84-94 | returns `/tmp/sypmix` whenever the directory exists afterwards. It creates the directory only when absent, and changes nothing when it already exists. It fails, with `MkdirFailed`, exactly when the directory is absent and `MkdirAll` fails. No marker changes |
| `MarkerStore.Store.CreateTempFile` | main.go:96-112 | fails with `NoBaseDir` when the base directory cannot be had, with `AlreadyExists` when the pid's marker is there (markers unchanged), and with `WriteFailed` when the write fails. Otherwise it returns nil and adds exactly the pid's marker; no other pid's marker changes |
| `MarkerStore.Store.CheckTempFile` | main.go:114-125 | true exactly when the pid's marker is there, so false when the base directory cannot be had. It never adds or removes a marker and at most creates the base directory |
| `MarkerStore.Store.DeleteTempFile` | main.go:127-142 | fails with `NoBaseDir` when the base directory cannot be had. Nil with no change when the marker is absent. When it is present: `RemoveFailed` if the removal fails, otherwise nil and the marker is gone. No other pid's marker changes |
| `Plugin.Process.InitPmix` | main.go:11-23 | `init_pmix` adds one call (to the counter and to the end of the call trace) and returns 0, whatever PMIx_Init reports |
| `Plugin.Process.FiniPmix` | main.go:25-31 | `fini_pmix` adds one call (to the counter and to the end of the call trace) and returns 0 |
| `Plugin.Process.WrapPreRun` | main.go:159-160 | the command's `PreRun` becomes the PMIx closure around the value it held before; nothing happens when the command is missing |
| `Plugin.Process.CallbackRun` | main.go:144-174 | installs the closure on the `run` command, if it was found |
| `Plugin.Process.CallbackExec` | main.go:176-206 | installs the closure on the `exec` command, if it was found |
| `Plugin.Process.CallPreRun` | main.go:160-172 | with the flag unset: no marker, no init, and the wrapped `PreRun` runs (the host's own one exactly once, if set). With the flag set and `createTempFile` succeeding: exactly this pid's marker is added, init is called once, then the wrapped `PreRun` runs; the trace records init before the host's `PreRun`. With the flag set and `createTempFile` failing: no marker, no init, and the wrapped `PreRun` does not run. The `exec` closure, main.go:192-204, is the same code |
| `Plugin.Process.CallbackPMIxFinalize` | main.go:208-221 | with a non-Singularity engine config: `UnexpectedEngineConfig` and no fini call, whatever markers exist. Otherwise nil, and exactly one fini call, appended to the trace, if and only if the marker of this process's own pid exists. The marker set never changes |
| `Scenarios.CreateThenCheck` | main.go:96-125 | a successful `createTempFile` is followed by a `checkTempFile` that returns true; it succeeds exactly when the base directory can be had, the marker is absent and the write works |
| `Scenarios.CreateTwice` | main.go:102-105 | a second `createTempFile` for the same pid with the same faults always fails, and fails with `AlreadyExists` after a successful first one |
| `Scenarios.DeleteAbsent` | main.go:133-141 | `deleteTempFile` on an absent marker returns nil and leaves the files as they were |
| `Scenarios.DeleteThenCheck` | main.go:114-142 | after a successful `deleteTempFile`, `checkTempFile` returns false; the delete fails only when the base directory cannot be had, or when the marker is present and the removal fails |
| `Scenarios.Run` | main.go:159-221 | a whole run: init is called once and the marker added exactly when the flag is set and the marker can be created. The host's `PreRun` runs when the flag is unset or the marker was created. The starter calls fini once exactly when its own pid's marker is there. The CLI's trace is init (if any) followed by the host's `PreRun` (if run) |
| `Scenarios.FlagUnset` | main.go:160-172 | flag unset: only the host's `PreRun` runs; no marker, no init, no fini |
| `Scenarios.FlagSet` | main.go:160-221 | flag set, nothing fails: one init, the host's `PreRun` once, one fini, and the marker is left behind. The CLI calls init before the host's `PreRun` |
| `Scenarios.BaseDirFails` | main.go:162-166 | flag set, `/tmp/sypmix` cannot be created: no init, no fini, and the host's `PreRun` does not run |
| `Scenarios.StaleMarker` | main.go:102-105 | flag set with a marker left for the same pid: no init and no host `PreRun`, yet one fini call; the files are unchanged |
| `Scenarios.PidMismatch` | main.go:208-216 | when the starter's pid differs from the CLI's, the marker written by the CLI is not found: init once, fini never |
| `Scenarios.WrongEngine` | main.go:209-213 | a wrong engine config gives `UnexpectedEngineConfig`, no fini call and unchanged files |
| `Scenarios.WrappedTwice` | main.go:159-172 | with the closure installed twice and the flag set, the inner closure meets `AlreadyExists`: init runs once and the host's `PreRun` never runs |

## Left out

- The cgo PMIx code (`PMIx_Init`, `PMIx_Finalize`, main.go:8-31) is a foreign native library. `init_pmix` and `fini_pmix` are modelled only as counted calls; their returned 0 is modelled and ignored, as in the source.
- The plugin manifest and callback registration (main.go:68-82) and the no-op `installCallback` (main.go:52-58) are plugin-framework plumbing.
- `manager.GetCmd` is a lookup in the host's command table: its result, a command or nil, is the argument of `CallbackRun` and `CallbackExec`.
- `RegisterFlagForCmd` binds `--pmix` to `enablePMIx`, but cobra's flag parsing is not part of this model. A run sets `Process.enablePMIx` directly.
- The cobra arguments `c` and `args` passed to `PreRun` are left out. They are only forwarded.
- Real filesystem details are abstracted to the set of file names: permissions 0755 and 0644, the file contents `"1"`, and the recursive behaviour of `RemoveAll`. `util.PathExists` and `util.FileExists` become membership tests, so a non-directory at `/tmp/sypmix` is not modelled.
- `FilePath.Join` is modelled only for a clean directory and one plain element, the only arguments the code gives it. Its general lexical cleaning (`filepath.Clean`) is not part of this model.
- The text of error messages is not modelled. Each error is a constructor carrying the path its message names, and `%w` wrapping becomes `NoBaseDir(cause)`.
- `os.Getpid()` is the constant `Process.ownPid` of each process. Process spawning and pid reuse are not modelled.
- Integers are unbounded. Go's `int` width does not matter: `strconv.Itoa` is exact over the whole range, and the model's `Itoa` is exact for every integer.
- Logging (`fmt.Printf`, `log.Printf`, `fprintf`) is output only.
- Concurrency between the CLI process and the starter process is not modelled. The shared filesystem is one sequential state, and a scenario runs the CLI hook before the starter hook.

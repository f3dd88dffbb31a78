/**
  Whole runs: a CLI process and a starter process sharing one filesystem, driven
  through the hooks, with what each run is guaranteed to observe.
 */
module Scenarios {
  import opened Errors
  import opened MarkerStore
  import opened Plugin

  const NoFaults := Faults(false, false, false)

  /** A marker written for pid is found by the next check. */
  method CreateThenCheck(pid: int, dirExists: bool, others: set<string>, faults: Faults)
    returns (err: Status, present: bool)
    requires others != {} ==> dirExists
    ensures err == Nil ==> present
    ensures err == Nil <==> (dirExists || !faults.mkdir) && MarkerName(pid) !in others && !faults.write
  {
    var fs := new Store(dirExists, others);
    err := fs.CreateTempFile(pid, faults);
    present := fs.CheckTempFile(pid, faults);
  }

  /** A second createTempFile for the same pid with the same faults always fails, and fails with AlreadyExists after a successful first one. */
  method CreateTwice(pid: int, dirExists: bool, others: set<string>, faults: Faults)
    returns (first: Status, second: Status)
    requires others != {} ==> dirExists
    ensures first == Nil ==> second == Fail(AlreadyExists(MarkerPath(pid)))
    ensures second.Fail?
  {
    var fs := new Store(dirExists, others);
    first := fs.CreateTempFile(pid, faults);
    second := fs.CreateTempFile(pid, faults);
  }

  /** deleteTempFile of an absent marker succeeds and changes no file. */
  method DeleteAbsent(pid: int, others: set<string>) returns (err: Status, untouched: bool)
    requires MarkerName(pid) !in others
    ensures err == Nil && untouched
  {
    var fs := new Store(true, others);
    err := fs.DeleteTempFile(pid, NoFaults);
    untouched := fs.markers == others;
  }

  /** After a successful deleteTempFile the check finds no marker. */
  method DeleteThenCheck(pid: int, dirExists: bool, markers: set<string>, faults: Faults)
    returns (err: Status, present: bool)
    requires markers != {} ==> dirExists
    ensures err == Nil ==> !present
    ensures err == Nil <==> (dirExists || !faults.mkdir) && (MarkerName(pid) in markers ==> !faults.remove)
  {
    var fs := new Store(dirExists, markers);
    err := fs.DeleteTempFile(pid, faults);
    present := fs.CheckTempFile(pid, faults);
  }

  /**
    Runs "run" in a CLI process with pid cliPid and --pmix set to flag, then the
    post-start hook in a starter process with pid starterPid, on a filesystem
    whose base directory holds the markers initial. hostPreRun says whether the
    host gave "run" a PreRun of its own.
   */
  method Run(cliPid: int, starterPid: int, flag: bool, hostPreRun: bool,
             dirExists: bool, initial: set<string>, cliFaults: Faults, starterFaults: Faults)
    returns (inits: nat, hostRuns: nat, finis: nat, markers: set<string>, ghost cliEvents: seq<Event>)
    requires initial != {} ==> dirExists
    ensures var created := flag && (dirExists || !cliFaults.mkdir) && MarkerName(cliPid) !in initial && !cliFaults.write;
      && inits == (if created then 1 else 0)
      && hostRuns == (if hostPreRun && (!flag || created) then 1 else 0)
      && markers == (if created then initial + {MarkerName(cliPid)} else initial)
      && finis == (if MarkerName(starterPid) in markers then 1 else 0)
      && cliEvents == (if created then [InitCall] else []) + (if hostRuns == 1 then [HostPreRunCall] else [])
  {
    var fs := new Store(dirExists, initial);
    var cli := new Process(cliPid, fs);
    cli.enablePMIx := flag;
    var run := new Command(if hostPreRun then HostPreRun else NoPreRun);
    cli.CallbackRun(run);
    cli.CallPreRun(run.preRun, run, cliFaults);
    var starter := new Process(starterPid, fs);
    var err := starter.CallbackPMIxFinalize(true, starterPid, starterFaults);
    inits, hostRuns, finis, markers := cli.initCalls, run.hostRuns, starter.finiCalls, fs.markers;
    cliEvents := cli.events;
  }

  /** Flag unset: only the host's PreRun runs; no marker, no init, no fini. */
  method FlagUnset(pid: int) returns (inits: nat, hostRuns: nat, finis: nat, markerLeft: bool)
    ensures inits == 0 && hostRuns == 1 && finis == 0 && !markerLeft
  {
    var markers;
    ghost var trace: seq<Event>;
    inits, hostRuns, finis, markers, trace := Run(pid, pid, false, true, false, {}, NoFaults, NoFaults);
    markerLeft := MarkerName(pid) in markers;
  }

  /** Flag set, nothing fails: init then the host's PreRun, fini in the starter, and the marker stays behind. */
  method FlagSet(pid: int) returns (inits: nat, hostRuns: nat, finis: nat, markerLeft: bool, ghost cliEvents: seq<Event>)
    ensures inits == 1 && hostRuns == 1 && finis == 1 && markerLeft
    ensures cliEvents == [InitCall, HostPreRunCall]
  {
    var markers;
    inits, hostRuns, finis, markers, cliEvents := Run(pid, pid, true, true, false, {}, NoFaults, NoFaults);
    markerLeft := MarkerName(pid) in markers;
  }

  /** Flag set, /tmp/sypmix cannot be created: no init, and the host's PreRun does not run either. */
  method BaseDirFails(pid: int, starterFaults: Faults) returns (inits: nat, hostRuns: nat, finis: nat)
    ensures inits == 0 && hostRuns == 0 && finis == 0
  {
    var markers;
    ghost var trace: seq<Event>;
    inits, hostRuns, finis, markers, trace := Run(pid, pid, true, true, false, {}, Faults(true, false, false), starterFaults);
  }

  /**
    Flag set, a marker left by an earlier run with the same pid: createTempFile fails,
    so neither init nor the host's PreRun runs, yet the starter calls fini.
   */
  method StaleMarker(pid: int, others: set<string>) returns (inits: nat, hostRuns: nat, finis: nat, markers: set<string>)
    ensures inits == 0 && hostRuns == 0 && finis == 1
    ensures markers == others + {MarkerName(pid)}
  {
    ghost var trace: seq<Event>;
    inits, hostRuns, finis, markers, trace := Run(pid, pid, true, true, true, others + {MarkerName(pid)}, NoFaults, NoFaults);
  }

  /** Flag set, but the starter's pid differs from the CLI's: the marker is not found and fini is not called. */
  method PidMismatch(cliPid: int, starterPid: int) returns (inits: nat, finis: nat, markerLeft: bool)
    requires cliPid != starterPid
    ensures inits == 1 && finis == 0 && markerLeft
  {
    var hostRuns, markers;
    ghost var trace: seq<Event>;
    inits, hostRuns, finis, markers, trace := Run(cliPid, starterPid, true, true, false, {}, NoFaults, NoFaults);
    Decimal.ItoaInjective(cliPid, starterPid);
    markerLeft := MarkerName(cliPid) in markers;
  }

  /** A wrong engine config: the post-start hook fails and calls no fini, whatever markers there are. */
  method WrongEngine(pid: int, markers: set<string>, faults: Faults) returns (err: Status, finis: nat, after: set<string>)
    ensures err == Fail(UnexpectedEngineConfig) && finis == 0 && after == markers
  {
    var fs := new Store(true, markers);
    var starter := new Process(pid, fs);
    err := starter.CallbackPMIxFinalize(false, pid, faults);
    finis, after := starter.finiCalls, fs.markers;
  }

  /**
    The closure installed twice on one command (callbackRun called twice): with the
    flag set, the inner closure finds the marker the outer one wrote and returns, so
    init runs once and the host's PreRun never runs.
   */
  method WrappedTwice(pid: int) returns (inits: nat, hostRuns: nat)
    ensures inits == 1 && hostRuns == 0
  {
    var fs := new Store(false, {});
    var cli := new Process(pid, fs);
    cli.enablePMIx := true;
    var run := new Command(HostPreRun);
    cli.CallbackRun(run);
    cli.CallbackRun(run);
    cli.CallPreRun(run.preRun, run, NoFaults);
    inits, hostRuns := cli.initCalls, run.hostRuns;
  }
}

/**
  The hooks of main.go. The plugin is loaded once in the CLI process and once in the
  starter process; each load is a Process with its own copy of the globals (the
  --pmix flag) and its own calls into the C stubs, and both share one Store, the
  host filesystem. The only state carried from one process to the other is the
  marker.
 */
module Plugin {
  import opened Errors
  import opened MarkerStore

  /**
    The value of a cobra command's PreRun field: unset, the host's own callback,
    or the closure installed by callbackRun/callbackExec around the value it found.
   */
  datatype PreRun = NoPreRun | HostPreRun | PmixPreRun(prev: PreRun)

  /** The calls out of the plugin whose order matters: init_pmix, the host's own PreRun, fini_pmix. */
  datatype Event = InitCall | HostPreRunCall | FiniCall

  /** Whether running the chain h reaches the host's own PreRun, given whether its first marker was created. */
  predicate ReachesHost(h: PreRun, enabled: bool, created: bool) {
    match h
    case NoPreRun => false
    case HostPreRun => true
    case PmixPreRun(prev) =>
      if enabled then created && prev == HostPreRun else ReachesHost(prev, false, false)
  }

  /** A launch command ("run" or "exec") of the host CLI. */
  class Command {
    var preRun: PreRun
    /** How often the host's own PreRun callback has run. */
    var hostRuns: nat

    constructor (preRun: PreRun)
      ensures this.preRun == preRun && hostRuns == 0
    {
      this.preRun := preRun;
      hostRuns := 0;
    }
  }

  /** One load of the plugin, in the CLI process or in the starter process. */
  class Process {
    /** os.Getpid() of this process. */
    const ownPid: int
    /** The host filesystem, shared by all processes. */
    const store: Store
    /** The global enablePMIx, the value of --pmix. */
    var enablePMIx: bool
    /** Calls to the C stubs init_pmix and fini_pmix. */
    var initCalls: nat
    var finiCalls: nat
    /** The calls of this process in the order they were made. */
    ghost var events: seq<Event>

    constructor (ownPid: int, store: Store)
      ensures this.ownPid == ownPid && this.store == store
      ensures !enablePMIx && initCalls == 0 && finiCalls == 0 && events == []
    {
      this.ownPid := ownPid;
      this.store := store;
      enablePMIx := false;
      initCalls := 0;
      finiCalls := 0;
      events := [];
    }

    /** init_pmix: calls PMIx_Init, whose status it only logs, and returns 0. */
    method InitPmix() returns (rc: int)
      modifies this`initCalls, this`events
      ensures initCalls == old(initCalls) + 1
      ensures events == old(events) + [InitCall]
      ensures rc == 0
    {
      initCalls := initCalls + 1;
      events := events + [InitCall];
      return 0;
    }

    /** fini_pmix: calls PMIx_Finalize and returns 0. */
    method FiniPmix() returns (rc: int)
      modifies this`finiCalls, this`events
      ensures finiCalls == old(finiCalls) + 1
      ensures events == old(events) + [FiniCall]
      ensures rc == 0
    {
      finiCalls := finiCalls + 1;
      events := events + [FiniCall];
      return 0;
    }

    /** Replaces cmd's PreRun by the PMIx closure around the PreRun it had; nothing when the command is missing. */
    static method WrapPreRun(cmd: Command?)
      modifies cmd
      ensures cmd != null ==> cmd.preRun == PmixPreRun(old(cmd.preRun)) && cmd.hostRuns == old(cmd.hostRuns)
    {
      if cmd == null {
        return;
      }
      var prerun := cmd.preRun;
      cmd.preRun := PmixPreRun(prerun);
    }

    /** callbackRun, given what manager.GetCmd("run") returned. */
    method CallbackRun(runCmd: Command?)
      modifies runCmd
      ensures runCmd != null ==> runCmd.preRun == PmixPreRun(old(runCmd.preRun)) && runCmd.hostRuns == old(runCmd.hostRuns)
    {
      WrapPreRun(runCmd);
    }

    /** callbackExec, given what manager.GetCmd("exec") returned. */
    method CallbackExec(execCmd: Command?)
      modifies execCmd
      ensures execCmd != null ==> execCmd.preRun == PmixPreRun(old(execCmd.preRun)) && execCmd.hostRuns == old(execCmd.hostRuns)
    {
      WrapPreRun(execCmd);
    }

    /**
      Calls the PreRun value h of cmd. The PMIx closure, when --pmix is set, creates
      the marker of this process and calls init_pmix, and returns at once when the
      marker cannot be created; then it calls the PreRun it wrapped.
     */
    method CallPreRun(h: PreRun, cmd: Command, faults: Faults)
      requires store.Valid()
      modifies this`initCalls, this`events, store, cmd`hostRuns
      ensures store.Valid()
      ensures store.dirExists == (old(store.dirExists) || (enablePMIx && h.PmixPreRun? && !faults.mkdir))
      ensures var created := enablePMIx && h.PmixPreRun? && (old(store.dirExists) || !faults.mkdir)
                             && !old(store.HasMarker(ownPid)) && !faults.write;
        && store.markers == (if created then old(store.markers) + {MarkerName(ownPid)} else old(store.markers))
        && initCalls == old(initCalls) + (if created then 1 else 0)
        && cmd.hostRuns == old(cmd.hostRuns) + (if ReachesHost(h, enablePMIx, created) then 1 else 0)
        && events == old(events) + (if created then [InitCall] else [])
                                 + (if ReachesHost(h, enablePMIx, created) then [HostPreRunCall] else [])
      decreases h
    {
      match h
      case NoPreRun =>
      case HostPreRun =>
        cmd.hostRuns := cmd.hostRuns + 1;
        events := events + [HostPreRunCall];
      case PmixPreRun(prerun) =>
        if enablePMIx {
          var err := store.CreateTempFile(ownPid, faults);
          if err.Fail? {
            return;
          }
          var _ := InitPmix();
        }
        CallPreRun(prerun, cmd, faults);
    }

    /**
      callbackPMIxFinalize: after the container process starts, calls fini_pmix when
      this process's marker is there. The pid argument is not used; the marker
      looked up is that of os.Getpid(). The marker is left in place.
     */
    method CallbackPMIxFinalize(isSingularityEngine: bool, pid: int, faults: Faults) returns (err: Status)
      requires store.Valid()
      modifies this`finiCalls, this`events, store`dirExists
      ensures store.Valid()
      ensures err == if isSingularityEngine then Nil else Fail(UnexpectedEngineConfig)
      ensures store.markers == old(store.markers)
      ensures store.dirExists == (old(store.dirExists) || (isSingularityEngine && !faults.mkdir))
      ensures finiCalls == old(finiCalls) + (if isSingularityEngine && old(store.HasMarker(ownPid)) then 1 else 0)
      ensures events == old(events) + (if isSingularityEngine && old(store.HasMarker(ownPid)) then [FiniCall] else [])
    {
      if !isSingularityEngine {
        return Fail(UnexpectedEngineConfig);
      }
      var pmixEnabled := store.CheckTempFile(ownPid, faults);
      if pmixEnabled {
        var _ := FiniPmix();
      }
      return Nil;
    }
  }
}

/**
 * The init process. At boot it parses the kernel command line with the boot
 * handler table, identifies the CPU vendor and scans the PCI bus; when NVIDIA
 * GPUs are present it also queries their confidential-computing mode and runs
 * the support gate, whose verdict is not enforced at this stage. Then it
 * forks: the parent hands over to the system init program, the child
 * supervises. Each supervision pass waits for the next device event, scans
 * again and this time insists that GPUs exist, that their modes agree and
 * that every one is supported before it provisions the container toolkit.
 * Every error is fatal.
 */
module Init {
  import opened Results
  import opened Text
  import opened ProcCmdline
  import opened CpuVendor
  import opened GetDevices
  import opened QueryCcMode
  import opened CheckSupported

  /** The context the program starts from: debug off, no clock value. */
  const InitialParams := Params(false, None)

  /**
   * What the boot stage finds: whether the kernel logger could be set up, the
   * text of /proc/cmdline (None when it cannot be read) and /proc/cpuinfo.
   */
  datatype BootEnv = BootEnv(logReady: bool, procCmdline: Option<string>, cpuInfo: CpuInfo)

  /**
   * The machine as one scan sees it: the PCI device listing, the GPU tool's
   * answer for each bus address, the allow-list file, and what provisioning
   * the container toolkit with a given context returns.
   */
  datatype Host = Host(pci: Listing, ccTool: string -> ToolRun, allowList: AllowList,
                       provision: Params -> Result<(), string>)

  /** What fork returns in this process. */
  datatype ForkResult = ForkParent | ForkChild | ForkError

  /** Why the process stops: every error of every stage ends it. */
  datatype FatalReason =
    | LogInitFailed
    | CmdlineFailed(cmdline: CmdlineError)
    | CpuVendorFailed(vendor: VendorError)
    | EnumerationFailed(enumeration: EnumError)
    | CcModeFailed(cc: CcError)
    | AllowListFailed(gate: GateError)
    | UnsupportedGpu
    | ProvisionFailed(message: string)
    | ForkFailed

  datatype Outcome = Continue | Fatal(reason: FatalReason)

  /** Where this process is. `Stopped` is final: no operation leaves it. */
  datatype Phase =
    | Booting
    | Booted
    | HandedOff
    | ParentReturned
    | Supervising(passes: nat)
    | Stopped(reason: FatalReason)

  /** The context after boot: what a pass of the boot table leaves, or the initial one when parsing never ran. */
  function BootContext(env: BootEnv): Params
  {
    if env.logReady && env.procCmdline.Some? then
      Dispatch(BootHandlers(), SplitWhitespace(env.procCmdline.value), InitialParams).params
    else InitialParams
  }

  /** The boot stage, step by step; the support gate's verdict is computed and then dropped. */
  function BootOutcome(env: BootEnv, host: Host): Outcome
  {
    if !env.logReady then Fatal(LogInitFailed)
    else if env.procCmdline.None? then Fatal(CmdlineFailed(CmdlineUnreadable))
    else
      var pass := Dispatch(BootHandlers(), SplitWhitespace(env.procCmdline.value), InitialParams);
      if pass.failure.Some? then Fatal(CmdlineFailed(HandlerFailed(pass.failure.value)))
      else if QueryCpuVendor(env.cpuInfo).Err? then Fatal(CpuVendorFailed(QueryCpuVendor(env.cpuInfo).error))
      else
        match Enumerate(host.pci)
        case Err(e) => Fatal(EnumerationFailed(e))
        case Ok((bdfs, ids)) =>
          if bdfs == [] then Continue
          else
            match Resolve(bdfs, host.ccTool, None)
            case Err(e) => Fatal(CcModeFailed(e))
            case Ok(_) =>
              match CheckGpuSupported(ids, host.allowList)
              case Err(e) => Fatal(AllowListFailed(e))
              case Ok(_) => Continue
  }

  /** One supervision pass after a device event, step by step; the toolkit gets the context. */
  function IterationOutcome(host: Host, context: Params): Outcome
  {
    match Enumerate(host.pci)
    case Err(e) => Fatal(EnumerationFailed(e))
    case Ok((bdfs, ids)) =>
      match Resolve(bdfs, host.ccTool, None)
      case Err(e) => Fatal(CcModeFailed(e))
      case Ok(_) =>
        match CheckGpuSupported(ids, host.allowList)
        case Err(e) => Fatal(AllowListFailed(e))
        case Ok(supported) =>
          if !supported then Fatal(UnsupportedGpu)
          else
            match host.provision(context)
            case Err(message) => Fatal(ProvisionFailed(message))
            case Ok(_) => Continue
  }

  /** The phase an outcome leads to: `next` when the stage went through. */
  function After(o: Outcome, next: Phase): Phase
  {
    match o
    case Continue => next
    case Fatal(reason) => Stopped(reason)
  }

  /**
   * The phase of this process after fork. The parent replaces itself with the
   * system init program; when that exec fails, the parent just returns.
   */
  function SplitPhase(fork: ForkResult, execSucceeds: bool): (r: Phase)
    ensures r.Supervising? <==> fork == ForkChild
    ensures r.Supervising? ==> r.passes == 0
    ensures fork == ForkError ==> r == Stopped(ForkFailed)
    ensures fork == ForkParent ==> r == (if execSucceeds then HandedOff else ParentReturned)
  {
    match fork
    case ForkParent => if execSucceeds then HandedOff else ParentReturned
    case ForkChild => Supervising(0)
    case ForkError => Stopped(ForkFailed)
  }

  /** The phase after a run of supervision passes over a sequence of device events: the first fatal pass stops it. */
  function SupervisedPhase(events: seq<Host>, context: Params, passes: nat): Phase
  {
    if events == [] then Supervising(passes)
    else
      match IterationOutcome(events[0], context)
      case Continue => SupervisedPhase(events[1..], context, passes + 1)
      case Fatal(reason) => Stopped(reason)
  }

  class Supervisor {
    /** The parameter context, filled at boot and read by the supervision passes. */
    const context: ParamContext
    var phase: Phase

    constructor ()
      ensures fresh(context) && context.Snapshot() == InitialParams && phase == Booting
    {
      context := new ParamContext(false, None);
      phase := Booting;
    }

    /**
     * The boot stage. The context afterwards is the one the boot table
     * leaves, and the phase is `Booted` or the first fatal error.
     */
    method Boot(env: BootEnv, host: Host)
      requires phase == Booting && context.Snapshot() == InitialParams
      modifies this, context
      ensures context.Snapshot() == BootContext(env)
      ensures phase == After(BootOutcome(env, host), Booted)
    {
      if !env.logReady {
        phase := Stopped(LogInitFailed);
        return;
      }
      var parsed := ProcessKernelParams(BootHandlers(), context, None, env.procCmdline);
      if parsed.Err? {
        phase := Stopped(CmdlineFailed(parsed.error));
        return;
      }
      var vendor := QueryCpuVendor(env.cpuInfo);
      if vendor.Err? {
        phase := Stopped(CpuVendorFailed(vendor.error));
        return;
      }
      var devices := GetGpuDevices(host.pci);
      if devices.Err? {
        phase := Stopped(EnumerationFailed(devices.error));
        return;
      }
      var (bdfs, ids) := devices.value;
      if bdfs != [] {
        var ccMode := QueryGpuCcMode(bdfs, host.ccTool);
        if ccMode.Err? {
          phase := Stopped(CcModeFailed(ccMode.error));
          return;
        }
        var supported := CheckGpuSupported(ids, host.allowList);
        if supported.Err? {
          phase := Stopped(AllowListFailed(supported.error));
          return;
        }
      }
      phase := Booted;
    }

    /** The fork: only the child goes on to supervise. */
    method Split(fork: ForkResult, execSucceeds: bool)
      requires phase == Booted
      modifies this
      ensures phase == SplitPhase(fork, execSucceeds)
    {
      match fork {
        case ForkParent =>
          phase := if execSucceeds then HandedOff else ParentReturned;
        case ForkChild =>
          phase := Supervising(0);
        case ForkError =>
          phase := Stopped(ForkFailed);
      }
    }

    /**
     * One supervision pass; `host` is the machine after the device event the
     * pass waited for. The context is only read.
     */
    method Iterate(host: Host)
      requires phase.Supervising?
      modifies this
      ensures phase == After(IterationOutcome(host, context.Snapshot()), Supervising(old(phase).passes + 1))
    {
      var devices := GetGpuDevices(host.pci);
      if devices.Err? {
        phase := Stopped(EnumerationFailed(devices.error));
        return;
      }
      var (bdfs, ids) := devices.value;
      var ccMode := QueryGpuCcMode(bdfs, host.ccTool);
      if ccMode.Err? {
        phase := Stopped(CcModeFailed(ccMode.error));
        return;
      }
      var supported := CheckGpuSupported(ids, host.allowList);
      if supported.Err? {
        phase := Stopped(AllowListFailed(supported.error));
        return;
      }
      if !supported.value {
        phase := Stopped(UnsupportedGpu);
        return;
      }
      var provisioned := host.provision(context.Snapshot());
      if provisioned.Err? {
        phase := Stopped(ProvisionFailed(provisioned.error));
        return;
      }
      phase := Supervising(phase.passes + 1);
    }

    /** The supervision loop over a finite sequence of device events; it ends at the first fatal pass. */
    method Supervise(events: seq<Host>)
      requires phase.Supervising?
      modifies this
      ensures phase == SupervisedPhase(events, context.Snapshot(), old(phase).passes)
    {
      var i := 0;
      while i < |events|
        invariant 0 <= i <= |events|
        invariant phase.Supervising?
        invariant SupervisedPhase(events, context.Snapshot(), old(phase).passes) ==
                  SupervisedPhase(events[i..], context.Snapshot(), phase.passes)
      {
        assert events[i..][0] == events[i] && events[i..][1..] == events[i + 1..];
        Iterate(events[i]);
        if phase.Stopped? {
          return;
        }
        i := i + 1;
      }
    }
  }

  // ----- the boot stage -----

  /**
   * At boot the clock value is never set, the last debug token decides
   * debug, and the command line fails only when /proc/cmdline cannot be read.
   */
  lemma BootCmdline(env: BootEnv, host: Host)
    ensures BootContext(env).smiLgcValue == None
    ensures env.logReady && env.procCmdline.Some? ==>
              BootContext(env).debug == (LastValue(SplitWhitespace(env.procCmdline.value), NvidiaInitDebugKey) == Some("1"))
    ensures BootOutcome(env, host).Fatal? && BootOutcome(env, host).reason.CmdlineFailed? <==>
              env.logReady && env.procCmdline.None?
  {
    if env.logReady && env.procCmdline.Some? {
      BootDispatchLastWins(SplitWhitespace(env.procCmdline.value), InitialParams);
    }
  }

  /** The support gate's verdict does not matter at boot: any allow list that is missing or can be opened gives the same outcome. */
  lemma BootIgnoresSupportVerdict(env: BootEnv, host: Host, list: AllowList)
    requires !host.allowList.Unopenable? && !list.Unopenable?
    ensures BootOutcome(env, host) == BootOutcome(env, host.(allowList := list))
  {
  }

  /** Without GPUs, boot neither runs the GPU tool nor reads the allow list. */
  lemma BootSkipsChecksWithoutGpus(env: BootEnv, host: Host, tool: string -> ToolRun, list: AllowList)
    requires Enumerate(host.pci).Ok? && Enumerate(host.pci).value.0 == []
    ensures BootOutcome(env, host) == BootOutcome(env, host.(ccTool := tool, allowList := list))
  {
  }

  /**
   * Past the command line, boot is not lenient: a CPU vendor that cannot be
   * found and a failed scan are fatal, and with GPUs present so are an error
   * of the mode query and an allow list that cannot be opened.
   */
  lemma BootChecksAreFatal(env: BootEnv, host: Host)
    requires env.logReady && env.procCmdline.Some?
    ensures QueryCpuVendor(env.cpuInfo).Err? ==>
              BootOutcome(env, host) == Fatal(CpuVendorFailed(QueryCpuVendor(env.cpuInfo).error))
    ensures QueryCpuVendor(env.cpuInfo).Ok? && Enumerate(host.pci).Err? ==>
              BootOutcome(env, host) == Fatal(EnumerationFailed(Enumerate(host.pci).error))
    ensures QueryCpuVendor(env.cpuInfo).Ok? && Enumerate(host.pci).Ok? && Enumerate(host.pci).value.0 != [] ==>
              var (bdfs, ids) := Enumerate(host.pci).value;
              && (Resolve(bdfs, host.ccTool, None).Err? ==>
                    BootOutcome(env, host) == Fatal(CcModeFailed(Resolve(bdfs, host.ccTool, None).error)))
              && (Resolve(bdfs, host.ccTool, None).Ok? && CheckGpuSupported(ids, host.allowList).Err? ==>
                    BootOutcome(env, host) == Fatal(AllowListFailed(CheckGpuSupported(ids, host.allowList).error)))
  {
    BootDispatchLastWins(SplitWhitespace(env.procCmdline.value), InitialParams);
  }

  /**
   * Boot goes through exactly when the logger is set up, /proc/cmdline can be
   * read, the CPU vendor is found and the scan succeeds, and, if it finds
   * GPUs, they all report the same mode and the allow list is missing or can
   * be opened.
   */
  lemma BootContinuesIff(env: BootEnv, host: Host)
    ensures BootOutcome(env, host) == Continue <==>
              && env.logReady
              && env.procCmdline.Some?
              && QueryCpuVendor(env.cpuInfo).Ok?
              && Enumerate(host.pci).Ok?
              && (Enumerate(host.pci).value.0 != [] ==>
                    && (exists m :: Uniform(Enumerate(host.pci).value.0, host.ccTool, m))
                    && !host.allowList.Unopenable?)
  {
    if env.logReady && env.procCmdline.Some? {
      BootDispatchLastWins(SplitWhitespace(env.procCmdline.value), InitialParams);
    }
    if Enumerate(host.pci).Ok? {
      var bdfs := Enumerate(host.pci).value.0;
      ResolveOkIffUniform(bdfs, host.ccTool, On);
      ResolveOkIffUniform(bdfs, host.ccTool, Off);
      assert Resolve(bdfs, host.ccTool, None).Ok? <==> bdfs != [] && exists m :: Uniform(bdfs, host.ccTool, m) by {
        if Resolve(bdfs, host.ccTool, None).Ok? {
          assert Uniform(bdfs, host.ccTool, Resolve(bdfs, host.ccTool, None).value);
        }
      }
    }
  }

  /**
   * The stages differ: a machine whose GPUs agree on their mode but are not
   * all supported passes boot, yet the first supervision pass stops on it.
   */
  lemma BootToleratesWhatLoopRejects(env: BootEnv, host: Host, context: Params)
    requires env.logReady && env.procCmdline.Some? && QueryCpuVendor(env.cpuInfo).Ok?
    requires Enumerate(host.pci).Ok? && Resolve(Enumerate(host.pci).value.0, host.ccTool, None).Ok?
    requires CheckGpuSupported(Enumerate(host.pci).value.1, host.allowList) == Ok(false)
    ensures BootOutcome(env, host) == Continue
    ensures IterationOutcome(host, context) == Fatal(UnsupportedGpu)
  {
    BootDispatchLastWins(SplitWhitespace(env.procCmdline.value), InitialParams);
  }

  // ----- a supervision pass -----

  /** A pass that finds no GPUs is fatal: the mode query has nothing to agree on. */
  lemma EmptyScanFatalInLoop(host: Host, context: Params)
    requires Enumerate(host.pci).Ok? && Enumerate(host.pci).value.0 == []
    ensures IterationOutcome(host, context) == Fatal(CcModeFailed(NoGpusFound))
  {
  }

  /**
   * A pass goes through exactly when the scan succeeds and finds GPUs, all of
   * them report the same mode, the allow list exists and lists every device
   * id as a whole line, and the toolkit provisions.
   */
  lemma PassContinuesIff(host: Host, context: Params)
    ensures IterationOutcome(host, context) == Continue <==>
              && Enumerate(host.pci).Ok?
              && Enumerate(host.pci).value.0 != []
              && (exists m :: Uniform(Enumerate(host.pci).value.0, host.ccTool, m))
              && host.allowList.Present?
              && (forall i :: 0 <= i < |Enumerate(host.pci).value.1| ==>
                                Enumerate(host.pci).value.1[i] in Lines(host.allowList.content))
              && host.provision(context).Ok?
  {
    if Enumerate(host.pci).Ok? {
      var bdfs := Enumerate(host.pci).value.0;
      ResolveOkIffUniform(bdfs, host.ccTool, On);
      ResolveOkIffUniform(bdfs, host.ccTool, Off);
      assert Resolve(bdfs, host.ccTool, None).Ok? <==> bdfs != [] && exists m :: Uniform(bdfs, host.ccTool, m) by {
        if Resolve(bdfs, host.ccTool, None).Ok? {
          assert Uniform(bdfs, host.ccTool, Resolve(bdfs, host.ccTool, None).value);
        }
      }
    }
  }

  /**
   * A pass stops at the first stage that fails, in the order scan, mode
   * query, allow list, support verdict, toolkit, and the reason names that
   * stage. The collaborators of the later stages are never consulted, so
   * each clause holds whatever they are: disagreeing GPUs are reported as
   * such even when the allow list is missing.
   */
  lemma PassReportsFirstFailedStage(host: Host, context: Params, tool: string -> ToolRun, list: AllowList,
                                    provision: Params -> Result<(), string>)
    ensures Enumerate(host.pci).Err? ==>
              IterationOutcome(host.(ccTool := tool, allowList := list, provision := provision), context)
              == Fatal(EnumerationFailed(Enumerate(host.pci).error))
    ensures Enumerate(host.pci).Ok? ==>
              var (bdfs, ids) := Enumerate(host.pci).value;
              && (Resolve(bdfs, host.ccTool, None).Err? ==>
                    IterationOutcome(host.(allowList := list, provision := provision), context)
                    == Fatal(CcModeFailed(Resolve(bdfs, host.ccTool, None).error)))
              && (Resolve(bdfs, host.ccTool, None).Ok? && CheckGpuSupported(ids, host.allowList).Err? ==>
                    IterationOutcome(host.(provision := provision), context)
                    == Fatal(AllowListFailed(CheckGpuSupported(ids, host.allowList).error)))
              && (Resolve(bdfs, host.ccTool, None).Ok? && CheckGpuSupported(ids, host.allowList) == Ok(false) ==>
                    IterationOutcome(host.(provision := provision), context) == Fatal(UnsupportedGpu))
              && (Resolve(bdfs, host.ccTool, None).Ok? && CheckGpuSupported(ids, host.allowList) == Ok(true)
                  && host.provision(context).Err? ==>
                    IterationOutcome(host, context) == Fatal(ProvisionFailed(host.provision(context).error)))
  {
  }

  /** The toolkit runs only after every check passed: until then the outcome does not depend on it. */
  lemma ProvisionOnlyAfterChecks(host: Host, context: Params, provision: Params -> Result<(), string>)
    requires !(Enumerate(host.pci).Ok?
               && Resolve(Enumerate(host.pci).value.0, host.ccTool, None).Ok?
               && CheckGpuSupported(Enumerate(host.pci).value.1, host.allowList) == Ok(true))
    ensures IterationOutcome(host, context) == IterationOutcome(host.(provision := provision), context)
    ensures IterationOutcome(host, context).Fatal?
  {
  }

  // ----- the supervision loop -----

  /**
   * A run of passes keeps supervising exactly when every pass goes through,
   * and then it has counted one pass per event.
   */
  lemma {:induction false} SupervisionContinuesIff(events: seq<Host>, context: Params, passes: nat)
    ensures SupervisedPhase(events, context, passes).Supervising? <==>
              forall i :: 0 <= i < |events| ==> IterationOutcome(events[i], context) == Continue
    ensures SupervisedPhase(events, context, passes).Supervising? ==>
              SupervisedPhase(events, context, passes) == Supervising(passes + |events|)
  {
    if events != [] {
      SupervisionContinuesIff(events[1..], context, passes + 1);
      assert forall i :: 1 <= i < |events| ==> events[i] == events[1..][i - 1];
    }
  }

  /** The first fatal pass decides the reason the process stops; later events are never looked at. */
  lemma {:induction false} FirstFatalPassStops(events: seq<Host>, context: Params, passes: nat, k: nat)
    requires k < |events| && IterationOutcome(events[k], context).Fatal?
    requires forall i :: 0 <= i < k ==> IterationOutcome(events[i], context) == Continue
    ensures SupervisedPhase(events, context, passes) == Stopped(IterationOutcome(events[k], context).reason)
  {
    if k > 0 {
      assert forall i :: 0 <= i < k - 1 ==> events[1..][i] == events[i + 1];
      FirstFatalPassStops(events[1..], context, passes + 1, k - 1);
    }
  }
}

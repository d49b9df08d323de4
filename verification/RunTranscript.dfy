/** What one run on a worker says and starts, told from the outcomes its handler met and not from
    the handler's steps (pkg/worker/worker.go): which failure is reported with which code, when
    docker is used at all, and that an allowlist run starts its agent only behind the proxy. */
module RunTranscript {
  import opened RunLifecycle

  /** The outcomes the run handler met, in order. */
  function Heard(steps: seq<Step>): seq<Outcome> {
    if steps == [] then [] else Met(steps[0]) + Heard(steps[1..])
  }

  function Met(step: Step): seq<Outcome> {
    if step.RunStep? then [step.o] else []
  }

  datatype Blame = NoBlame | Blame(error: ErrorCode, exit: int)

  /** The error and the exit code that each failure is reported with. */
  function BlameOf(o: Outcome): Blame {
    match o
    case WorkspaceRefused => Blame(WORKSPACE_CREATE_FAILED, 1)
    case RuntimeMissing => Blame(RUNTIME_NOT_CONFIGURED, 2)
    case SpecFailed => Blame(RUNTIME_SPEC_BUILD_FAILED, 2)
    case CommandEmpty => Blame(EXEC_COMMAND_EMPTY, 3)
    case ImageEmpty => Blame(RUNTIME_IMAGE_EMPTY, 2)
    case StdoutPipeFailed => Blame(EXEC_STDOUT_PIPE_FAILED, 3)
    case StderrPipeFailed => Blame(EXEC_STDERR_PIPE_FAILED, 3)
    case ProcessFailed(_) => Blame(EXEC_START_FAILED, 3)
    case RulesEmpty => Blame(NETWORK_ALLOWLIST_EMPTY, 2)
    case RulesInvalid => Blame(NETWORK_ALLOWLIST_INVALID, 2)
    case NetworkFailed => Blame(DOCKER_NETWORK_CREATE_FAILED, 3)
    case EncodeFailed => Blame(NETWORK_ALLOWLIST_INVALID, 2)
    case WriteFailed => Blame(WORKSPACE_WRITE_FAILED, 1)
    case ProxyFailed => Blame(DOCKER_NET_POLICY_FAILED, 3)
    case ConnectFailed => Blame(DOCKER_NET_POLICY_FAILED, 3)
    case AgentFailed(_) => Blame(DOCKER_RUN_FAILED, 3)
    case WaitFailed(_) => Blame(DOCKER_WAIT_FAILED, 4)
    case _ => NoBlame
  }

  function LastBlame(h: seq<Outcome>): Blame {
    if h == [] then NoBlame
    else if BlameOf(h[|h| - 1]).Blame? then BlameOf(h[|h| - 1])
    else LastBlame(h[..|h| - 1])
  }

  /** How the process ended, if the handler was told. */
  function LastEnd(h: seq<Outcome>): WaitResult {
    if h == [] then NotEnded
    else
      match h[|h| - 1]
      case ProcessEnded(failed, exit) => Ended(failed, exit)
      case AgentExited(exit) => Ended(false, exit)
      case _ => LastEnd(h[..|h| - 1])
  }

  /** What matters of the outcomes for how the run ends. */
  datatype Tale = Tale(blame: Blame, end: WaitResult)

  function TaleOf(h: seq<Outcome>): Tale {
    Tale(LastBlame(h), LastEnd(h))
  }

  function Learn(m: Tale, o: Outcome): Tale {
    Tale(if BlameOf(o).Blame? then BlameOf(o) else m.blame,
         match o
         case ProcessEnded(failed, exit) => Ended(failed, exit)
         case AgentExited(exit) => Ended(false, exit)
         case _ => m.end)
  }

  predicate Ran(h: seq<Outcome>) {
    ProcessUp in h || AgentUp in h
  }

  lemma InSnoc(h: seq<Outcome>, o: Outcome, x: Outcome)
    ensures x in h + [o] <==> x in h || x == o
  {
  }

  lemma TaleSnoc(h: seq<Outcome>, o: Outcome)
    ensures TaleOf(h + [o]) == Learn(TaleOf(h), o)
    ensures Ran(h + [o]) <==> Ran(h) || o.ProcessUp? || o.AgentUp?
  {
    assert (h + [o])[..|h|] == h && (h + [o])[|h|] == o;
    InSnoc(h, o, ProcessUp);
    InSnoc(h, o, AgentUp);
  }

  // ---------------------------------------------------------------------------------------
  // What the handler knows at each place
  // ---------------------------------------------------------------------------------------

  /** The exit code the run completes with. */
  function ExitOf(m: Tale): int {
    if m.blame.Blame? then m.blame.exit
    else if m.end == Ended(true, 0) then 1
    else if m.end.Ended? then m.end.exit
    else 0
  }

  predicate Bears(success: bool, exit: int, m: Tale) {
    (m.blame.Blame? || m.end.Ended?) && exit == ExitOf(m) && (success <==> exit == 0)
  }

  predicate BearsAfter(after: After, m: Tale) {
    match after
    case ThenReport(error, success, exit) => m.blame == Blame(error, exit) && !success && exit != 0
    case ThenDecide(success, exit) => m.blame.NoBlame? && Bears(success, exit, m)
  }

  /** The failure and the ending in hand. */
  predicate Carries(pc: RunPc, m: Tale) {
    match pc
    case WorkspaceFailed => m.blame == Blame(WORKSPACE_CREATE_FAILED, 1)
    case WorkspaceCompleting => m.blame == Blame(WORKSPACE_CREATE_FAILED, 1)
    case ProxyRecord(started) => m.blame == (if started then NoBlame else Blame(DOCKER_NET_POLICY_FAILED, 3))
    case AgentRecord(_, started, _) => m.blame == (if started then NoBlame else Blame(DOCKER_RUN_FAILED, 3))
    case RemovingAgent(_, exit) => m.blame.NoBlame? && m.end == Ended(false, exit)
    case RemovingProxy(after) => BearsAfter(after, m)
    case RemovingNet(after) => BearsAfter(after, m)
    case Reporting(error, success, exit) => m.blame == Blame(error, exit) && !success && exit != 0
    case Deciding(success, exit) => Bears(success, exit, m)
    case Completing(success, exit) => Bears(success, exit, m)
    case Leaving => true
    case Returned => true
    case _ => m.blame.NoBlame?
  }

  /** Whether the process or container has been started. */
  predicate RanAt(pc: RunPc, ran: bool) {
    match pc
    case ExecWait => ran
    case AgentRecord(_, started, _) => ran == started
    case AgentWait(_) => ran
    case RemovingAgent(_, _) => ran
    case _ => Ending(pc) || !ran
  }

  predicate PolicyAt(pc: RunPc) {
    match pc
    case AgentStart(policy) => policy
    case AgentRecord(policy, _, _) => policy
    case AgentWait(policy) => policy
    case RemovingAgent(policy, _) => policy
    case _ => false
  }

  predicate Closing(pc: RunPc) {
    pc.Reporting? || pc.Deciding? || pc.Completing? || pc.Leaving? || pc.Returned?
  }

  /** What has been said: in this order, each at most once. */
  datatype Said = Said(begun: bool, running: bool, failure: Blame, closed: bool)

  function SaidAt(pc: RunPc, m: Tale, ran: bool): Said {
    Said(!pc.Begin? && !pc.CheckEntry?,
         ran && !pc.AgentRecord?,
         if pc.WorkspaceCompleting? || (Closing(pc) && !pc.Reporting?) then m.blame else NoBlame,
         pc.Leaving? || pc.Returned?)
  }

  predicate SaysNext(before: Said, after: Said, says: seq<Event>, m: Tale) {
    || (says == [] && after == before)
    || (says == [Status(Starting)] && before == Said(false, false, NoBlame, false) && after == before.(begun := true))
    || (says == [Status(Running)] && before == Said(true, false, NoBlame, false) && after == before.(running := true))
    || (m.blame.Blame? && says == [Failure(m.blame.error)] && before.begun && before.failure.NoBlame?
        && !before.closed && after == before.(failure := m.blame))
    || (says == [Completed(ExitOf(m) == 0, WireCode(ExitOf(m)))] && before.begun && !before.closed
        && after == before.(closed := true))
  }

  function RanNow(ran: bool, o: Outcome): bool {
    ran || o.ProcessUp? || o.AgentUp?
  }

  // What one step of the handler does to the story.

  ghost predicate CarriesOn(m: Tale, o: Outcome, mv: Move) {
    Carries(mv.pc, Learn(m, o)) && (BlameOf(o).Blame? ==> m.blame.NoBlame?)
  }

  ghost predicate SaysOn(pc: RunPc, m: Tale, ran: bool, o: Outcome, mv: Move) {
    && RanAt(mv.pc, RanNow(ran, o))
    && ((mv.pc.Leaving? && !Completes(pc))
        || SaysNext(SaidAt(pc, m, ran), SaidAt(mv.pc, Learn(m, o), RanNow(ran, o)), mv.says, Learn(m, o)))
  }

  predicate Before(pc: RunPc, m: Tale, o: Outcome, f: Flags) {
    Fits(pc, o, f) && Carries(pc, m)
  }

  lemma CarryInGoodConfigure(pc: RunPc, m: Tale, o: Outcome, f: Flags)
    requires Before(pc, m, o, f) && pc.Configure? && BlameOf(o).NoBlame?
    ensures CarriesOn(m, o, SetupMove(pc, o, f))
  {
  }

  lemma CarryInConfigure(pc: RunPc, m: Tale, o: Outcome, f: Flags)
    requires Before(pc, m, o, f) && pc.Configure?
    ensures CarriesOn(m, o, SetupMove(pc, o, f))
  {
    if pc.Configure? && BlameOf(o).NoBlame? {
      CarryInGoodConfigure(pc, m, o, f);
    }
  }

  lemma CarryInSetup(pc: RunPc, m: Tale, o: Outcome, f: Flags)
    requires Before(pc, m, o, f) && InSetup(pc)
    ensures CarriesOn(m, o, SetupMove(pc, o, f))
  {
    if pc.Configure? {
      CarryInConfigure(pc, m, o, f);
    }
  }

  lemma CarryInExecPipes(pc: RunPc, m: Tale, o: Outcome, f: Flags)
    requires Before(pc, m, o, f) && pc.ExecPipes?
    ensures CarriesOn(m, o, ExecMove(pc, o, f))
  {
  }

  lemma CarryInExec(pc: RunPc, m: Tale, o: Outcome, f: Flags)
    requires Before(pc, m, o, f) && InExec(pc)
    ensures CarriesOn(m, o, ExecMove(pc, o, f))
  {
    if pc.ExecPipes? {
      CarryInExecPipes(pc, m, o, f);
    }
  }

  lemma CarryInCheckRules(pc: RunPc, m: Tale, o: Outcome, f: Flags)
    requires Before(pc, m, o, f) && pc.CheckRules?
    ensures CarriesOn(m, o, PolicyMove(pc, o))
  {
  }

  lemma CarryInPolicy(pc: RunPc, m: Tale, o: Outcome, f: Flags)
    requires Before(pc, m, o, f) && InPolicy(pc)
    ensures CarriesOn(m, o, PolicyMove(pc, o))
  {
    if pc.CheckRules? {
      CarryInCheckRules(pc, m, o, f);
    }
  }

  lemma CarryInWriteRules(pc: RunPc, m: Tale, o: Outcome, f: Flags)
    requires Before(pc, m, o, f) && pc.WriteRules?
    ensures CarriesOn(m, o, NetworkMove(pc, o))
  {
    if o.EncodeFailed? {
      assert NetworkMove(pc, o) == Report(NETWORK_ALLOWLIST_INVALID, false, 2).(note := RulesBad);
    } else if o.WriteFailed? {
      assert NetworkMove(pc, o) == Report(WORKSPACE_WRITE_FAILED, false, 1).(note := RulesBad);
    } else {
      assert NetworkMove(pc, o) == Go(ProxyStart);
    }
  }

  lemma CarryInNetwork(pc: RunPc, m: Tale, o: Outcome, f: Flags)
    requires Before(pc, m, o, f) && InNetwork(pc)
    ensures CarriesOn(m, o, NetworkMove(pc, o))
  {
    if pc.WriteRules? {
      CarryInWriteRules(pc, m, o, f);
    }
  }

  lemma CarryInConnect(pc: RunPc, m: Tale, o: Outcome, f: Flags)
    requires Before(pc, m, o, f) && pc.ProxyConnect?
    ensures CarriesOn(m, o, ProxyMove(pc, o))
  {
  }

  lemma CarryInProxy(pc: RunPc, m: Tale, o: Outcome, f: Flags)
    requires Before(pc, m, o, f) && InProxy(pc)
    ensures CarriesOn(m, o, ProxyMove(pc, o))
  {
    if pc.ProxyConnect? {
      CarryInConnect(pc, m, o, f);
    }
  }

  lemma CarryInAgentWait(pc: RunPc, m: Tale, o: Outcome, f: Flags)
    requires Before(pc, m, o, f) && pc.AgentWait?
    ensures CarriesOn(m, o, AgentMove(pc, o, f))
  {
  }

  lemma CarryInAgent(pc: RunPc, m: Tale, o: Outcome, f: Flags)
    requires Before(pc, m, o, f) && InAgent(pc)
    ensures CarriesOn(m, o, AgentMove(pc, o, f))
  {
    if pc.AgentWait? {
      CarryInAgentWait(pc, m, o, f);
    }
  }

  lemma CarryAtEnd(pc: RunPc, m: Tale, o: Outcome, f: Flags)
    requires Before(pc, m, o, f) && Ending(pc)
    ensures CarriesOn(m, o, EndMove(pc, f))
  {
  }

  lemma CarryRun(pc: RunPc, m: Tale, o: Outcome, f: Flags)
    requires Before(pc, m, o, f)
    ensures CarriesOn(m, o, MoveFrom(pc, o, f))
  {
    if InSetup(pc) {
      CarryInSetup(pc, m, o, f);
      assert MoveFrom(pc, o, f) == SetupMove(pc, o, f);
    } else if InExec(pc) {
      CarryInExec(pc, m, o, f);
      assert MoveFrom(pc, o, f) == ExecMove(pc, o, f);
    } else if InPolicy(pc) {
      CarryInPolicy(pc, m, o, f);
      assert MoveFrom(pc, o, f) == PolicyMove(pc, o);
    } else if InNetwork(pc) {
      CarryInNetwork(pc, m, o, f);
      assert MoveFrom(pc, o, f) == NetworkMove(pc, o);
    } else if InProxy(pc) {
      CarryInProxy(pc, m, o, f);
      assert MoveFrom(pc, o, f) == ProxyMove(pc, o);
    } else if InAgent(pc) {
      CarryInAgent(pc, m, o, f);
      assert MoveFrom(pc, o, f) == AgentMove(pc, o, f);
    } else {
      CarryAtEnd(pc, m, o, f);
      assert MoveFrom(pc, o, f) == EndMove(pc, f);
    }
  }

  lemma SayInGoodConfigure(pc: RunPc, m: Tale, ran: bool, o: Outcome, f: Flags)
    requires Before(pc, m, o, f) && RanAt(pc, ran) && pc.Configure? && BlameOf(o).NoBlame?
    ensures SaysOn(pc, m, ran, o, SetupMove(pc, o, f))
  {
  }

  lemma SayInConfigure(pc: RunPc, m: Tale, ran: bool, o: Outcome, f: Flags)
    requires Before(pc, m, o, f) && RanAt(pc, ran) && pc.Configure?
    ensures SaysOn(pc, m, ran, o, SetupMove(pc, o, f))
  {
    if pc.Configure? && BlameOf(o).NoBlame? {
      SayInGoodConfigure(pc, m, ran, o, f);
    }
  }

  lemma SayInSetup(pc: RunPc, m: Tale, ran: bool, o: Outcome, f: Flags)
    requires Before(pc, m, o, f) && RanAt(pc, ran) && InSetup(pc)
    ensures SaysOn(pc, m, ran, o, SetupMove(pc, o, f))
  {
    if pc.Configure? {
      SayInConfigure(pc, m, ran, o, f);
    }
  }

  lemma SayInExecStarted(pc: RunPc, m: Tale, ran: bool, o: Outcome, f: Flags)
    requires Before(pc, m, o, f) && RanAt(pc, ran) && pc.ExecStart? && o.ProcessUp?
    ensures SaysOn(pc, m, ran, o, ExecMove(pc, o, f))
  {
  }

  lemma SayInExecStart(pc: RunPc, m: Tale, ran: bool, o: Outcome, f: Flags)
    requires Before(pc, m, o, f) && RanAt(pc, ran) && pc.ExecStart?
    ensures SaysOn(pc, m, ran, o, ExecMove(pc, o, f))
  {
    if o.ProcessUp? {
      SayInExecStarted(pc, m, ran, o, f);
    } else if f.Stopped() || o == ProcessFailed(true) {
      assert ExecMove(pc, o, f) == Go(Leaving);
    } else {
      assert ExecMove(pc, o, f) == Report(EXEC_START_FAILED, false, 3);
    }
  }

  lemma SayInExec(pc: RunPc, m: Tale, ran: bool, o: Outcome, f: Flags)
    requires Before(pc, m, o, f) && RanAt(pc, ran) && InExec(pc)
    ensures SaysOn(pc, m, ran, o, ExecMove(pc, o, f))
  {
    if pc.ExecStart? {
      SayInExecStart(pc, m, ran, o, f);
    }
  }

  lemma SayInCheckRules(pc: RunPc, m: Tale, ran: bool, o: Outcome, f: Flags)
    requires Before(pc, m, o, f) && RanAt(pc, ran) && pc.CheckRules?
    ensures SaysOn(pc, m, ran, o, PolicyMove(pc, o))
  {
  }

  lemma SayInPolicy(pc: RunPc, m: Tale, ran: bool, o: Outcome, f: Flags)
    requires Before(pc, m, o, f) && RanAt(pc, ran) && InPolicy(pc)
    ensures SaysOn(pc, m, ran, o, PolicyMove(pc, o))
  {
    if pc.CheckRules? {
      SayInCheckRules(pc, m, ran, o, f);
    }
  }

  lemma SayInWriteRules(pc: RunPc, m: Tale, ran: bool, o: Outcome, f: Flags)
    requires Before(pc, m, o, f) && RanAt(pc, ran) && pc.WriteRules?
    ensures SaysOn(pc, m, ran, o, NetworkMove(pc, o))
  {
  }

  lemma SayInNetwork(pc: RunPc, m: Tale, ran: bool, o: Outcome, f: Flags)
    requires Before(pc, m, o, f) && RanAt(pc, ran) && InNetwork(pc)
    ensures SaysOn(pc, m, ran, o, NetworkMove(pc, o))
  {
    if pc.WriteRules? {
      SayInWriteRules(pc, m, ran, o, f);
    }
  }

  lemma SayInConnect(pc: RunPc, m: Tale, ran: bool, o: Outcome, f: Flags)
    requires Before(pc, m, o, f) && RanAt(pc, ran) && pc.ProxyConnect?
    ensures SaysOn(pc, m, ran, o, ProxyMove(pc, o))
  {
  }

  lemma SayInProxy(pc: RunPc, m: Tale, ran: bool, o: Outcome, f: Flags)
    requires Before(pc, m, o, f) && RanAt(pc, ran) && InProxy(pc)
    ensures SaysOn(pc, m, ran, o, ProxyMove(pc, o))
  {
    if pc.ProxyConnect? {
      SayInConnect(pc, m, ran, o, f);
    }
  }

  lemma SayInAgentWait(pc: RunPc, m: Tale, ran: bool, o: Outcome, f: Flags)
    requires Before(pc, m, o, f) && RanAt(pc, ran) && pc.AgentWait?
    ensures SaysOn(pc, m, ran, o, AgentMove(pc, o, f))
  {
  }

  lemma SayInAgent(pc: RunPc, m: Tale, ran: bool, o: Outcome, f: Flags)
    requires Before(pc, m, o, f) && RanAt(pc, ran) && InAgent(pc)
    ensures SaysOn(pc, m, ran, o, AgentMove(pc, o, f))
  {
    if pc.AgentWait? {
      SayInAgentWait(pc, m, ran, o, f);
    }
  }

  lemma SayAtEnd(pc: RunPc, m: Tale, ran: bool, o: Outcome, f: Flags)
    requires Before(pc, m, o, f) && RanAt(pc, ran) && Ending(pc)
    ensures SaysOn(pc, m, ran, o, EndMove(pc, f))
  {
  }

  lemma SayRun(pc: RunPc, m: Tale, ran: bool, o: Outcome, f: Flags)
    requires Before(pc, m, o, f) && RanAt(pc, ran)
    ensures SaysOn(pc, m, ran, o, MoveFrom(pc, o, f))
  {
    if InSetup(pc) {
      SayInSetup(pc, m, ran, o, f);
      assert MoveFrom(pc, o, f) == SetupMove(pc, o, f);
    } else if InExec(pc) {
      SayInExec(pc, m, ran, o, f);
      assert MoveFrom(pc, o, f) == ExecMove(pc, o, f);
    } else if InPolicy(pc) {
      SayInPolicy(pc, m, ran, o, f);
      assert MoveFrom(pc, o, f) == PolicyMove(pc, o);
    } else if InNetwork(pc) {
      SayInNetwork(pc, m, ran, o, f);
      assert MoveFrom(pc, o, f) == NetworkMove(pc, o);
    } else if InProxy(pc) {
      SayInProxy(pc, m, ran, o, f);
      assert MoveFrom(pc, o, f) == ProxyMove(pc, o);
    } else if InAgent(pc) {
      SayInAgent(pc, m, ran, o, f);
      assert MoveFrom(pc, o, f) == AgentMove(pc, o, f);
    } else {
      SayAtEnd(pc, m, ran, o, f);
      assert MoveFrom(pc, o, f) == EndMove(pc, f);
    }
  }

  // ---------------------------------------------------------------------------------------
  // The road the run has taken
  // ---------------------------------------------------------------------------------------

  /** Turned by the answers that decide what may be started. */
  datatype Road = AtHome | OnExec | OnDocker | Asked | Refused | Vetted | Written | Guarded | Open

  function Turn(r: Road, o: Outcome): Road {
    match o
    case ExecRunner => OnExec
    case DockerRunner => OnDocker
    case AllowlistPolicy => Asked
    case OtherPolicy => Open
    case RulesEmpty => Refused
    case RulesInvalid => Refused
    case RulesGood => Vetted
    case RulesWritten => Written
    case ProxyConnected => Guarded
    case _ => r
  }

  function RoadOf(h: seq<Outcome>): Road {
    if h == [] then AtHome else Turn(RoadOf(h[..|h| - 1]), h[|h| - 1])
  }

  /** The answers met on the way there, and none of the others that turn. */
  function Signs(r: Road): set<Outcome> {
    match r
    case AtHome => {}
    case OnExec => {ExecRunner}
    case OnDocker => {DockerRunner}
    case Open => {DockerRunner, OtherPolicy}
    case Asked => {DockerRunner, AllowlistPolicy}
    case Vetted => {DockerRunner, AllowlistPolicy, RulesGood}
    case Written => {DockerRunner, AllowlistPolicy, RulesGood, RulesWritten}
    case Guarded => {DockerRunner, AllowlistPolicy, RulesGood, RulesWritten, ProxyConnected}
    case Refused => {DockerRunner, AllowlistPolicy}
  }

  predicate Turns(o: Outcome) {
    o in {ExecRunner, DockerRunner, AllowlistPolicy, OtherPolicy, RulesGood, RulesWritten, ProxyConnected}
  }

  predicate RoadFits(pc: RunPc, r: Road) {
    if InSetup(pc) then r.AtHome?
    else if InExec(pc) then r.OnExec?
    else if pc.ChooseNetwork? then r.OnDocker?
    else if pc.CheckRules? then r.Asked?
    else if InNetwork(pc) then r.Vetted?
    else if InProxy(pc) then r.Written?
    else if InAgent(pc) || pc.RemovingAgent? then r == if PolicyAt(pc) then Guarded else Open
    else true
  }

  /** What may have been started on this road. */
  predicate MayHave(r: Road, created: set<Resource>) {
    match r
    case Open => Network !in created && Proxy !in created
    case Guarded => Network in created && Proxy in created
    case Vetted => Agent !in created && Proxy !in created
    case Written => Agent !in created
    case _ => created == {}
  }

  ghost predicate GoesOn(r: Road, o: Outcome, mv: Move) {
    && RoadFits(mv.pc, Turn(r, o))
    && (Turns(o) ==> o !in Signs(r) && Signs(Turn(r, o)) == Signs(r) + {o})
    && (!Turns(o) ==> Signs(Turn(r, o)) == Signs(r))
    && (o.RulesEmpty? || o.RulesInvalid? ==> Turn(r, o).Refused?)
    && (mv.makes != {} ==> r.Vetted? || r.Written? || r.Guarded? || r.Open?)
    && (Network in mv.makes ==> r.Vetted?) && (Proxy in mv.makes ==> r.Written?)
    && (Agent in mv.makes ==> r.Guarded? || r.Open?)
  }

  lemma GoInConfigure(pc: RunPc, r: Road, o: Outcome, f: Flags)
    requires Fits(pc, o, f) && RoadFits(pc, r) && pc.Configure?
    ensures GoesOn(r, o, SetupMove(pc, o, f))
  {
  }

  lemma GoInSetup(pc: RunPc, r: Road, o: Outcome, f: Flags)
    requires Fits(pc, o, f) && RoadFits(pc, r) && InSetup(pc)
    ensures GoesOn(r, o, SetupMove(pc, o, f))
  {
    if pc.Configure? {
      GoInConfigure(pc, r, o, f);
    }
  }

  lemma GoInExecPipes(pc: RunPc, r: Road, o: Outcome, f: Flags)
    requires Fits(pc, o, f) && RoadFits(pc, r) && pc.ExecPipes?
    ensures GoesOn(r, o, ExecMove(pc, o, f))
  {
  }

  lemma GoInExec(pc: RunPc, r: Road, o: Outcome, f: Flags)
    requires Fits(pc, o, f) && RoadFits(pc, r) && InExec(pc)
    ensures GoesOn(r, o, ExecMove(pc, o, f))
  {
    if pc.ExecPipes? {
      GoInExecPipes(pc, r, o, f);
    }
  }

  lemma GoInCheckRules(pc: RunPc, r: Road, o: Outcome, f: Flags)
    requires Fits(pc, o, f) && RoadFits(pc, r) && pc.CheckRules?
    ensures GoesOn(r, o, PolicyMove(pc, o))
  {
  }

  lemma GoInPolicy(pc: RunPc, r: Road, o: Outcome, f: Flags)
    requires Fits(pc, o, f) && RoadFits(pc, r) && InPolicy(pc)
    ensures GoesOn(r, o, PolicyMove(pc, o))
  {
    if pc.CheckRules? {
      GoInCheckRules(pc, r, o, f);
    }
  }

  lemma GoInWriteRules(pc: RunPc, r: Road, o: Outcome, f: Flags)
    requires Fits(pc, o, f) && RoadFits(pc, r) && pc.WriteRules?
    ensures GoesOn(r, o, NetworkMove(pc, o))
  {
  }

  lemma GoInNetwork(pc: RunPc, r: Road, o: Outcome, f: Flags)
    requires Fits(pc, o, f) && RoadFits(pc, r) && InNetwork(pc)
    ensures GoesOn(r, o, NetworkMove(pc, o))
  {
    if pc.WriteRules? {
      GoInWriteRules(pc, r, o, f);
    }
  }

  lemma GoInProxy(pc: RunPc, r: Road, o: Outcome, f: Flags)
    requires Fits(pc, o, f) && RoadFits(pc, r) && InProxy(pc)
    ensures GoesOn(r, o, ProxyMove(pc, o))
  {
  }

  lemma GoInAgentWait(pc: RunPc, r: Road, o: Outcome, f: Flags)
    requires Fits(pc, o, f) && RoadFits(pc, r) && pc.AgentWait?
    ensures GoesOn(r, o, AgentMove(pc, o, f))
  {
  }

  lemma GoInAgent(pc: RunPc, r: Road, o: Outcome, f: Flags)
    requires Fits(pc, o, f) && RoadFits(pc, r) && InAgent(pc)
    ensures GoesOn(r, o, AgentMove(pc, o, f))
  {
    if pc.AgentWait? {
      GoInAgentWait(pc, r, o, f);
    }
  }

  lemma GoAtEnd(pc: RunPc, r: Road, o: Outcome, f: Flags)
    requires Fits(pc, o, f) && RoadFits(pc, r) && Ending(pc)
    ensures GoesOn(r, o, EndMove(pc, f))
  {
  }

  lemma GoRun(pc: RunPc, r: Road, o: Outcome, f: Flags)
    requires Fits(pc, o, f) && RoadFits(pc, r)
    ensures GoesOn(r, o, MoveFrom(pc, o, f))
  {
    if InSetup(pc) {
      GoInSetup(pc, r, o, f);
      assert MoveFrom(pc, o, f) == SetupMove(pc, o, f);
    } else if InExec(pc) {
      GoInExec(pc, r, o, f);
      assert MoveFrom(pc, o, f) == ExecMove(pc, o, f);
    } else if InPolicy(pc) {
      GoInPolicy(pc, r, o, f);
      assert MoveFrom(pc, o, f) == PolicyMove(pc, o);
    } else if InNetwork(pc) {
      GoInNetwork(pc, r, o, f);
      assert MoveFrom(pc, o, f) == NetworkMove(pc, o);
    } else if InProxy(pc) {
      GoInProxy(pc, r, o, f);
      assert MoveFrom(pc, o, f) == ProxyMove(pc, o);
    } else if InAgent(pc) {
      GoInAgent(pc, r, o, f);
      assert MoveFrom(pc, o, f) == AgentMove(pc, o, f);
    } else {
      GoAtEnd(pc, r, o, f);
      assert MoveFrom(pc, o, f) == EndMove(pc, f);
    }
  }

  // ---------------------------------------------------------------------------------------
  // Every interleaving
  // ---------------------------------------------------------------------------------------

  /** The events said so far. */
  function Lines(said: Said, m: Tale): seq<Event> {
    (if said.begun then [Status(Starting)] else [])
    + (if said.running then [Status(Running)] else [])
    + (if said.failure.Blame? then [Failure(said.failure.error)] else [])
    + (if said.closed then [Completed(ExitOf(m) == 0, WireCode(ExitOf(m)))] else [])
  }

  lemma LinesGrow(before: Said, after: Said, says: seq<Event>, m: Tale, m': Tale)
    requires SaysNext(before, after, says, m') && (before.closed ==> m == m')
    ensures Lines(after, m') == Lines(before, m) + says
  {
  }

  /** The failures met are one at most, and it is the one remembered. */
  ghost predicate OneBlame(h: seq<Outcome>) {
    forall o | o in h && BlameOf(o).Blame? :: BlameOf(o) == LastBlame(h)
  }

  lemma {:induction false} NoBlameMet(h: seq<Outcome>)
    requires LastBlame(h).NoBlame?
    ensures forall o | o in h :: BlameOf(o).NoBlame?
  {
    if h != [] {
      NoBlameMet(h[..|h| - 1]);
      assert forall o | o in h :: o in h[..|h| - 1] || o == h[|h| - 1];
    }
  }

  lemma OneBlameSnoc(h: seq<Outcome>, o: Outcome)
    requires OneBlame(h) && (BlameOf(o).Blame? ==> LastBlame(h).NoBlame?)
    ensures OneBlame(h + [o])
  {
    TaleSnoc(h, o);
    if BlameOf(o).Blame? {
      NoBlameMet(h);
    }
    assert TaleOf(h + [o]).blame == LastBlame(h + [o]);
  }

  /** The signs met are those on the road. */
  ghost predicate SignsMet(h: seq<Outcome>) {
    && (forall o | Turns(o) :: o in h <==> o in Signs(RoadOf(h)))
    && ((RulesEmpty in h || RulesInvalid in h) ==> RoadOf(h).Refused?)
  }

  lemma SignsSnoc(h: seq<Outcome>, o: Outcome)
    requires SignsMet(h) && (RoadOf(h).Refused? ==> Turn(RoadOf(h), o).Refused?)
    requires var r := RoadOf(h);
             && (Turns(o) ==> Signs(Turn(r, o)) == Signs(r) + {o}) && (!Turns(o) ==> Signs(Turn(r, o)) == Signs(r))
             && (o.RulesEmpty? || o.RulesInvalid? ==> Turn(r, o).Refused?)
    ensures SignsMet(h + [o]) && RoadOf(h + [o]) == Turn(RoadOf(h), o)
  {
    assert (h + [o])[..|h|] == h && (h + [o])[|h|] == o;
    InSnoc(h, o, RulesEmpty);
    InSnoc(h, o, RulesInvalid);
    forall x | Turns(x) ensures x in h + [o] <==> x in Signs(RoadOf(h + [o])) {
      InSnoc(h, o, x);
    }
  }

  predicate Settled(m: Tale) {
    m.blame.Blame? || m.end.Ended?
  }

  ghost predicate TaleInv(s: State, h: seq<Outcome>) {
    && Carries(s.pc, TaleOf(h)) && RanAt(s.pc, Ran(h)) && OneBlame(h)
    && (!s.winner.TheCancel? && !Silent(s) ==> SaidSoFar(s, h))
  }

  ghost predicate SaidSoFar(s: State, h: seq<Outcome>) {
    && s.emitted == Lines(SaidAt(s.pc, TaleOf(h), Ran(h)), TaleOf(h))
    && (Gone(s) ==> Settled(TaleOf(h)))
  }

  ghost predicate RoadInv(s: State, h: seq<Outcome>) {
    && RoadFits(s.pc, RoadOf(h)) && SignsMet(h) && MayHave(RoadOf(h), s.created)
    && (RoadOf(h).Refused? ==> Closing(s.pc))
  }

  lemma TaleRun(s: State, h: seq<Outcome>, o: Outcome)
    requires WinnerInv(s) && TaleInv(s, h) && OutcomeFits(s, o)
    ensures TaleInv(Commit(s, RunMove(s, o)), h + [o])
  {
    TaleCarries(s.pc, h, o, FlagsOf(s));
    var s' := Commit(s, RunMove(s, o));
    if !s'.winner.TheCancel? && !Silent(s') {
      Unsilenced(s, o);
      TaleSaid(s, h, o);
    }
  }

  lemma TaleCarries(pc: RunPc, h: seq<Outcome>, o: Outcome, f: Flags)
    requires Fits(pc, o, f) && Carries(pc, TaleOf(h)) && RanAt(pc, Ran(h)) && OneBlame(h)
    ensures Carries(MoveFrom(pc, o, f).pc, TaleOf(h + [o])) && OneBlame(h + [o])
    ensures RanAt(MoveFrom(pc, o, f).pc, Ran(h + [o]))
  {
    CarryRun(pc, TaleOf(h), o, f);
    SayRun(pc, TaleOf(h), Ran(h), o, f);
    TaleSnoc(h, o);
    OneBlameSnoc(h, o);
  }

  lemma Unsilenced(s: State, o: Outcome)
    requires WinnerInv(s) && OutcomeFits(s, o)
    requires var s' := Commit(s, RunMove(s, o)); !s'.winner.TheCancel? && !Silent(s')
    ensures !s.winner.TheCancel? && !Silent(s)
    ensures var pc' := RunMove(s, o).pc; (pc'.Leaving? ==> Completes(s.pc)) && (pc'.Returned? ==> Gone(s))
  {
    FairRun(s.pc, o, FlagsOf(s));
    NotSilentBefore(s, RunMove(s, o));
  }

  lemma TaleSaid(s: State, h: seq<Outcome>, o: Outcome)
    requires OutcomeFits(s, o) && Carries(s.pc, TaleOf(h)) && RanAt(s.pc, Ran(h)) && SaidSoFar(s, h)
    requires var pc' := RunMove(s, o).pc; (pc'.Leaving? ==> Completes(s.pc)) && (pc'.Returned? ==> Gone(s))
    ensures SaidSoFar(Commit(s, RunMove(s, o)), h + [o])
  {
    TaleSnoc(h, o);
    SayRun(s.pc, TaleOf(h), Ran(h), o, FlagsOf(s));
    if Completes(s.pc) || Gone(s) {
      StillSettled(s.pc, TaleOf(h), o, FlagsOf(s));
    }
    SaidMore(s, h, o, RunMove(s, o));
  }

  /** A run that completes, or has completed, has something to complete with. */
  lemma StillSettled(pc: RunPc, m: Tale, o: Outcome, f: Flags)
    requires Fits(pc, o, f) && Carries(pc, m) && (Completes(pc) || pc.Leaving? || pc.Returned?)
    ensures Completes(pc) || Settled(m) ==> Settled(Learn(m, o))
    ensures pc.Leaving? || pc.Returned? ==> Learn(m, o) == m
  {
  }

  lemma SaidMore(s: State, h: seq<Outcome>, o: Outcome, mv: Move)
    requires SaidSoFar(s, h) && TaleOf(h + [o]) == Learn(TaleOf(h), o) && Ran(h + [o]) == RanNow(Ran(h), o)
    requires SaysOn(s.pc, TaleOf(h), Ran(h), o, mv) && !(mv.pc.Leaving? && !Completes(s.pc))
    requires Gone(s) ==> Learn(TaleOf(h), o) == TaleOf(h)
    requires mv.pc.Leaving? || mv.pc.Returned? ==> Settled(Learn(TaleOf(h), o))
    ensures SaidSoFar(Commit(s, mv), h + [o])
  {
    var m, m' := TaleOf(h), TaleOf(h + [o]);
    LinesGrow(SaidAt(s.pc, m, Ran(h)), SaidAt(mv.pc, m', Ran(h + [o])), mv.says, m, m');
  }

  lemma TaleCancel(s: State, h: seq<Outcome>, i: nat)
    requires WinnerInv(s) && TaleInv(s, h) && Enabled(s, CancelStep(i))
    ensures TaleInv(Apply(s, CancelStep(i)), h)
  {
    if Working(s.cancels[i]) {
      OnlyTheWinnerWorks(s, i);
    } else {
      assert MoveOfCancel(s, s.cancels[i]).says == [];
    }
  }

  lemma RoadRun(s: State, h: seq<Outcome>, o: Outcome)
    requires RecordInv(s) && RoadInv(s, h) && OutcomeFits(s, o)
    ensures RoadInv(Commit(s, RunMove(s, o)), h + [o])
  {
    var r, mv := RoadOf(h), RunMove(s, o);
    GoRun(s.pc, r, o, FlagsOf(s));
    RefusedGoesOn(s.pc, r, o, FlagsOf(s));
    SignsSnoc(h, o);
    if o.ProxyConnected? {
      assert s.pc.ProxyConnect? && s.created == LiveAt(s.pc, {});
    }
    HaveOn(r, o, s.created, mv);
  }

  lemma RefusedGoesOn(pc: RunPc, r: Road, o: Outcome, f: Flags)
    requires Fits(pc, o, f) && RoadFits(pc, r) && (r.Refused? ==> Closing(pc))
    ensures Turn(r, o).Refused? ==> Closing(MoveFrom(pc, o, f).pc)
    ensures r.Refused? ==> Turn(r, o).Refused?
  {
  }

  lemma HaveOn(r: Road, o: Outcome, created: set<Resource>, mv: Move)
    requires GoesOn(r, o, mv) && MayHave(r, created)
    requires Signs(Turn(r, o)) == Signs(r) || Turns(o)
    requires o.ProxyConnected? ==> Network in created && Proxy in created
    ensures MayHave(Turn(r, o), created + mv.makes)
  {
  }

  ghost predicate StoryInv(s: State, h: seq<Outcome>) {
    Inv(s) && TaleInv(s, h) && RoadInv(s, h)
  }

  lemma StoryStep(s: State, step: Step, h: seq<Outcome>)
    requires StoryInv(s, h) && Enabled(s, step)
    ensures StoryInv(Apply(s, step), h + Met(step))
  {
    InvStep(s, step);
    match step
    case RunStep(o) =>
      TaleRun(s, h, o);
      RoadRun(s, h, o);
    case CancelStep(i) =>
      TaleCancel(s, h, i);
      assert h + Met(step) == h;
    case SpawnCancel(_) => assert h + Met(step) == h;
    case CancelParent => assert h + Met(step) == h;
  }

  lemma HeardCons(h: seq<Outcome>, steps: seq<Step>)
    requires steps != []
    ensures h + Met(steps[0]) + Heard(steps[1..]) == h + Heard(steps)
  {
    Associates(h, Met(steps[0]), Heard(steps[1..]));
  }

  lemma Associates(a: seq<Outcome>, b: seq<Outcome>, c: seq<Outcome>)
    ensures a + b + c == a + (b + c)
  {
  }

  lemma {:induction false} StoryAlways(s: State, steps: seq<Step>, h: seq<Outcome>)
    requires StoryInv(s, h) && Runs(s, steps)
    ensures StoryInv(Exec(s, steps), h + Heard(steps))
    decreases |steps|
  {
    if steps == [] {
      assert h + Heard(steps) == h;
    } else {
      StoryStep(s, steps[0], h);
      StoryAlways(Apply(s, steps[0]), steps[1..], h + Met(steps[0]));
      HeardCons(h, steps);
    }
  }

  lemma Story(steps: seq<Step>)
    requires Runs(START, steps)
    ensures StoryInv(Exec(START, steps), Heard(steps))
  {
    assert StoryInv(START, []);
    StoryAlways(START, steps, []);
    assert [] + Heard(steps) == Heard(steps);
  }

  // ---------------------------------------------------------------------------------------
  // Main results
  // ---------------------------------------------------------------------------------------

  /** In every interleaving, for as long as it takes: docker starts nothing for an exec run, a run
      whose rules were refused, or a run not yet past its rules; an allowlist run has its agent
      only once its rules were good and written and its network and its connected proxy are up;
      a run with another policy never has a network or a proxy of its own. */
  lemma AllowlistRunsAreGuarded(steps: seq<Step>)
    requires Runs(START, steps)
    ensures var h, created := Heard(steps), Exec(START, steps).created;
            && (AllowlistPolicy in h && Agent in created ==>
                  && Network in created && Proxy in created
                  && RulesGood in h && RulesWritten in h && ProxyConnected in h
                  && RulesEmpty !in h && RulesInvalid !in h)
            && (OtherPolicy in h ==> Network !in created && Proxy !in created)
            && (RulesEmpty in h || RulesInvalid in h ==> created == {})
            && (ExecRunner in h ==> created == {})
            && (created != {} ==> DockerRunner in h && (AllowlistPolicy in h || OtherPolicy in h))
            && !(AllowlistPolicy in h && OtherPolicy in h)
  {
    Story(steps);
    var h := Heard(steps);
    assert Turns(AllowlistPolicy) && Turns(OtherPolicy) && Turns(DockerRunner) && Turns(ExecRunner);
    assert Turns(RulesGood) && Turns(RulesWritten) && Turns(ProxyConnected);
  }

  /** The completion of a process with this code: the code is cut to 32 bits. */
  predicate EndsWith(e: Event, exit: int) {
    e.Completed? && (e.success <==> exit == 0)
    && -0x8000_0000 <= e.code < 0x8000_0000 && (e.code - exit) % 0x1_0000_0000 == 0
  }

  /** What a run says, in this order: that it is starting; that it is running, if its process came
      up; the one failure it met, under its code; and its completion. A failure completes with the
      failure's code. Without one, the run completes with the code of its process, or with 1 if
      waiting failed with code 0. */
  ghost predicate WholeStory(events: seq<Event>, h: seq<Outcome>) {
    var blame, end, n := LastBlame(h), LastEnd(h), |events| - 1;
    && n >= 1 && events[n].Completed?
    && events[..n] == [Status(Starting)]
                      + (if ProcessUp in h || AgentUp in h then [Status(Running)] else [])
                      + (if blame.Blame? then [Failure(blame.error)] else [])
    && (blame.Blame? ==> events[n] == Completed(false, blame.exit))
    && (blame.NoBlame? ==> end.Ended? && EndsWith(events[n], if end == Ended(true, 0) then 1 else end.exit))
    && (forall o | o in h && BlameOf(o).Blame? :: BlameOf(o) == blame)
  }

  /** A run that no cancel stopped and that did not leave silently tells the whole story of what
      its handler met. */
  lemma RunTellsWhatHappened(steps: seq<Step>)
    requires Runs(START, steps)
    requires var s := Exec(START, steps); Gone(s) && !s.winner.TheCancel? && (s.winner.TheRun? || s.workspaceFailed)
    ensures WholeStory(Exec(START, steps).emitted, Heard(steps))
  {
    StoryOfTale(steps);
    ToldWhole(Exec(START, steps), Heard(steps));
  }

  lemma StoryOfTale(steps: seq<Step>)
    requires Runs(START, steps)
    ensures TaleInv(Exec(START, steps), Heard(steps))
  {
    Story(steps);
  }

  lemma ToldWhole(s: State, h: seq<Outcome>)
    requires TaleInv(s, h) && Gone(s) && !s.winner.TheCancel? && (s.winner.TheRun? || s.workspaceFailed)
    ensures WholeStory(s.emitted, h)
  {
    assert SaidAt(s.pc, TaleOf(h), Ran(h)) == Said(true, Ran(h), LastBlame(h), true);
    ClosedLines(h);
  }

  lemma ClosedLines(h: seq<Outcome>)
    requires Settled(TaleOf(h)) && OneBlame(h)
    ensures WholeStory(Lines(Said(true, Ran(h), LastBlame(h), true), TaleOf(h)), h)
  {
    LastBlameIsSmall(h);
    WireCodeIsCut(ExitOf(TaleOf(h)));
  }

  lemma {:induction false} LastBlameIsSmall(h: seq<Outcome>)
    ensures LastBlame(h).Blame? ==> 1 <= LastBlame(h).exit <= 4
  {
    if h != [] {
      LastBlameIsSmall(h[..|h| - 1]);
    }
  }

  lemma WireCodeIsCut(exit: int)
    ensures -0x8000_0000 <= WireCode(exit) < 0x8000_0000 && (WireCode(exit) - exit) % 0x1_0000_0000 == 0
    ensures 0 <= exit < 0x8000_0000 ==> WireCode(exit) == exit
  {
    var m, q := 0x1_0000_0000, exit / 0x1_0000_0000;
    assert exit == m * q + exit % m;
    assert WireCode(exit) - exit == m * (-q) || WireCode(exit) - exit == m * (-q - 1);
  }

  // ---------------------------------------------------------------------------------------
  // Cancels and stopped runs
  // ---------------------------------------------------------------------------------------

  ghost predicate CancelSaid(events: seq<Event>) {
    exists p, q | 0 <= p < q < |events| :: events[p] == Status(Cancelled) && events[q] == Completed(false, 137)
  }

  ghost predicate CancelInv(s: State) {
    match s.winner
    case TheCancel(i) =>
      i in s.cancels && (
        match s.cancels[i]
        case SendCompleted => Status(Cancelled) in s.emitted
        case Done(_) => CancelSaid(s.emitted)
        case _ => Status(Cancelled) !in s.emitted)
    case _ => Status(Cancelled) !in s.emitted
  }

  lemma SaidStays(events: seq<Event>, more: seq<Event>)
    ensures CancelSaid(events) ==> CancelSaid(events + more)
    ensures Status(Cancelled) in events + more <==> Status(Cancelled) in events || Status(Cancelled) in more
    ensures Status(Cancelled) in events && more == [Completed(false, 137)] ==> CancelSaid(events + more)
  {
    var all := events + more;
    if CancelSaid(events) {
      var p, q :| 0 <= p < q < |events| && events[p] == Status(Cancelled) && events[q] == Completed(false, 137);
      assert all[p] == events[p] && all[q] == events[q];
    }
    if Status(Cancelled) in events && more == [Completed(false, 137)] {
      var p :| 0 <= p < |events| && events[p] == Status(Cancelled);
      assert all[p] == events[p] && all[|events|] == Completed(false, 137);
    }
  }

  lemma WinnerTold(s: State, i: nat, m: CancelMove)
    requires CancelInv(s) && s.winner == TheCancel(i) && i in s.cancels && !s.cancels[i].Done?
    requires m == MoveOfCancel(s, s.cancels[i]) && Working(s.cancels[i])
    ensures CancelInv(CommitCancel(s, i, m))
  {
    SaidStays(s.emitted, m.says);
  }

  lemma OtherTold(s: State, i: nat, m: CancelMove)
    requires WinnerInv(s) && CancelInv(s) && i in s.cancels && !s.cancels[i].Done? && !Working(s.cancels[i])
    requires m.says == [] && (m.wins ==> !s.done && m.pc.CancelContext?)
    ensures CancelInv(CommitCancel(s, i, m))
  {
    assert s.emitted + [] == s.emitted;
  }

  lemma CancelStepTold(s: State, i: nat)
    requires WinnerInv(s) && CancelInv(s) && Enabled(s, CancelStep(i))
    ensures CancelInv(Apply(s, CancelStep(i)))
  {
    var m := MoveOfCancel(s, s.cancels[i]);
    if Working(s.cancels[i]) {
      OnlyTheWinnerWorks(s, i);
      WinnerTold(s, i, m);
    } else {
      OtherTold(s, i, m);
    }
  }

  lemma CancelInvStep(s: State, step: Step)
    requires WinnerInv(s) && CancelInv(s) && Enabled(s, step)
    ensures CancelInv(Apply(s, step))
  {
    match step
    case RunStep(o) =>
      ModestRun(s.pc, o, FlagsOf(s));
      SaidStays(s.emitted, RunMove(s, o).says);
      FairRun(s.pc, o, FlagsOf(s));
    case CancelStep(i) => CancelStepTold(s, i);
    case SpawnCancel(_) =>
    case CancelParent =>
  }

  /** Cancels find the run from its first step to its last. */
  predicate Registered(s: State) {
    s.registered <==> !s.pc.Begin? && !s.pc.Returned?
  }

  /** The smaller things a step of the handler does not do. */
  predicate Modest(pc: RunPc, o: Outcome, f: Flags, m: Move) {
    && (m.note.Registers? <==> pc.Begin?) && (m.note.Deregisters? <==> pc.Leaving?)
    && !m.pc.Begin? && (m.pc.Returned? <==> pc.Leaving? || pc.Returned?)
    && Status(Cancelled) !in m.says
    && (!f.live ==> m.makes == {})
  }

  lemma ModestInSetup(pc: RunPc, o: Outcome, f: Flags)
    requires Fits(pc, o, f) && InSetup(pc)
    ensures Modest(pc, o, f, SetupMove(pc, o, f))
  {
  }

  lemma ModestInExec(pc: RunPc, o: Outcome, f: Flags)
    requires Fits(pc, o, f) && InExec(pc)
    ensures Modest(pc, o, f, ExecMove(pc, o, f))
  {
  }

  lemma ModestInPolicy(pc: RunPc, o: Outcome, f: Flags)
    requires Fits(pc, o, f) && InPolicy(pc)
    ensures Modest(pc, o, f, PolicyMove(pc, o))
  {
  }

  lemma ModestInNetwork(pc: RunPc, o: Outcome, f: Flags)
    requires Fits(pc, o, f) && InNetwork(pc)
    ensures Modest(pc, o, f, NetworkMove(pc, o))
  {
  }

  lemma ModestInProxy(pc: RunPc, o: Outcome, f: Flags)
    requires Fits(pc, o, f) && InProxy(pc)
    ensures Modest(pc, o, f, ProxyMove(pc, o))
  {
  }

  lemma ModestInAgent(pc: RunPc, o: Outcome, f: Flags)
    requires Fits(pc, o, f) && InAgent(pc)
    ensures Modest(pc, o, f, AgentMove(pc, o, f))
  {
  }

  lemma ModestAtEnd(pc: RunPc, o: Outcome, f: Flags)
    requires Fits(pc, o, f) && Ending(pc)
    ensures Modest(pc, o, f, EndMove(pc, f))
  {
  }

  lemma ModestRun(pc: RunPc, o: Outcome, f: Flags)
    requires Fits(pc, o, f)
    ensures Modest(pc, o, f, MoveFrom(pc, o, f))
  {
    if InSetup(pc) {
      ModestInSetup(pc, o, f);
      assert MoveFrom(pc, o, f) == SetupMove(pc, o, f);
    } else if InExec(pc) {
      ModestInExec(pc, o, f);
      assert MoveFrom(pc, o, f) == ExecMove(pc, o, f);
    } else if InPolicy(pc) {
      ModestInPolicy(pc, o, f);
      assert MoveFrom(pc, o, f) == PolicyMove(pc, o);
    } else if InNetwork(pc) {
      ModestInNetwork(pc, o, f);
      assert MoveFrom(pc, o, f) == NetworkMove(pc, o);
    } else if InProxy(pc) {
      ModestInProxy(pc, o, f);
      assert MoveFrom(pc, o, f) == ProxyMove(pc, o);
    } else if InAgent(pc) {
      ModestInAgent(pc, o, f);
      assert MoveFrom(pc, o, f) == AgentMove(pc, o, f);
    } else {
      ModestAtEnd(pc, o, f);
      assert MoveFrom(pc, o, f) == EndMove(pc, f);
    }
  }

  lemma RegisteredStep(s: State, step: Step)
    requires Registered(s) && Enabled(s, step)
    ensures Registered(Apply(s, step))
  {
    if step.RunStep? {
      ModestRun(s.pc, step.o, FlagsOf(s));
    }
  }

  lemma {:induction false} CancelsAlways(s: State, steps: seq<Step>)
    requires Inv(s) && CancelInv(s) && Registered(s) && Runs(s, steps)
    ensures CancelInv(Exec(s, steps)) && Registered(Exec(s, steps))
    decreases |steps|
  {
    if steps != [] {
      InvStep(s, steps[0]);
      CancelInvStep(s, steps[0]);
      RegisteredStep(s, steps[0]);
      CancelsAlways(Apply(s, steps[0]), steps[1..]);
    }
  }

  /** Once all is at rest, the word that a run was cancelled, followed by its completion with code
      137, has been sent if a cancel won the swap, and no such word otherwise. */
  lemma CancelTells(s: State)
    requires Reachable(s) && Quiet(s)
    ensures s.winner.TheCancel? ==> CancelSaid(s.emitted)
    ensures !s.winner.TheCancel? ==> Status(Cancelled) !in s.emitted
  {
    var steps :| Runs(START, steps) && Exec(START, steps) == s;
    CancelsAlways(START, steps);
    ReachableInv(s);
  }

  /** A cancel that looks for the run finds it exactly while its handler is under way, and stops it
      exactly if nobody has won the swap by the time it gets there. */
  lemma CancelFindsRun(s: State, i: nat)
    requires Reachable(s) && Enabled(s, CancelStep(i))
    ensures var pc, pc' := s.cancels[i], Apply(s, CancelStep(i)).cancels[i];
            && (pc.Lookup? ==> pc' == if !s.pc.Begin? && !s.pc.Returned? then Swap else Done(false))
            && (pc.Swap? ==> if s.done then pc' == Done(false)
                             else Apply(s, CancelStep(i)).done && Apply(s, CancelStep(i)).winner == TheCancel(i))
  {
    var steps :| Runs(START, steps) && Exec(START, steps) == s;
    CancelsAlways(START, steps);
  }

  lemma StoppedStep(s: State, step: Step)
    requires Enabled(s, step) && ContextDead(s) && !s.beganLive
    ensures var s' := Apply(s, step); s'.created == s.created && ContextDead(s') && !s'.beganLive
    ensures forall o | o in Met(step) :: !o.ProcessUp? && !o.NetworkUp? && !o.ProxyUp? && !o.AgentUp?
  {
    if step.RunStep? {
      ModestRun(s.pc, step.o, FlagsOf(s));
    }
  }

  /** Once the context is dead and the handler has moved since, nothing comes up any more: no
      process, no network, no container. */
  lemma {:induction false} StoppedRunStartsNothing(s: State, steps: seq<Step>)
    requires Runs(s, steps) && ContextDead(s) && !s.beganLive
    ensures Exec(s, steps).created == s.created
    ensures forall o | o in Heard(steps) :: !o.ProcessUp? && !o.NetworkUp? && !o.ProxyUp? && !o.AgentUp?
    decreases |steps|
  {
    if steps != [] {
      StoppedStep(s, steps[0]);
      StoppedRunStartsNothing(Apply(s, steps[0]), steps[1..]);
    }
  }

  /** Where a stopped run leaves without a word: before it says it is starting, before it opens a
      command's pipes, and when starting or waiting has failed. */
  lemma StoppedRunLeavesSilently(s: State, o: Outcome)
    requires OutcomeFits(s, o) && (ContextDead(s) || s.done)
    requires s.pc.CheckEntry? || s.pc.ExecCheck? || o.ProcessFailed? || o.WaitFailed?
             || (s.pc.AgentRecord? && !s.pc.started)
    ensures var s' := Apply(s, RunStep(o)); s'.pc == Leaving && s'.emitted == s.emitted
  {
  }
}

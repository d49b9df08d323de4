/** One run on a worker (pkg/worker/worker.go): the run handler and any number of cancel
    handlers for its stream, stepping between the accesses they share. The two meet at a
    compare-and-swap on `done`; whoever wins it sends the COMPLETED event. */
module RunLifecycle {

  datatype Resource = Network | Proxy | Agent

  datatype Stage = Starting | Running | Cancelled

  /** The codes of error events, under their own names. */
  datatype ErrorCode =
    | WORKSPACE_CREATE_FAILED | RUNTIME_NOT_CONFIGURED | RUNTIME_SPEC_BUILD_FAILED | RUNTIME_IMAGE_EMPTY
    | EXEC_COMMAND_EMPTY | EXEC_STDOUT_PIPE_FAILED | EXEC_STDERR_PIPE_FAILED | EXEC_START_FAILED
    | NETWORK_ALLOWLIST_EMPTY | NETWORK_ALLOWLIST_INVALID | DOCKER_NETWORK_CREATE_FAILED
    | WORKSPACE_WRITE_FAILED | DOCKER_NET_POLICY_FAILED | DOCKER_RUN_FAILED | DOCKER_WAIT_FAILED

  /** Completed is the event as sent: its flag and its 32-bit code. */
  datatype Event = Status(stage: Stage) | Failure(error: ErrorCode) | Completed(success: bool, code: int)

  /** What follows once the proxy and network are gone. The flag and the exit code are passed
      on separately, as each exit of the source passes them. */
  datatype After = ThenReport(error: ErrorCode, success: bool, exit: int) | ThenDecide(success: bool, exit: int)

  datatype RunPc =
    | Begin
    | CheckEntry
    | MakeWorkspace
    | WorkspaceFailed
    | WorkspaceCompleting
    | Configure
    | ExecCheck
    | ExecPipes
    | ExecStart
    | ExecWait
    | ChooseNetwork
    | CheckRules
    | NetCreate
    | NetRecord
    | WriteRules
    | ProxyStart
    | ProxyRecord(started: bool)
    | ProxyConnect
    | AgentStart(policy: bool)
    | AgentRecord(policy: bool, started: bool, canceled: bool)
    | AgentWait(policy: bool)
    | RemovingAgent(policy: bool, exit: int)
    | RemovingProxy(after: After)
    | RemovingNet(after: After)
    | Reporting(error: ErrorCode, success: bool, exit: int)
    | Deciding(success: bool, exit: int)
    | Completing(success: bool, exit: int)
    | Leaving
    | Returned

  datatype CancelPc =
    | Lookup
    | Swap
    | CancelContext
    | RemoveAgent
    | RemoveProxy
    | RemoveNet
    | SendStatus
    | SendCompleted
    | Done(won: bool)

  datatype Winner = NoOne | TheRun | TheCancel(i: nat)

  /** What waiting for the process returned: whether with an error, and its exit code. */
  datatype WaitResult = NotEnded | Ended(failed: bool, exit: int)

  /** `known` are the resources the run handler has recorded for cancels to see; `created` and
      `removed` are the resources started and those whose removal was asked for; `beganLive`
      says whether the context was live when the handler came to where it is. The last six
      fields are bookkeeping that no step reads; `missed` are the resources the winning cancel
      did not find recorded. */
  datatype State = State(
    pc: RunPc,
    cancels: map<nat, CancelPc>,
    registered: bool,
    done: bool,
    runCancelled: bool,
    parentCancelled: bool,
    known: set<Resource>,
    created: set<Resource>,
    removed: set<Resource>,
    emitted: seq<Event>,
    beganLive: bool,
    winner: Winner,
    workspaceFailed: bool,
    rulesFailed: bool,
    waitFailed: bool,
    wait: WaitResult,
    missed: set<Resource>)

  const START := State(Begin, map[], false, false, false, false,
                       {}, {}, {}, [], true, NoOne, false, false, false, NotEnded, {})

  /** How a step of the run handler turns out: what the world answers at that place. `canceled`
      is an error that wraps context.Canceled. Good is for steps that cannot go wrong. */
  datatype Outcome =
    | Good
    | WorkspaceMade | WorkspaceRefused
    | RuntimeMissing | SpecFailed | CommandEmpty | ExecRunner | ImageEmpty | DockerRunner
    | PipesOpen | StdoutPipeFailed | StderrPipeFailed
    | ProcessUp | ProcessFailed(canceled: bool)
    | ProcessEnded(failed: bool, exit: int)
    | AllowlistPolicy | OtherPolicy
    | RulesGood | RulesEmpty | RulesInvalid
    | NetworkUp | NetworkFailed
    | RulesWritten | EncodeFailed | WriteFailed
    | ProxyUp | ProxyFailed
    | ProxyConnected | ConnectFailed
    | AgentUp | AgentFailed(canceled: bool)
    | AgentExited(exit: int) | WaitFailed(canceled: bool)

  datatype Step = RunStep(o: Outcome) | CancelStep(i: nat) | SpawnCancel(i: nat) | CancelParent

  /** ctx.Err() != nil. */
  predicate ContextDead(s: State) {
    s.runCancelled || s.parentCancelled
  }

  /** A process's own exit code: -1 when a signal ended it, 32 bits at most otherwise. */
  predicate IsProcessExit(exit: int) {
    -1 <= exit < 0x1_0000_0000
  }

  /** The number docker prints is read as a 64-bit int. */
  predicate IsPrintedExit(exit: int) {
    -0x8000_0000_0000_0000 <= exit < 0x8000_0000_0000_0000
  }

  /** What a step of the run handler reads of the flags: ctx.Err() != nil, `done`, and whether
      the context was live when the step began. */
  datatype Flags = Flags(dead: bool, done: bool, live: bool) {
    /** The test before a silent return. Both reads are of flags that only rise, so reading them
        one after the other is reading them at once. */
    predicate Stopped() { dead || done }
  }

  function FlagsOf(s: State): Flags {
    Flags(ContextDead(s), s.done, s.beganLive)
  }

  /** The outcomes a step can have. A command bound to a context that is already dead when it
      is started fails. */
  predicate Fits(pc: RunPc, o: Outcome, f: Flags) {
    match pc
    case MakeWorkspace => o.WorkspaceMade? || o.WorkspaceRefused?
    case Configure =>
      o.RuntimeMissing? || o.SpecFailed? || o.CommandEmpty? || o.ExecRunner? || o.ImageEmpty? || o.DockerRunner?
    case ExecPipes => o.PipesOpen? || o.StdoutPipeFailed? || o.StderrPipeFailed?
    case ExecStart => (o.ProcessUp? && f.live) || (o.ProcessFailed? && (o.canceled ==> f.dead))
    case ExecWait => o.ProcessEnded? && IsProcessExit(o.exit)
    case ChooseNetwork => o.AllowlistPolicy? || o.OtherPolicy?
    case CheckRules => o.RulesEmpty? || o.RulesInvalid? || o.RulesGood?
    case NetCreate => (o.NetworkUp? && f.live) || o.NetworkFailed?
    case WriteRules => o.EncodeFailed? || o.WriteFailed? || o.RulesWritten?
    case ProxyStart => (o.ProxyUp? && f.live) || o.ProxyFailed?
    case ProxyConnect => (o.ProxyConnected? && f.live) || o.ConnectFailed?
    case AgentStart(_) => (o.AgentUp? && f.live) || (o.AgentFailed? && (o.canceled ==> f.dead))
    case AgentWait(_) =>
      (o.AgentExited? && IsPrintedExit(o.exit) && f.live) || (o.WaitFailed? && (o.canceled ==> f.dead))
    case Returned => false
    case _ => o.Good?
  }

  predicate OutcomeFits(s: State, o: Outcome) {
    Fits(s.pc, o, FlagsOf(s))
  }

  predicate Enabled(s: State, step: Step) {
    match step
    case RunStep(o) => OutcomeFits(s, o)
    case CancelStep(i) => i in s.cancels && !s.cancels[i].Done?
    case SpawnCancel(i) => i !in s.cancels
    case CancelParent => true
  }

  datatype Note = Plain | Registers | Deregisters | Learns(r: Resource) | Wins | WorkspaceBad | RulesBad | WaitBad
                  | Exits(failed: bool, exit: int)

  /** One step of the run handler: where it goes, what it sends, starts, removes and records. */
  datatype Move = Move(pc: RunPc, says: seq<Event>, makes: set<Resource>, drops: set<Resource>, note: Note)

  function Go(pc: RunPc): Move { Move(pc, [], {}, {}, Plain) }
  function Say(e: Event, pc: RunPc): Move { Move(pc, [e], {}, {}, Plain) }
  function Make(r: Resource, pc: RunPc): Move { Move(pc, [], {r}, {}, Plain) }
  function Drop(r: Resource, pc: RunPc): Move { Move(pc, [], {}, {r}, Plain) }
  function Report(error: ErrorCode, success: bool, exit: int): Move { Go(Reporting(error, success, exit)) }

  /** Go's conversion of an int to int32: the low 32 bits, as a signed number. */
  function WireCode(exit: int): int {
    var low := exit % 0x1_0000_0000;
    if low < 0x8000_0000 then low else low - 0x1_0000_0000
  }

  // The phases of the run handler.

  predicate InSetup(pc: RunPc) {
    pc.Begin? || pc.CheckEntry? || pc.MakeWorkspace? || pc.WorkspaceFailed? || pc.WorkspaceCompleting? || pc.Configure?
  }

  predicate InExec(pc: RunPc) {
    pc.ExecCheck? || pc.ExecPipes? || pc.ExecStart? || pc.ExecWait?
  }

  predicate InPolicy(pc: RunPc) {
    pc.ChooseNetwork? || pc.CheckRules?
  }

  predicate InNetwork(pc: RunPc) {
    pc.NetCreate? || pc.NetRecord? || pc.WriteRules?
  }

  predicate InProxy(pc: RunPc) {
    pc.ProxyStart? || pc.ProxyRecord? || pc.ProxyConnect?
  }

  predicate InAgent(pc: RunPc) {
    pc.AgentStart? || pc.AgentRecord? || pc.AgentWait?
  }

  predicate Ending(pc: RunPc) {
    !InSetup(pc) && !InExec(pc) && !InPolicy(pc) && !InNetwork(pc) && !InProxy(pc) && !InAgent(pc)
  }

  function SetupMove(pc: RunPc, o: Outcome, f: Flags): Move
    requires InSetup(pc)
  {
    match pc
    case Begin => Go(CheckEntry).(note := Registers)
    case CheckEntry => if f.Stopped() then Go(Leaving) else Say(Status(Starting), MakeWorkspace)
    case MakeWorkspace => if o.WorkspaceRefused? then Go(WorkspaceFailed).(note := WorkspaceBad) else Go(Configure)
    case WorkspaceFailed => Say(Failure(WORKSPACE_CREATE_FAILED), WorkspaceCompleting)
    case WorkspaceCompleting => Say(Completed(false, 1), Leaving)
    case Configure => (
      match o
      case RuntimeMissing => Report(RUNTIME_NOT_CONFIGURED, false, 2)
      case SpecFailed => Report(RUNTIME_SPEC_BUILD_FAILED, false, 2)
      case CommandEmpty => Report(EXEC_COMMAND_EMPTY, false, 3)
      case ExecRunner => Go(ExecCheck)
      case ImageEmpty => Report(RUNTIME_IMAGE_EMPTY, false, 2)
      case _ => Go(ChooseNetwork))
  }

  function ExecMove(pc: RunPc, o: Outcome, f: Flags): Move
    requires InExec(pc) && (pc.ExecWait? ==> o.ProcessEnded?)
  {
    match pc
    case ExecCheck => Go(if f.Stopped() then Leaving else ExecPipes)
    case ExecPipes => (
      match o
      case StdoutPipeFailed => Report(EXEC_STDOUT_PIPE_FAILED, false, 3)
      case StderrPipeFailed => Report(EXEC_STDERR_PIPE_FAILED, false, 3)
      case _ => Go(ExecStart))
    case ExecStart =>
      if o.ProcessUp? then Say(Status(Running), ExecWait)
      else if f.Stopped() || o == ProcessFailed(true) then Go(Leaving)
      else Report(EXEC_START_FAILED, false, 3)
    case ExecWait =>
      var exit := if o.failed && o.exit == 0 then 1 else o.exit;
      Go(Deciding(exit == 0, exit)).(note := Exits(o.failed, o.exit))
  }

  function PolicyMove(pc: RunPc, o: Outcome): Move
    requires InPolicy(pc)
  {
    match pc
    case ChooseNetwork => Go(if o.AllowlistPolicy? then CheckRules else AgentStart(false))
    case CheckRules => (
      match o
      case RulesEmpty => Report(NETWORK_ALLOWLIST_EMPTY, false, 2)
      case RulesInvalid => Report(NETWORK_ALLOWLIST_INVALID, false, 2)
      case _ => Go(NetCreate))
  }

  function NetworkMove(pc: RunPc, o: Outcome): Move
    requires InNetwork(pc)
  {
    match pc
    case NetCreate =>
      if o.NetworkFailed? then Report(DOCKER_NETWORK_CREATE_FAILED, false, 3) else Make(Network, NetRecord)
    case NetRecord => Go(WriteRules).(note := Learns(Network))
    case WriteRules => (
      match o
      case EncodeFailed => Report(NETWORK_ALLOWLIST_INVALID, false, 2).(note := RulesBad)
      case WriteFailed => Report(WORKSPACE_WRITE_FAILED, false, 1).(note := RulesBad)
      case _ => Go(ProxyStart))
  }

  function ProxyMove(pc: RunPc, o: Outcome): Move
    requires InProxy(pc)
  {
    match pc
    case ProxyStart => if o.ProxyFailed? then Go(ProxyRecord(false)) else Make(Proxy, ProxyRecord(true))
    case ProxyRecord(started) =>
      if started then Go(ProxyConnect).(note := Learns(Proxy))
      else Go(RemovingNet(ThenReport(DOCKER_NET_POLICY_FAILED, false, 3)))
    case ProxyConnect =>
      Go(if o.ConnectFailed? then RemovingProxy(ThenReport(DOCKER_NET_POLICY_FAILED, false, 3))
         else AgentStart(true))
  }

  function AgentMove(pc: RunPc, o: Outcome, f: Flags): Move
    requires InAgent(pc)
  {
    match pc
    case AgentStart(policy) =>
      if o.AgentUp? then Make(Agent, AgentRecord(policy, true, false))
      else Go(AgentRecord(policy, false, o == AgentFailed(true)))
    case AgentRecord(policy, started, canceled) =>
      if started then Say(Status(Running), AgentWait(policy)).(note := Learns(Agent))
      else if f.Stopped() || canceled then Go(Leaving)
      else if policy then Go(RemovingProxy(ThenReport(DOCKER_RUN_FAILED, false, 3)))
      else Report(DOCKER_RUN_FAILED, false, 3)
    case AgentWait(policy) =>
      if o.AgentExited? then Go(RemovingAgent(policy, o.exit)).(note := Exits(false, o.exit))
      else if f.Stopped() || o == WaitFailed(true) then Go(Leaving)
      else if policy then Go(RemovingProxy(ThenReport(DOCKER_WAIT_FAILED, false, 4))).(note := WaitBad)
      else Report(DOCKER_WAIT_FAILED, false, 4).(note := WaitBad)
  }

  function EndMove(pc: RunPc, f: Flags): Move
    requires Ending(pc)
  {
    match pc
    case RemovingAgent(policy, exit) =>
      Drop(Agent, if policy then RemovingProxy(ThenDecide(exit == 0, exit)) else Deciding(exit == 0, exit))
    case RemovingProxy(after) => Drop(Proxy, RemovingNet(after))
    case RemovingNet(after) =>
      Drop(Network, if after.ThenDecide? then Deciding(after.success, after.exit)
                    else Reporting(after.error, after.success, after.exit))
    case Reporting(error, success, exit) => Say(Failure(error), Deciding(success, exit))
    case Deciding(success, exit) => if f.done then Go(Leaving) else Go(Completing(success, exit)).(note := Wins)
    case Completing(success, exit) => Say(Completed(success, WireCode(exit)), Leaving)
    case Leaving => Go(Returned).(note := Deregisters)
    case _ => Go(Returned)
  }

  function MoveFrom(pc: RunPc, o: Outcome, f: Flags): Move
    requires Fits(pc, o, f)
  {
    if InSetup(pc) then SetupMove(pc, o, f)
    else if InExec(pc) then ExecMove(pc, o, f)
    else if InPolicy(pc) then PolicyMove(pc, o)
    else if InNetwork(pc) then NetworkMove(pc, o)
    else if InProxy(pc) then ProxyMove(pc, o)
    else if InAgent(pc) then AgentMove(pc, o, f)
    else EndMove(pc, f)
  }

  function RunMove(s: State, o: Outcome): Move
    requires OutcomeFits(s, o)
  {
    MoveFrom(s.pc, o, FlagsOf(s))
  }

  function WaitAfter(wait: WaitResult, note: Note): WaitResult {
    match note
    case Exits(failed, exit) => Ended(failed, exit)
    case WaitBad => Ended(true, 0)
    case _ => wait
  }

  function Commit(s: State, m: Move): State {
    s.(pc := m.pc,
       emitted := s.emitted + m.says,
       created := s.created + m.makes,
       removed := s.removed + m.drops,
       registered := if m.note.Registers? then true else if m.note.Deregisters? then false else s.registered,
       known := if m.note.Learns? then s.known + {m.note.r} else s.known,
       done := s.done || m.note.Wins?,
       winner := if m.note.Wins? then TheRun else s.winner,
       workspaceFailed := s.workspaceFailed || m.note.WorkspaceBad?,
       rulesFailed := s.rulesFailed || m.note.RulesBad?,
       waitFailed := s.waitFailed || m.note.WaitBad?,
       wait := WaitAfter(s.wait, m.note),
       beganLive := !ContextDead(s))
  }

  /** One step of a cancel handler. */
  datatype CancelMove = CancelMove(
    pc: CancelPc, says: seq<Event>, drops: set<Resource>, misses: set<Resource>, wins: bool, kills: bool)

  function Next(pc: CancelPc): CancelMove { CancelMove(pc, [], {}, {}, false, false) }

  /** rs.proc, rs.netProc and rs.netName are removed if they are set when they are read. */
  function DropKnown(s: State, r: Resource, pc: CancelPc): CancelMove {
    if r in s.known then Next(pc).(drops := {r}) else Next(pc).(misses := {r})
  }

  function MoveOfCancel(s: State, pc: CancelPc): CancelMove {
    match pc
    case Lookup => Next(if s.registered then Swap else Done(false))
    case Swap => if s.done then Next(Done(false)) else Next(CancelContext).(wins := true)
    case CancelContext => Next(RemoveAgent).(kills := true)
    case RemoveAgent => DropKnown(s, Agent, RemoveProxy)
    case RemoveProxy => DropKnown(s, Proxy, RemoveNet)
    case RemoveNet => DropKnown(s, Network, SendStatus)
    case SendStatus => Next(SendCompleted).(says := [Status(Cancelled)])
    case SendCompleted => Next(Done(true)).(says := [Completed(false, 137)])
    case Done(won) => Next(Done(won))
  }

  function CommitCancel(s: State, i: nat, m: CancelMove): State {
    s.(cancels := s.cancels[i := m.pc],
       emitted := s.emitted + m.says,
       removed := s.removed + m.drops,
       missed := s.missed + m.misses,
       done := s.done || m.wins,
       winner := if m.wins then TheCancel(i) else s.winner,
       runCancelled := s.runCancelled || m.kills)
  }

  function Apply(s: State, step: Step): State
    requires Enabled(s, step)
  {
    match step
    case RunStep(o) => Commit(s, RunMove(s, o))
    case CancelStep(i) => CommitCancel(s, i, MoveOfCancel(s, s.cancels[i]))
    case SpawnCancel(i) => s.(cancels := s.cancels[i := Lookup])
    case CancelParent => s.(parentCancelled := true)
  }

  predicate Runs(s: State, steps: seq<Step>)
    decreases |steps|
  {
    steps == [] || (Enabled(s, steps[0]) && Runs(Apply(s, steps[0]), steps[1..]))
  }

  function Exec(s: State, steps: seq<Step>): State
    requires Runs(s, steps)
    decreases |steps|
  {
    if steps == [] then s else Exec(Apply(s, steps[0]), steps[1..])
  }

  ghost predicate Reachable(s: State) {
    exists steps :: Runs(START, steps) && Exec(START, steps) == s
  }

  /** The handler and every cancel that was started have returned. */
  ghost predicate Quiet(s: State) {
    s.pc.Returned? && forall i | i in s.cancels :: s.cancels[i].Done?
  }

  function Completions(events: seq<Event>): nat {
    if events == [] then 0
    else Completions(events[..|events| - 1]) + (if events[|events| - 1].Completed? then 1 else 0)
  }

  lemma CompletionsSnoc(events: seq<Event>, e: Event)
    ensures Completions(events + [e]) == Completions(events) + (if e.Completed? then 1 else 0)
  {
    assert (events + [e])[..|events|] == events;
  }

  // ---------------------------------------------------------------------------------------
  // Who completes
  // ---------------------------------------------------------------------------------------

  predicate Gone(s: State) {
    s.pc.Leaving? || s.pc.Returned?
  }

  /** Past its swap: this cancel won. */
  predicate Working(pc: CancelPc) {
    !pc.Lookup? && !pc.Swap? && pc != Done(false)
  }

  ghost predicate WinnerInv(s: State) {
    && (s.done <==> !s.winner.NoOne?)
    && (s.runCancelled ==> s.done)
    && (s.winner.TheRun? ==> s.pc.Completing? || Gone(s))
    && (s.pc.Completing? ==> s.winner.TheRun?)
    && (s.winner.TheCancel? ==> s.winner.i in s.cancels && Working(s.cancels[s.winner.i]))
    && (forall i | i in s.cancels && Working(s.cancels[i]) :: s.winner == TheCancel(i))
    && (s.workspaceFailed ==> !s.winner.TheRun? && (s.pc.WorkspaceFailed? || s.pc.WorkspaceCompleting? || Gone(s)))
    && (s.pc.WorkspaceFailed? || s.pc.WorkspaceCompleting? ==> s.workspaceFailed)
    && (Gone(s) && !s.workspaceFailed ==> s.done || s.parentCancelled)
    && (s.pc.AgentRecord? && s.pc.canceled ==> ContextDead(s))
  }

  function CancelShare(s: State): nat {
    if s.winner.TheCancel? && s.winner.i in s.cancels && s.cancels[s.winner.i].Done? then 1 else 0
  }

  function Expected(s: State): nat {
    (if s.winner.TheRun? && Gone(s) then 1 else 0)
    + CancelShare(s)
    + (if s.workspaceFailed && Gone(s) then 1 else 0)
  }

  /** What the winner bookkeeping needs to know of a run step. */
  ghost predicate FairMove(pc: RunPc, f: Flags, m: Move) {
    && (m.note.Wins? <==> m.pc.Completing?)
    && (m.note.Wins? ==> !f.done && pc.Deciding?)
    && (m.note.WorkspaceBad? <==> m.pc.WorkspaceFailed?)
    && (m.pc.WorkspaceFailed? ==> pc.MakeWorkspace?)
    && (m.pc.WorkspaceCompleting? <==> pc.WorkspaceFailed?)
    && (Completes(pc) ==> m.pc.Leaving?)
    && (m.pc.Returned? <==> pc.Leaving? || pc.Returned?)
    && (m.pc.Leaving? ==> Completes(pc) || f.Stopped())
    && (m.pc.AgentRecord? && m.pc.canceled ==> f.dead)
    && Completions(m.says) == (if Completes(pc) then 1 else 0)
    && |m.says| <= 1
  }

  /** The steps of the run handler that send COMPLETED. */
  predicate Completes(pc: RunPc) {
    pc.Completing? || pc.WorkspaceCompleting?
  }

  lemma OneCompletion(e: Event)
    ensures Completions([e]) == if e.Completed? then 1 else 0
  {
    assert [e][..0] == [];
  }

  predicate CanceledMeansDead(pc: RunPc, f: Flags) {
    pc.AgentRecord? && pc.canceled ==> f.dead
  }

  lemma FairInSetup(pc: RunPc, o: Outcome, f: Flags)
    requires Fits(pc, o, f) && CanceledMeansDead(pc, f) && InSetup(pc)
    ensures FairMove(pc, f, SetupMove(pc, o, f))
  {
    var m := SetupMove(pc, o, f);
    if m.says != [] { OneCompletion(m.says[0]); }
  }

  lemma FairInExec(pc: RunPc, o: Outcome, f: Flags)
    requires Fits(pc, o, f) && CanceledMeansDead(pc, f) && InExec(pc)
    ensures FairMove(pc, f, ExecMove(pc, o, f))
  {
    var m := ExecMove(pc, o, f);
    if m.says != [] { OneCompletion(m.says[0]); }
  }

  lemma FairInPolicy(pc: RunPc, o: Outcome, f: Flags)
    requires Fits(pc, o, f) && CanceledMeansDead(pc, f) && InPolicy(pc)
    ensures FairMove(pc, f, PolicyMove(pc, o))
  {
  }

  lemma FairInNetwork(pc: RunPc, o: Outcome, f: Flags)
    requires Fits(pc, o, f) && CanceledMeansDead(pc, f) && InNetwork(pc)
    ensures FairMove(pc, f, NetworkMove(pc, o))
  {
  }

  lemma FairInProxy(pc: RunPc, o: Outcome, f: Flags)
    requires Fits(pc, o, f) && CanceledMeansDead(pc, f) && InProxy(pc)
    ensures FairMove(pc, f, ProxyMove(pc, o))
  {
  }

  lemma FairInAgent(pc: RunPc, o: Outcome, f: Flags)
    requires Fits(pc, o, f) && CanceledMeansDead(pc, f) && InAgent(pc)
    ensures FairMove(pc, f, AgentMove(pc, o, f))
  {
    var m := AgentMove(pc, o, f);
    if m.says != [] { OneCompletion(m.says[0]); }
  }

  lemma FairAtEnd(pc: RunPc, o: Outcome, f: Flags)
    requires Fits(pc, o, f) && CanceledMeansDead(pc, f) && Ending(pc)
    ensures FairMove(pc, f, EndMove(pc, f))
  {
    var m := EndMove(pc, f);
    if m.says != [] { OneCompletion(m.says[0]); }
  }

  lemma FairRun(pc: RunPc, o: Outcome, f: Flags)
    requires Fits(pc, o, f) && CanceledMeansDead(pc, f)
    ensures FairMove(pc, f, MoveFrom(pc, o, f))
  {
    if InSetup(pc) {
      FairInSetup(pc, o, f);
      assert MoveFrom(pc, o, f) == SetupMove(pc, o, f);
    } else if InExec(pc) {
      FairInExec(pc, o, f);
      assert MoveFrom(pc, o, f) == ExecMove(pc, o, f);
    } else if InPolicy(pc) {
      FairInPolicy(pc, o, f);
      assert MoveFrom(pc, o, f) == PolicyMove(pc, o);
    } else if InNetwork(pc) {
      FairInNetwork(pc, o, f);
      assert MoveFrom(pc, o, f) == NetworkMove(pc, o);
    } else if InProxy(pc) {
      FairInProxy(pc, o, f);
      assert MoveFrom(pc, o, f) == ProxyMove(pc, o);
    } else if InAgent(pc) {
      FairInAgent(pc, o, f);
      assert MoveFrom(pc, o, f) == AgentMove(pc, o, f);
    } else {
      FairAtEnd(pc, o, f);
      assert MoveFrom(pc, o, f) == EndMove(pc, f);
    }
  }

  lemma WinnerCommit(s: State, m: Move)
    requires WinnerInv(s) && FairMove(s.pc, FlagsOf(s), m)
    ensures WinnerInv(Commit(s, m))
  {
  }

  lemma CountCommit(s: State, m: Move)
    requires WinnerInv(s) && FairMove(s.pc, FlagsOf(s), m) && Completions(s.emitted) == Expected(s)
    ensures Completions(Commit(s, m).emitted) == Expected(Commit(s, m))
  {
    CompletionsSum(s.emitted, m.says);
  }

  lemma CompletionsSum(events: seq<Event>, more: seq<Event>)
    requires |more| <= 1
    ensures Completions(events + more) == Completions(events) + Completions(more)
  {
    if more == [] {
      assert events + more == events;
    } else {
      CompletionsSnoc(events, more[0]);
      OneCompletion(more[0]);
      assert more == [more[0]];
    }
  }

  ghost predicate FairCancel(s: State, was: CancelPc, m: CancelMove) {
    && !was.Done?
    && (m.wins ==> was.Swap? && !s.done && m.pc.CancelContext?)
    && (!m.wins ==> (Working(m.pc) <==> Working(was)))
    && (m.kills ==> Working(was))
    && Completions(m.says) == (if m.pc == Done(true) then 1 else 0)
    && |m.says| <= 1
  }

  lemma FairCancelMove(s: State, pc: CancelPc)
    requires !pc.Done?
    ensures FairCancel(s, pc, MoveOfCancel(s, pc))
  {
    var m := MoveOfCancel(s, pc);
    if m.says != [] { OneCompletion(m.says[0]); }
  }

  lemma WinnerCommitCancel(s: State, i: nat, m: CancelMove)
    requires WinnerInv(s) && i in s.cancels && FairCancel(s, s.cancels[i], m)
    ensures WinnerInv(CommitCancel(s, i, m))
  {
  }

  lemma OnlyTheWinnerWorks(s: State, i: nat)
    requires WinnerInv(s) && i in s.cancels && Working(s.cancels[i])
    ensures s.winner == TheCancel(i)
  {
  }

  /** The winner's share of the completions is paid by its last step. */
  ghost predicate SharePaid(s: State, i: nat, m: CancelMove)
    requires i in s.cancels
  {
    && CancelShare(CommitCancel(s, i, m)) == CancelShare(s) + (if m.pc == Done(true) then 1 else 0)
    && CommitCancel(s, i, m).winner.TheRun? == s.winner.TheRun?
  }

  lemma ShareStep(s: State, i: nat, m: CancelMove)
    requires i in s.cancels && FairCancel(s, s.cancels[i], m)
    requires s.done <==> !s.winner.NoOne?
    requires s.winner.TheCancel? ==> s.winner.i in s.cancels && Working(s.cancels[s.winner.i])
    requires Working(s.cancels[i]) ==> s.winner == TheCancel(i)
    ensures SharePaid(s, i, m)
  {
  }

  lemma CancelShareStep(s: State, i: nat, m: CancelMove)
    requires WinnerInv(s) && i in s.cancels && FairCancel(s, s.cancels[i], m)
    ensures SharePaid(s, i, m)
  {
    if Working(s.cancels[i]) {
      OnlyTheWinnerWorks(s, i);
    }
    ShareStep(s, i, m);
  }

  lemma CountCommitCancel(s: State, i: nat, m: CancelMove)
    requires i in s.cancels && FairCancel(s, s.cancels[i], m) && SharePaid(s, i, m)
    requires Completions(s.emitted) == Expected(s)
    ensures Completions(CommitCancel(s, i, m).emitted) == Expected(CommitCancel(s, i, m))
  {
    CompletionsSum(s.emitted, m.says);
  }

  lemma WinnerStep(s: State, step: Step)
    requires WinnerInv(s) && Enabled(s, step) && Completions(s.emitted) == Expected(s)
    ensures WinnerInv(Apply(s, step)) && Completions(Apply(s, step).emitted) == Expected(Apply(s, step))
  {
    match step
    case RunStep(o) =>
      FairRun(s.pc, o, FlagsOf(s));
      WinnerCommit(s, RunMove(s, o));
      CountCommit(s, RunMove(s, o));
    case CancelStep(i) =>
      FairCancelMove(s, s.cancels[i]);
      WinnerCommitCancel(s, i, MoveOfCancel(s, s.cancels[i]));
      CancelShareStep(s, i, MoveOfCancel(s, s.cancels[i]));
      CountCommitCancel(s, i, MoveOfCancel(s, s.cancels[i]));
    case SpawnCancel(i) =>
    case CancelParent =>
  }

  // ---------------------------------------------------------------------------------------
  // What is left running
  // ---------------------------------------------------------------------------------------

  function Live(s: State): set<Resource> {
    s.created - s.removed
  }

  /** What an uncancelled run leaves behind: the network if writing the rules failed, the agent
      container if waiting for it failed. */
  function Residue(rulesFailed: bool, waitFailed: bool): set<Resource> {
    (if rulesFailed then {Network} else {}) + (if waitFailed then {Agent} else {})
  }

  function Upstream(policy: bool): set<Resource> {
    if policy then {Network, Proxy} else {}
  }

  /** What is live while the run handler is at pc, unless a cancel has been removing things. */
  function LiveAt(pc: RunPc, residue: set<Resource>): set<Resource> {
    match pc
    case NetRecord => {Network}
    case WriteRules => {Network}
    case ProxyStart => {Network}
    case ProxyRecord(started) => if started then {Network, Proxy} else {Network}
    case ProxyConnect => {Network, Proxy}
    case AgentStart(policy) => Upstream(policy)
    case AgentRecord(policy, started, _) => Upstream(policy) + (if started then {Agent} else {})
    case AgentWait(policy) => Upstream(policy) + {Agent}
    case RemovingAgent(policy, _) => Upstream(policy) + {Agent}
    case RemovingProxy(_) => {Network, Proxy} + residue
    case RemovingNet(_) => {Network} + residue
    case _ => residue
  }

  /** Whether the failures behind a residue are possible at pc. */
  predicate ResidueFits(pc: RunPc, rulesFailed: bool, waitFailed: bool) {
    && (rulesFailed ==> pc.Reporting? || pc.Deciding? || pc.Completing? || pc.Leaving? || pc.Returned?)
    && (waitFailed ==>
          || pc.RemovingProxy? || pc.RemovingNet? || pc.Reporting?
          || pc.Deciding? || pc.Completing? || pc.Leaving? || pc.Returned?)
  }

  /** The run has left without deciding anything. */
  predicate Silent(s: State) {
    Gone(s) && !s.winner.TheRun? && !s.workspaceFailed
  }

  /** Places where the run handler has asked for no removal yet. */
  predicate BeforeRemovals(pc: RunPc) {
    !Ending(pc) || pc.RemovingAgent?
  }

  ghost predicate ResourceInv(s: State) {
    && ResidueFits(s.pc, s.rulesFailed, s.waitFailed)
    && (!s.winner.TheCancel? && BeforeRemovals(s.pc) ==> s.removed == {})
    && (!s.winner.TheCancel? && !Silent(s) ==> Live(s) == LiveAt(s.pc, Residue(s.rulesFailed, s.waitFailed)))
  }

  /** What the resource bookkeeping needs to know of a run step. */
  ghost predicate TidyMove(pc: RunPc, rulesFailed: bool, waitFailed: bool, m: Move) {
    var rulesFailed', waitFailed' := rulesFailed || m.note.RulesBad?, waitFailed || m.note.WaitBad?;
    && (m.makes != {} ==> BeforeRemovals(pc))
    && (BeforeRemovals(m.pc) ==> BeforeRemovals(pc) && m.drops == {})
    && ((m.pc.Leaving? && !Completes(pc))
        || (LiveAt(pc, Residue(rulesFailed, waitFailed)) + m.makes) - m.drops
           == LiveAt(m.pc, Residue(rulesFailed', waitFailed')))
    && ResidueFits(m.pc, rulesFailed', waitFailed')
  }

  // Up to the first call to docker nothing is started, recorded or removed.

  predicate Early(pc: RunPc) {
    InSetup(pc) || InExec(pc) || InPolicy(pc)
  }

  predicate Bare(pc: RunPc) {
    Early(pc) || pc.NetCreate? || (pc.AgentStart? && !pc.policy)
    || pc.Reporting? || pc.Deciding? || pc.Leaving?
  }

  predicate Inert(m: Move) {
    Bare(m.pc) && m.makes == {} && m.drops == {} && !m.note.Learns? && !m.note.RulesBad? && !m.note.WaitBad?
  }

  lemma SetupIsInert(pc: RunPc, o: Outcome, f: Flags)
    requires Fits(pc, o, f) && InSetup(pc)
    ensures Inert(SetupMove(pc, o, f))
  {
  }

  lemma ExecIsInert(pc: RunPc, o: Outcome, f: Flags)
    requires Fits(pc, o, f) && InExec(pc)
    ensures Inert(ExecMove(pc, o, f))
  {
  }

  lemma EarlyIsInert(pc: RunPc, o: Outcome, f: Flags)
    requires Fits(pc, o, f) && Early(pc)
    ensures Inert(MoveFrom(pc, o, f))
  {
    if InSetup(pc) {
      SetupIsInert(pc, o, f);
    } else if InExec(pc) {
      ExecIsInert(pc, o, f);
    } else {
      assert MoveFrom(pc, o, f) == PolicyMove(pc, o);
    }
  }

  lemma TidyInert(pc: RunPc, m: Move, rulesFailed: bool, waitFailed: bool)
    requires ResidueFits(pc, rulesFailed, waitFailed) && Early(pc) && Inert(m)
    ensures TidyMove(pc, rulesFailed, waitFailed, m)
  {
  }

  lemma TidyInWriteRules(pc: RunPc, o: Outcome, f: Flags)
    requires Fits(pc, o, f) && pc.WriteRules?
    ensures TidyMove(pc, false, false, NetworkMove(pc, o))
  {
  }

  lemma TidyInNetwork(pc: RunPc, o: Outcome, f: Flags)
    requires Fits(pc, o, f) && InNetwork(pc)
    ensures TidyMove(pc, false, false, NetworkMove(pc, o))
  {
    if pc.WriteRules? {
      TidyInWriteRules(pc, o, f);
    }
  }

  lemma TidyInProxy(pc: RunPc, o: Outcome, f: Flags)
    requires Fits(pc, o, f) && InProxy(pc)
    ensures TidyMove(pc, false, false, ProxyMove(pc, o))
  {
  }

  lemma TidyInAgentWait(pc: RunPc, o: Outcome, f: Flags)
    requires Fits(pc, o, f) && pc.AgentWait?
    ensures TidyMove(pc, false, false, AgentMove(pc, o, f))
  {
  }

  lemma TidyInAgentStart(pc: RunPc, o: Outcome, f: Flags)
    requires Fits(pc, o, f) && pc.AgentStart?
    ensures TidyMove(pc, false, false, AgentMove(pc, o, f))
  {
  }

  lemma TidyInAgentRecord(pc: RunPc, o: Outcome, f: Flags)
    requires Fits(pc, o, f) && pc.AgentRecord?
    ensures TidyMove(pc, false, false, AgentMove(pc, o, f))
  {
  }

  lemma TidyAtEnd(pc: RunPc, o: Outcome, f: Flags, rulesFailed: bool, waitFailed: bool)
    requires ResidueFits(pc, rulesFailed, waitFailed) && Fits(pc, o, f) && Ending(pc)
    ensures TidyMove(pc, rulesFailed, waitFailed, EndMove(pc, f))
  {
  }

  lemma TidyInDocker(pc: RunPc, o: Outcome, f: Flags)
    requires Fits(pc, o, f) && (InNetwork(pc) || InProxy(pc))
    ensures TidyMove(pc, false, false, MoveFrom(pc, o, f))
  {
    if InNetwork(pc) {
      TidyInNetwork(pc, o, f);
      assert MoveFrom(pc, o, f) == NetworkMove(pc, o);
    } else {
      TidyInProxy(pc, o, f);
      assert MoveFrom(pc, o, f) == ProxyMove(pc, o);
    }
  }

  lemma TidyInAgent(pc: RunPc, o: Outcome, f: Flags)
    requires Fits(pc, o, f) && InAgent(pc)
    ensures TidyMove(pc, false, false, MoveFrom(pc, o, f))
  {
    if pc.AgentStart? {
      TidyInAgentStart(pc, o, f);
      assert MoveFrom(pc, o, f) == AgentMove(pc, o, f);
    } else if pc.AgentRecord? {
      TidyInAgentRecord(pc, o, f);
      assert MoveFrom(pc, o, f) == AgentMove(pc, o, f);
    } else {
      TidyInAgentWait(pc, o, f);
      assert MoveFrom(pc, o, f) == AgentMove(pc, o, f);
    }
  }

  lemma TidyEarly(pc: RunPc, o: Outcome, f: Flags, rulesFailed: bool, waitFailed: bool)
    requires ResidueFits(pc, rulesFailed, waitFailed) && Fits(pc, o, f) && Early(pc)
    ensures TidyMove(pc, rulesFailed, waitFailed, MoveFrom(pc, o, f))
  {
    EarlyIsInert(pc, o, f);
    TidyInert(pc, MoveFrom(pc, o, f), rulesFailed, waitFailed);
  }

  lemma TidyRun(pc: RunPc, o: Outcome, f: Flags, rulesFailed: bool, waitFailed: bool)
    requires ResidueFits(pc, rulesFailed, waitFailed) && Fits(pc, o, f)
    ensures TidyMove(pc, rulesFailed, waitFailed, MoveFrom(pc, o, f))
  {
    if Early(pc) {
      TidyEarly(pc, o, f, rulesFailed, waitFailed);
    } else if InNetwork(pc) || InProxy(pc) {
      TidyInDocker(pc, o, f);
    } else if InAgent(pc) {
      TidyInAgent(pc, o, f);
    } else {
      TidyAtEnd(pc, o, f, rulesFailed, waitFailed);
      assert MoveFrom(pc, o, f) == EndMove(pc, f);
    }
  }

  lemma ResourceCommit(s: State, m: Move)
    requires WinnerInv(s) && ResourceInv(s) && FairMove(s.pc, FlagsOf(s), m)
    requires TidyMove(s.pc, s.rulesFailed, s.waitFailed, m)
    ensures ResourceInv(Commit(s, m))
  {
    var s' := Commit(s, m);
    if !s'.winner.TheCancel? && !Silent(s') {
      CommitLive(s, m);
    }
  }

  lemma CommitLive(s: State, m: Move)
    requires WinnerInv(s) && ResourceInv(s) && FairMove(s.pc, FlagsOf(s), m)
    requires TidyMove(s.pc, s.rulesFailed, s.waitFailed, m)
    requires !Commit(s, m).winner.TheCancel? && !Silent(Commit(s, m))
    ensures Live(Commit(s, m))
            == LiveAt(m.pc, Residue(s.rulesFailed || m.note.RulesBad?, s.waitFailed || m.note.WaitBad?))
  {
    NotSilentBefore(s, m);
    LiveDifference(s.created, s.removed, m.makes, m.drops);
  }

  lemma NotSilentBefore(s: State, m: Move)
    requires WinnerInv(s) && FairMove(s.pc, FlagsOf(s), m)
    requires !Commit(s, m).winner.TheCancel? && !Silent(Commit(s, m))
    ensures !s.winner.TheCancel? && !Silent(s)
    ensures m.pc.Leaving? ==> s.pc.Completing? || s.pc.WorkspaceCompleting?
  {
  }

  lemma LiveDifference(created: set<Resource>, removed: set<Resource>, makes: set<Resource>, drops: set<Resource>)
    requires makes == {} || removed == {}
    ensures (created + makes) - (removed + drops) == (created - removed + makes) - drops
  {
  }

  lemma ResourceStep(s: State, step: Step)
    requires WinnerInv(s) && ResourceInv(s) && Enabled(s, step)
    ensures ResourceInv(Apply(s, step))
  {
    match step
    case RunStep(o) =>
      FairRun(s.pc, o, FlagsOf(s));
      TidyRun(s.pc, o, FlagsOf(s), s.rulesFailed, s.waitFailed);
      ResourceCommit(s, RunMove(s, o));
    case CancelStep(i) =>
      var m := MoveOfCancel(s, s.cancels[i]);
      FairCancelMove(s, s.cancels[i]);
      DropsOnlyWorking(s, s.cancels[i]);
    case SpawnCancel(i) =>
    case CancelParent =>
  }

  lemma DropsOnlyWorking(s: State, pc: CancelPc)
    ensures MoveOfCancel(s, pc).drops != {} ==> Working(pc)
  {
  }

  // ---------------------------------------------------------------------------------------
  // What a cancelled run leaves behind
  // ---------------------------------------------------------------------------------------

  /** Started by the last step of the run handler and not recorded yet. */
  function Pending(pc: RunPc): set<Resource> {
    match pc
    case NetRecord => {Network}
    case ProxyRecord(started) => if started then {Proxy} else {}
    case AgentRecord(_, started, _) => if started then {Agent} else {}
    case _ => {}
  }

  /** What is recorded is what was started, but for the resource in hand; only what is
      recorded is removed. */
  ghost predicate RecordInv(s: State) {
    && s.created == s.known + Pending(s.pc) && s.known !! Pending(s.pc)
    && s.removed <= s.known
    && (BeforeRemovals(s.pc) ==> s.created == LiveAt(s.pc, {}))
    && (s.pc.RemovingProxy? ==> {Network, Proxy} <= s.known)
    && (s.pc.RemovingNet? || s.rulesFailed ==> Network in s.known)
  }

  /** What is recorded at pc, as far as its steps need to know. */
  predicate RecordedAt(pc: RunPc, known: set<Resource>) {
    && (BeforeRemovals(pc) ==> known == LiveAt(pc, {}) - Pending(pc))
    && (pc.RemovingProxy? ==> {Network, Proxy} <= known)
    && (pc.RemovingNet? ==> Network in known)
  }

  /** What RecordInv needs to know of a run step. */
  ghost predicate RecordMove(pc: RunPc, known: set<Resource>, m: Move) {
    && m.makes == Pending(m.pc)
    && (if m.note.Learns? then Pending(pc) == {m.note.r} && m.makes == {} else Pending(pc) == {})
    && m.drops <= known && m.makes !! known
    && (m.pc.RemovingProxy? ==> {Network, Proxy} <= known)
    && (m.pc.RemovingNet? || m.note.RulesBad? ==> Network in known)
  }

  lemma RecordInert(pc: RunPc, m: Move, known: set<Resource>)
    requires RecordedAt(pc, known) && Early(pc) && Inert(m)
    ensures RecordMove(pc, known, m)
  {
  }

  lemma RecordInWriteRules(pc: RunPc, o: Outcome, f: Flags, known: set<Resource>)
    requires Fits(pc, o, f) && RecordedAt(pc, known) && pc.WriteRules?
    ensures RecordMove(pc, known, NetworkMove(pc, o))
  {
  }

  lemma RecordInNetwork(pc: RunPc, o: Outcome, f: Flags, known: set<Resource>)
    requires Fits(pc, o, f) && RecordedAt(pc, known) && InNetwork(pc)
    ensures RecordMove(pc, known, NetworkMove(pc, o))
  {
    if pc.WriteRules? {
      RecordInWriteRules(pc, o, f, known);
    }
  }

  lemma RecordInProxy(pc: RunPc, o: Outcome, f: Flags, known: set<Resource>)
    requires Fits(pc, o, f) && RecordedAt(pc, known) && InProxy(pc)
    ensures RecordMove(pc, known, ProxyMove(pc, o))
  {
  }

  lemma RecordInAgent(pc: RunPc, o: Outcome, f: Flags, known: set<Resource>)
    requires Fits(pc, o, f) && RecordedAt(pc, known) && InAgent(pc)
    ensures RecordMove(pc, known, AgentMove(pc, o, f))
  {
  }

  lemma RecordAtEnd(pc: RunPc, o: Outcome, f: Flags, known: set<Resource>)
    requires Fits(pc, o, f) && RecordedAt(pc, known) && Ending(pc)
    ensures RecordMove(pc, known, EndMove(pc, f))
  {
  }

  lemma RecordRun(pc: RunPc, o: Outcome, f: Flags, known: set<Resource>)
    requires Fits(pc, o, f) && RecordedAt(pc, known)
    ensures RecordMove(pc, known, MoveFrom(pc, o, f))
  {
    if Early(pc) {
      EarlyIsInert(pc, o, f);
      RecordInert(pc, MoveFrom(pc, o, f), known);
    } else if InNetwork(pc) {
      RecordInNetwork(pc, o, f, known);
      assert MoveFrom(pc, o, f) == NetworkMove(pc, o);
    } else if InProxy(pc) {
      RecordInProxy(pc, o, f, known);
      assert MoveFrom(pc, o, f) == ProxyMove(pc, o);
    } else if InAgent(pc) {
      RecordInAgent(pc, o, f, known);
      assert MoveFrom(pc, o, f) == AgentMove(pc, o, f);
    } else {
      RecordAtEnd(pc, o, f, known);
      assert MoveFrom(pc, o, f) == EndMove(pc, f);
    }
  }

  lemma RecordCommit(s: State, m: Move)
    requires RecordInv(s) && RecordMove(s.pc, s.known, m) && TidyMove(s.pc, false, false, m)
    ensures RecordInv(Commit(s, m))
  {
  }

  lemma RecordStep(s: State, step: Step)
    requires RecordInv(s) && Enabled(s, step)
    ensures RecordInv(Apply(s, step))
  {
    match step
    case RunStep(o) =>
      RecordRun(s.pc, o, FlagsOf(s), s.known);
      TidyRun(s.pc, o, FlagsOf(s), false, false);
      RecordCommit(s, RunMove(s, o));
    case CancelStep(i) =>
    case SpawnCancel(i) =>
    case CancelParent =>
  }

  /** The fields a cancel has read, and so the resources it has removed or missed. */
  function ReadBy(pc: CancelPc): set<Resource> {
    match pc
    case RemoveProxy => {Agent}
    case RemoveNet => {Agent, Proxy}
    case SendStatus => {Agent, Proxy, Network}
    case SendCompleted => {Agent, Proxy, Network}
    case Done(won) => if won then {Agent, Proxy, Network} else {}
    case _ => {}
  }

  function ReadByWinner(s: State): set<Resource> {
    if s.winner.TheCancel? && s.winner.i in s.cancels then ReadBy(s.cancels[s.winner.i]) else {}
  }

  ghost predicate ReadsInv(s: State) {
    && s.missed <= ReadByWinner(s) <= s.missed + s.removed
    && (s.winner.TheCancel? && s.winner.i in s.cancels && !s.cancels[s.winner.i].CancelContext? ==> s.runCancelled)
  }

  lemma ReadsStep(s: State, step: Step)
    requires WinnerInv(s) && ReadsInv(s) && Enabled(s, step)
    ensures ReadsInv(Apply(s, step))
  {
    match step
    case RunStep(o) => FairRun(s.pc, o, FlagsOf(s));
    case CancelStep(i) => ReadsCancel(s, i);
    case SpawnCancel(i) =>
    case CancelParent =>
  }

  /** Each read of a cancel removes the resource or misses it, and there is one per resource. */
  lemma ReadGrows(s: State, pc: CancelPc)
    requires !pc.Done?
    ensures var m := MoveOfCancel(s, pc);
            && ReadBy(m.pc) == ReadBy(pc) + m.drops + m.misses
            && (m.drops + m.misses) !! ReadBy(pc)
            && (!Working(pc) ==> ReadBy(m.pc) == {} && (m.wins ==> pc.Swap? && !s.done && m.pc.CancelContext?))
            && m.misses !! s.known && m.misses !! m.drops
            && (Working(pc) ==> !m.pc.CancelContext? && !m.wins && (!pc.CancelContext? || m.kills))
  {
  }

  lemma ReadsCancel(s: State, i: nat)
    requires WinnerInv(s) && ReadsInv(s) && Enabled(s, CancelStep(i))
    ensures ReadsInv(Apply(s, CancelStep(i)))
  {
    var pc := s.cancels[i];
    ReadGrows(s, pc);
    if Working(pc) {
      OnlyTheWinnerWorks(s, i);
      WinnerReads(s, i, MoveOfCancel(s, pc));
    } else {
      OthersReadNothing(s, i, MoveOfCancel(s, pc));
    }
  }

  lemma WinnerReads(s: State, i: nat, m: CancelMove)
    requires ReadsInv(s) && i in s.cancels && s.winner == TheCancel(i) && !m.wins && !m.pc.CancelContext?
    requires ReadBy(m.pc) == ReadBy(s.cancels[i]) + m.drops + m.misses
    requires s.cancels[i].CancelContext? ==> m.kills
    ensures ReadsInv(CommitCancel(s, i, m))
  {
  }

  lemma OthersReadNothing(s: State, i: nat, m: CancelMove)
    requires WinnerInv(s) && ReadsInv(s) && i in s.cancels && !Working(s.cancels[i])
    requires m.drops == {} && m.misses == {} && ReadBy(m.pc) == {} && (m.wins ==> !s.done && m.pc.CancelContext?)
    ensures ReadsInv(CommitCancel(s, i, m))
  {
  }

  /** Past the point that needs a live context after r was recorded. */
  predicate OutOfReach(r: Resource, pc: RunPc) {
    match r
    case Network =>
      || (pc.ProxyRecord? && pc.started) || pc.ProxyConnect? || (pc.AgentStart? && pc.policy)
      || (pc.AgentRecord? && pc.policy) || (pc.AgentWait? && pc.policy) || (pc.RemovingAgent? && pc.policy)
      || pc.RemovingProxy?
    case Proxy =>
      || (pc.AgentStart? && pc.policy) || (pc.AgentRecord? && pc.policy) || (pc.AgentWait? && pc.policy)
      || (pc.RemovingAgent? && pc.policy)
    case Agent => pc.RemovingAgent?
  }

  /** The call that comes after r was recorded. */
  predicate NextCall(r: Resource, pc: RunPc) {
    match r
    case Network => pc.ProxyStart?
    case Proxy => pc.ProxyConnect?
    case Agent => pc.AgentWait?
  }

  /** Where a resource that the cancel missed is still there. */
  predicate HeldAt(r: Resource, pc: RunPc, rulesFailed: bool) {
    match r
    case Network =>
      || pc.NetRecord? || pc.WriteRules? || pc.ProxyStart? || (pc.ProxyRecord? && !pc.started)
      || pc.RemovingNet? || rulesFailed
    case Proxy => (pc.ProxyRecord? && pc.started) || pc.ProxyConnect? || pc.RemovingProxy?
    case Agent => (pc.AgentRecord? && pc.started) || pc.AgentWait? || pc.Leaving? || pc.Returned?
  }

  /** A missed resource was recorded, if ever, with the context already dead; so the next call
      fails, and what that leads to decides whether the resource goes. An agent never does. */
  predicate MissedAt(r: Resource, pc: RunPc, live: bool, rulesFailed: bool, made: bool, gone: bool) {
    && !OutOfReach(r, pc)
    && (NextCall(r, pc) ==> !live)
    && (made ==> (gone <==> !HeldAt(r, pc, rulesFailed)) && (r.Agent? ==> !gone))
  }

  predicate MissedOk(s: State, r: Resource) {
    r in s.missed ==> MissedAt(r, s.pc, s.beganLive, s.rulesFailed, r in s.created, r in s.removed)
  }

  ghost predicate MissedInv(s: State) {
    forall r :: MissedOk(s, r)
  }

  /** What MissedInv needs to know of a run step under a cancelled context. */
  ghost predicate MissedMove(r: Resource, rulesFailed: bool, made: bool, gone: bool, m: Move) {
    MissedAt(r, m.pc, false, rulesFailed || m.note.RulesBad?, made || r in m.makes, gone || r in m.drops)
  }

  ghost predicate MissedBefore(r: Resource, pc: RunPc, f: Flags, rulesFailed: bool, made: bool, gone: bool) {
    && f.done && f.dead && ResidueFits(pc, rulesFailed, false)
    && MissedAt(r, pc, f.live, rulesFailed, made, gone)
    && (BeforeRemovals(pc) ==> (made <==> r in LiveAt(pc, {})))
    && (gone ==> made)
  }

  lemma MissedInert(r: Resource, pc: RunPc, m: Move, f: Flags, rulesFailed: bool, made: bool, gone: bool)
    requires MissedBefore(r, pc, f, rulesFailed, made, gone) && Early(pc) && Inert(m)
    ensures MissedMove(r, rulesFailed, made, gone, m)
  {
  }

  lemma MissedInWriteRules(r: Resource, pc: RunPc, o: Outcome, f: Flags, rulesFailed: bool, made: bool, gone: bool)
    requires Fits(pc, o, f) && MissedBefore(r, pc, f, rulesFailed, made, gone) && pc.WriteRules?
    ensures MissedMove(r, rulesFailed, made, gone, NetworkMove(pc, o))
  {
  }

  lemma MissedInNetwork(r: Resource, pc: RunPc, o: Outcome, f: Flags, rulesFailed: bool, made: bool, gone: bool)
    requires Fits(pc, o, f) && MissedBefore(r, pc, f, rulesFailed, made, gone) && InNetwork(pc)
    ensures MissedMove(r, rulesFailed, made, gone, NetworkMove(pc, o))
  {
    if pc.WriteRules? {
      MissedInWriteRules(r, pc, o, f, rulesFailed, made, gone);
    }
  }

  lemma MissedInProxy(r: Resource, pc: RunPc, o: Outcome, f: Flags, rulesFailed: bool, made: bool, gone: bool)
    requires Fits(pc, o, f) && MissedBefore(r, pc, f, rulesFailed, made, gone) && InProxy(pc)
    ensures MissedMove(r, rulesFailed, made, gone, ProxyMove(pc, o))
  {
  }

  lemma MissedInAgent(r: Resource, pc: RunPc, o: Outcome, f: Flags, rulesFailed: bool, made: bool, gone: bool)
    requires Fits(pc, o, f) && MissedBefore(r, pc, f, rulesFailed, made, gone) && InAgent(pc)
    ensures MissedMove(r, rulesFailed, made, gone, AgentMove(pc, o, f))
  {
  }

  lemma MissedAtEnd(r: Resource, pc: RunPc, o: Outcome, f: Flags, rulesFailed: bool, made: bool, gone: bool)
    requires Fits(pc, o, f) && MissedBefore(r, pc, f, rulesFailed, made, gone) && Ending(pc)
    ensures MissedMove(r, rulesFailed, made, gone, EndMove(pc, f))
  {
  }

  lemma MissedRun(r: Resource, pc: RunPc, o: Outcome, f: Flags, rulesFailed: bool, made: bool, gone: bool)
    requires Fits(pc, o, f) && MissedBefore(r, pc, f, rulesFailed, made, gone)
    ensures MissedMove(r, rulesFailed, made, gone, MoveFrom(pc, o, f))
  {
    if Early(pc) {
      EarlyIsInert(pc, o, f);
      MissedInert(r, pc, MoveFrom(pc, o, f), f, rulesFailed, made, gone);
    } else if InNetwork(pc) {
      MissedInNetwork(r, pc, o, f, rulesFailed, made, gone);
      assert MoveFrom(pc, o, f) == NetworkMove(pc, o);
    } else if InProxy(pc) {
      MissedInProxy(r, pc, o, f, rulesFailed, made, gone);
      assert MoveFrom(pc, o, f) == ProxyMove(pc, o);
    } else if InAgent(pc) {
      MissedInAgent(r, pc, o, f, rulesFailed, made, gone);
      assert MoveFrom(pc, o, f) == AgentMove(pc, o, f);
    } else {
      MissedAtEnd(r, pc, o, f, rulesFailed, made, gone);
      assert MoveFrom(pc, o, f) == EndMove(pc, f);
    }
  }

  lemma MissedCommit(s: State, m: Move, r: Resource)
    requires MissedMove(r, s.rulesFailed, r in s.created, r in s.removed, m) && s.runCancelled
    ensures MissedOk(Commit(s, m), r)
  {
  }

  /** A resource past its recording is recorded. */
  lemma ReachIsRecorded(s: State, r: Resource)
    requires RecordInv(s) && ResidueFits(s.pc, s.rulesFailed, s.waitFailed) && r !in s.known
    ensures MissedAt(r, s.pc, s.beganLive, s.rulesFailed, r in s.created, r in s.removed)
  {
  }

  lemma MissedCancel(s: State, i: nat, r: Resource)
    requires WinnerInv(s) && RecordInv(s) && ReadsInv(s) && Enabled(s, CancelStep(i)) && MissedOk(s, r)
    requires ResidueFits(s.pc, s.rulesFailed, s.waitFailed)
    ensures MissedOk(Apply(s, CancelStep(i)), r)
  {
    var m := MoveOfCancel(s, s.cancels[i]);
    ReadGrows(s, s.cancels[i]);
    if Working(s.cancels[i]) {
      OnlyTheWinnerWorks(s, i);
    }
    if r in m.misses {
      ReachIsRecorded(s, r);
    }
    MissedCommitCancel(s, i, m, r);
  }

  lemma MissedCommitCancel(s: State, i: nat, m: CancelMove, r: Resource)
    requires i in s.cancels && (r in s.missed + m.misses ==> r !in m.drops)
    requires r in s.missed + m.misses ==> MissedAt(r, s.pc, s.beganLive, s.rulesFailed, r in s.created, r in s.removed)
    ensures MissedOk(CommitCancel(s, i, m), r)
  {
  }

  lemma MissedStep(s: State, step: Step)
    requires WinnerInv(s) && RecordInv(s) && ReadsInv(s) && ResourceInv(s) && MissedInv(s) && Enabled(s, step)
    ensures MissedInv(Apply(s, step))
  {
    forall r ensures MissedOk(Apply(s, step), r) {
      assert MissedOk(s, r);
      match step
      case RunStep(o) =>
        if r in s.missed {
          MissedRun(r, s.pc, o, FlagsOf(s), s.rulesFailed, r in s.created, r in s.removed);
          MissedCommit(s, RunMove(s, o), r);
        }
      case CancelStep(i) => MissedCancel(s, i, r);
      case SpawnCancel(i) =>
      case CancelParent =>
    }
  }

  // ---------------------------------------------------------------------------------------
  // Exit codes
  // ---------------------------------------------------------------------------------------

  /** Not zero, but zero in its low 32 bits. */
  predicate Wraps(exit: int) {
    exit != 0 && exit % 0x1_0000_0000 == 0
  }

  datatype Verdict = NoVerdict | Verdict(success: bool, exit: int)

  /** The flag and the code the run handler is taking to its COMPLETED event. */
  function Carried(pc: RunPc): Verdict {
    match pc
    case RemovingAgent(_, exit) => Verdict(exit == 0, exit)
    case RemovingProxy(after) => Verdict(after.success, after.exit)
    case RemovingNet(after) => Verdict(after.success, after.exit)
    case Reporting(_, success, exit) => Verdict(success, exit)
    case Deciding(success, exit) => Verdict(success, exit)
    case Completing(success, exit) => Verdict(success, exit)
    case _ => NoVerdict
  }

  /** What a flag and a wire code say about how the process ended. */
  predicate Honest(success: bool, code: int, wait: WaitResult) {
    && (success <==> wait == Ended(false, 0))
    && (code == 0 <==> success || (wait.Ended? && Wraps(wait.exit)))
  }

  /** The code is the process's own unless that is 0, and one of the worker's if it failed
      otherwise. */
  predicate VerdictOk(pc: RunPc, wait: WaitResult) {
    match Carried(pc)
    case Verdict(success, exit) =>
      && (success <==> wait == Ended(false, 0))
      && (if success then exit == 0
          else if wait.Ended? && wait.exit != 0 then exit == wait.exit
          else 0 < exit < 0x8000_0000)
    case NoVerdict => pc.Leaving? || pc.Returned? || wait.NotEnded?
  }

  /** A completion sent by a run that won the swap is honest; any other is a plain failure. */
  predicate EventOk(e: Event, byRun: bool, wait: WaitResult) {
    e.Completed? ==>
      && -0x8000_0000 <= e.code < 0x8000_0000
      && if byRun then Honest(e.success, e.code, wait) else !e.success && e.code != 0
  }

  ghost predicate EventsOk(events: seq<Event>, byRun: bool, wait: WaitResult) {
    forall i | 0 <= i < |events| :: EventOk(events[i], byRun, wait)
  }

  ghost predicate ExitInv(s: State) {
    VerdictOk(s.pc, s.wait) && EventsOk(s.emitted, s.winner.TheRun?, s.wait)
  }

  lemma WireCodeOfZero(exit: int)
    ensures WireCode(exit) == 0 <==> exit == 0 || Wraps(exit)
    ensures -0x8000_0000 <= WireCode(exit) < 0x8000_0000
  {
  }

  /** What the bookkeeping of exit codes needs to know of a run step. */
  ghost predicate HonestMove(pc: RunPc, wait: WaitResult, m: Move) {
    && VerdictOk(m.pc, WaitAfter(wait, m.note))
    && (m.note.Exits? || m.note.WaitBad? ==> pc.ExecWait? || pc.AgentWait?)
    && EventsOk(m.says, pc.Completing?, wait)
  }

  lemma HonestInConfigure(pc: RunPc, o: Outcome, f: Flags, wait: WaitResult)
    requires Fits(pc, o, f) && VerdictOk(pc, wait) && pc.Configure?
    ensures HonestMove(pc, wait, SetupMove(pc, o, f))
  {
  }

  lemma HonestInSetup(pc: RunPc, o: Outcome, f: Flags, wait: WaitResult)
    requires Fits(pc, o, f) && VerdictOk(pc, wait) && InSetup(pc)
    ensures HonestMove(pc, wait, SetupMove(pc, o, f))
  {
    if pc.Configure? {
      HonestInConfigure(pc, o, f, wait);
    }
  }

  lemma HonestInExecWait(pc: RunPc, o: Outcome, f: Flags, wait: WaitResult)
    requires Fits(pc, o, f) && VerdictOk(pc, wait) && pc.ExecWait?
    ensures HonestMove(pc, wait, ExecMove(pc, o, f))
  {
  }

  lemma HonestInExec(pc: RunPc, o: Outcome, f: Flags, wait: WaitResult)
    requires Fits(pc, o, f) && VerdictOk(pc, wait) && InExec(pc)
    ensures HonestMove(pc, wait, ExecMove(pc, o, f))
  {
    if pc.ExecWait? {
      HonestInExecWait(pc, o, f, wait);
    }
  }

  lemma HonestInPolicy(pc: RunPc, o: Outcome, f: Flags, wait: WaitResult)
    requires Fits(pc, o, f) && VerdictOk(pc, wait) && InPolicy(pc)
    ensures HonestMove(pc, wait, PolicyMove(pc, o))
  {
  }

  lemma HonestInWriteRules(pc: RunPc, o: Outcome, f: Flags, wait: WaitResult)
    requires Fits(pc, o, f) && VerdictOk(pc, wait) && pc.WriteRules?
    ensures HonestMove(pc, wait, NetworkMove(pc, o))
  {
  }

  lemma HonestInNetwork(pc: RunPc, o: Outcome, f: Flags, wait: WaitResult)
    requires Fits(pc, o, f) && VerdictOk(pc, wait) && InNetwork(pc)
    ensures HonestMove(pc, wait, NetworkMove(pc, o))
  {
    if pc.WriteRules? {
      HonestInWriteRules(pc, o, f, wait);
    }
  }

  lemma HonestInProxy(pc: RunPc, o: Outcome, f: Flags, wait: WaitResult)
    requires Fits(pc, o, f) && VerdictOk(pc, wait) && InProxy(pc)
    ensures HonestMove(pc, wait, ProxyMove(pc, o))
  {
  }

  lemma HonestInAgent(pc: RunPc, o: Outcome, f: Flags, wait: WaitResult)
    requires Fits(pc, o, f) && VerdictOk(pc, wait) && InAgent(pc)
    ensures HonestMove(pc, wait, AgentMove(pc, o, f))
  {
  }

  lemma HonestInCompleting(pc: RunPc, o: Outcome, f: Flags, wait: WaitResult)
    requires Fits(pc, o, f) && VerdictOk(pc, wait) && pc.Completing?
    ensures HonestMove(pc, wait, EndMove(pc, f))
  {
    if pc.Completing? {
      WireCodeOfZero(pc.exit);
    }
  }

  lemma HonestAtEnd(pc: RunPc, o: Outcome, f: Flags, wait: WaitResult)
    requires Fits(pc, o, f) && VerdictOk(pc, wait) && Ending(pc)
    ensures HonestMove(pc, wait, EndMove(pc, f))
  {
    if pc.Completing? {
      HonestInCompleting(pc, o, f, wait);
    }
  }

  lemma HonestRun(pc: RunPc, o: Outcome, f: Flags, wait: WaitResult)
    requires Fits(pc, o, f) && VerdictOk(pc, wait)
    ensures HonestMove(pc, wait, MoveFrom(pc, o, f))
  {
    if InSetup(pc) {
      HonestInSetup(pc, o, f, wait);
      assert MoveFrom(pc, o, f) == SetupMove(pc, o, f);
    } else if InExec(pc) {
      HonestInExec(pc, o, f, wait);
      assert MoveFrom(pc, o, f) == ExecMove(pc, o, f);
    } else if InPolicy(pc) {
      HonestInPolicy(pc, o, f, wait);
      assert MoveFrom(pc, o, f) == PolicyMove(pc, o);
    } else if InNetwork(pc) {
      HonestInNetwork(pc, o, f, wait);
      assert MoveFrom(pc, o, f) == NetworkMove(pc, o);
    } else if InProxy(pc) {
      HonestInProxy(pc, o, f, wait);
      assert MoveFrom(pc, o, f) == ProxyMove(pc, o);
    } else if InAgent(pc) {
      HonestInAgent(pc, o, f, wait);
      assert MoveFrom(pc, o, f) == AgentMove(pc, o, f);
    } else {
      HonestAtEnd(pc, o, f, wait);
      assert MoveFrom(pc, o, f) == EndMove(pc, f);
    }
  }

  lemma {:induction false} NoneCompleted(events: seq<Event>)
    requires Completions(events) == 0
    ensures forall i | 0 <= i < |events| :: !events[i].Completed?
  {
    if events != [] {
      NoneCompleted(events[..|events| - 1]);
    }
  }

  lemma ExitCommit(s: State, m: Move)
    requires WinnerInv(s) && Completions(s.emitted) == Expected(s) && ExitInv(s)
    requires FairMove(s.pc, FlagsOf(s), m) && HonestMove(s.pc, s.wait, m)
    ensures ExitInv(Commit(s, m))
  {
    var s' := Commit(s, m);
    if m.note.Wins? {
      NoneCompleted(s.emitted);
    }
    forall i | 0 <= i < |s'.emitted| ensures EventOk(s'.emitted[i], s'.winner.TheRun?, s'.wait) {
      if i < |s.emitted| {
        assert EventOk(s.emitted[i], s.winner.TheRun?, s.wait);
      } else {
        assert EventOk(m.says[i - |s.emitted|], s.pc.Completing?, s.wait);
      }
    }
  }

  lemma ExitCancel(s: State, i: nat)
    requires WinnerInv(s) && ExitInv(s) && Enabled(s, CancelStep(i))
    ensures ExitInv(Apply(s, CancelStep(i)))
  {
    var m := MoveOfCancel(s, s.cancels[i]);
    var s' := CommitCancel(s, i, m);
    forall k | 0 <= k < |s'.emitted| ensures EventOk(s'.emitted[k], s'.winner.TheRun?, s'.wait) {
      if k < |s.emitted| {
        assert EventOk(s.emitted[k], s.winner.TheRun?, s.wait);
      }
    }
  }

  lemma ExitStep(s: State, step: Step)
    requires WinnerInv(s) && Completions(s.emitted) == Expected(s) && ExitInv(s) && Enabled(s, step)
    ensures ExitInv(Apply(s, step))
  {
    match step
    case RunStep(o) =>
      FairRun(s.pc, o, FlagsOf(s));
      HonestRun(s.pc, o, FlagsOf(s), s.wait);
      ExitCommit(s, RunMove(s, o));
    case CancelStep(i) => ExitCancel(s, i);
    case SpawnCancel(i) =>
    case CancelParent =>
  }

  // ---------------------------------------------------------------------------------------
  // Main results
  // ---------------------------------------------------------------------------------------

  ghost predicate Inv(s: State) {
    && WinnerInv(s) && Completions(s.emitted) == Expected(s)
    && ResourceInv(s) && ExitInv(s)
    && RecordInv(s) && ReadsInv(s) && MissedInv(s)
  }

  lemma InvStep(s: State, step: Step)
    requires Inv(s) && Enabled(s, step)
    ensures Inv(Apply(s, step))
  {
    WinnerStep(s, step);
    ResourceStep(s, step);
    ExitStep(s, step);
    RecordStep(s, step);
    ReadsStep(s, step);
    MissedStep(s, step);
  }

  lemma {:induction false} InvAlways(s: State, steps: seq<Step>)
    requires Inv(s) && Runs(s, steps)
    ensures Inv(Exec(s, steps))
    decreases |steps|
  {
    if steps != [] {
      InvStep(s, steps[0]);
      InvAlways(Apply(s, steps[0]), steps[1..]);
    }
  }

  lemma ReachableInv(s: State)
    requires Reachable(s)
    ensures Inv(s)
  {
    var steps :| Runs(START, steps) && Exec(START, steps) == s;
    InvAlways(START, steps);
  }

  /** Over every interleaving of one run handler and any number of cancels, a run that got its
      workspace completes at most once; one that did not completes at most twice. */
  lemma AtMostOneCompletion(s: State)
    requires Reachable(s)
    ensures !s.workspaceFailed ==> Completions(s.emitted) <= 1
    ensures Completions(s.emitted) <= 2
  {
    ReachableInv(s);
  }

  /** Once everything has returned, the number of completions is fixed by two facts: somebody
      won the swap, and the workspace could not be created (that exit does not take part in
      the swap). So there is exactly one completion unless both hold or neither does, and
      neither can only hold when the parent context was cancelled. */
  lemma CompletionsAtRest(s: State)
    requires Reachable(s) && Quiet(s)
    ensures Completions(s.emitted) == (if s.done then 1 else 0) + (if s.workspaceFailed then 1 else 0)
    ensures Completions(s.emitted) == 1 <==> s.done != s.workspaceFailed
    ensures !s.parentCancelled ==> (Completions(s.emitted) == 1 <==> !s.workspaceFailed || !s.winner.TheCancel?)
    ensures !s.parentCancelled && !s.workspaceFailed ==> Completions(s.emitted) == 1
  {
    ReachableInv(s);
  }

  /** A run that wins the swap leaves nothing live except the network when writing its rules
      failed, and its agent container when waiting for it failed. This holds from before the
      COMPLETED event is sent. */
  lemma UncancelledRunCleansUp(s: State)
    requires Reachable(s) && s.winner.TheRun?
    ensures s.created - s.removed == Residue(s.rulesFailed, s.waitFailed)
    ensures !s.rulesFailed ==> Network !in Live(s) && Proxy !in Live(s)
    ensures !s.waitFailed ==> Agent !in Live(s)
  {
    ReachableInv(s);
  }

  /** Once a cancel has won and all is at rest, what is left is known exactly: never the proxy;
      the network only when its rules could not be written and the cancel did not find it
      recorded; the agent container when it was started but the cancel did not find it recorded. */
  lemma CancelledRunLeaves(s: State)
    requires Reachable(s) && Quiet(s) && s.winner.TheCancel?
    ensures Live(s) == (if s.rulesFailed && Network in s.missed then {Network} else {})
                       + (if Agent in s.created && Agent in s.missed then {Agent} else {})
  {
    ReachableInv(s);
    assert ReadByWinner(s) == {Agent, Proxy, Network};
    forall r
      ensures r in Live(s) <==> r in s.missed && r in s.created && (if r.Network? then s.rulesFailed else r.Agent?)
    {
      assert r.Agent? || r.Proxy? || r.Network?;
      assert r in s.missed + s.removed;
      assert MissedOk(s, r);
    }
    assert s.rulesFailed ==> Network in s.created;
  }

  /** A COMPLETED event reports success exactly when the run handler won the swap and waiting
      for the process returned without an error and with code 0. So a wait that failed, whatever
      code came with it, never does, and neither do the exits that pass their own code. */
  lemma SuccessMeansExitZero(s: State, i: nat)
    requires Reachable(s) && i < |s.emitted| && s.emitted[i].Completed?
    ensures s.emitted[i].success <==> s.winner.TheRun? && s.wait == Ended(false, 0)
  {
    ReachableInv(s);
    assert EventOk(s.emitted[i], s.winner.TheRun?, s.wait);
  }

  /** The flag and the 32-bit code of a COMPLETED event agree unless the run handler sent it for
      a process whose code is a nonzero multiple of 2^32; the event then says failure, code 0. */
  lemma FlagAndCodeAgree(s: State, i: nat)
    requires Reachable(s) && i < |s.emitted| && s.emitted[i].Completed?
    ensures (s.emitted[i].success <==> s.emitted[i].code == 0) <==>
            !(s.winner.TheRun? && s.wait.Ended? && s.wait.exit != 0 && s.wait.exit % 0x1_0000_0000 == 0)
    ensures s.wait.Ended? && -1 <= s.wait.exit < 0x1_0000_0000 ==>
              (s.emitted[i].success <==> s.emitted[i].code == 0)
    ensures s.emitted[i].success ==> s.emitted[i].code == 0
    ensures -0x8000_0000 <= s.emitted[i].code < 0x8000_0000
  {
    ReachableInv(s);
    assert EventOk(s.emitted[i], s.winner.TheRun?, s.wait);
  }

  // ---------------------------------------------------------------------------------------
  // Runs that show the exceptions are real
  // ---------------------------------------------------------------------------------------

  lemma ReachableStart()
    ensures Reachable(START)
  {
    assert Runs(START, []) && Exec(START, []) == START;
  }

  lemma ReachableNext(s: State, step: Step) returns (s': State)
    requires Reachable(s) && Enabled(s, step)
    ensures s' == Apply(s, step) && Reachable(s')
  {
    s' := Apply(s, step);
    var steps :| Runs(START, steps) && Exec(START, steps) == s;
    RunsLonger(START, steps, step);
  }

  lemma {:induction false} RunsLonger(s: State, steps: seq<Step>, step: Step)
    requires Runs(s, steps) && Enabled(Exec(s, steps), step)
    ensures Runs(s, steps + [step]) && Exec(s, steps + [step]) == Apply(Exec(s, steps), step)
    decreases |steps|
  {
    if steps == [] {
      assert [step][1..] == [] && steps + [step] == [step];
    } else {
      assert (steps + [step])[1..] == steps[1..] + [step];
      RunsLonger(Apply(s, steps[0]), steps[1..], step);
    }
  }

  /** The parts of a state that the runs below look at, after a move of the run handler. */
  ghost predicate Moved(s: State, m: Move, s': State) {
    && Reachable(s') && s'.pc == m.pc && s'.cancels == s.cancels && s'.beganLive == !ContextDead(s)
    && s'.runCancelled == s.runCancelled && s'.parentCancelled == s.parentCancelled
    && s'.registered == (m.note.Registers? || (s.registered && !m.note.Deregisters?))
    && s'.emitted == s.emitted + m.says && s'.created == s.created + m.makes && s'.missed == s.missed
    && s'.known == (if m.note.Learns? then s.known + {m.note.r} else s.known)
    && (if m.note.Wins? then s'.winner.TheRun? else s'.winner == s.winner)
    && s'.done == (s.done || m.note.Wins?) && s'.workspaceFailed == (s.workspaceFailed || m.note.WorkspaceBad?)
    && s'.rulesFailed == (s.rulesFailed || m.note.RulesBad?) && s'.waitFailed == (s.waitFailed || m.note.WaitBad?)
  }

  lemma RunOn(s: State, o: Outcome) returns (s': State)
    requires Reachable(s) && OutcomeFits(s, o)
    ensures Moved(s, MoveFrom(s.pc, o, FlagsOf(s)), s')
  {
    s' := ReachableNext(s, RunStep(o));
  }

  lemma SetupOn(s: State, o: Outcome) returns (s': State)
    requires Reachable(s) && OutcomeFits(s, o) && InSetup(s.pc)
    ensures Moved(s, SetupMove(s.pc, o, FlagsOf(s)), s')
  {
    s' := RunOn(s, o);
  }

  lemma PolicyOn(s: State, o: Outcome) returns (s': State)
    requires Reachable(s) && OutcomeFits(s, o) && InPolicy(s.pc)
    ensures Moved(s, PolicyMove(s.pc, o), s')
  {
    s' := RunOn(s, o);
  }

  lemma NetworkOn(s: State, o: Outcome) returns (s': State)
    requires Reachable(s) && OutcomeFits(s, o) && InNetwork(s.pc)
    ensures Moved(s, NetworkMove(s.pc, o), s')
  {
    s' := RunOn(s, o);
  }

  lemma AgentOn(s: State, o: Outcome) returns (s': State)
    requires Reachable(s) && OutcomeFits(s, o) && InAgent(s.pc)
    ensures Moved(s, AgentMove(s.pc, o, FlagsOf(s)), s')
  {
    s' := RunOn(s, o);
  }

  lemma EndOn(s: State) returns (s': State)
    requires Reachable(s) && Ending(s.pc) && !s.pc.Returned?
    ensures Moved(s, EndMove(s.pc, FlagsOf(s)), s')
  {
    s' := RunOn(s, Good);
  }

  /** One step of the only cancel. */
  lemma CancelOn(s: State, pc: CancelPc) returns (s': State)
    requires Reachable(s) && s.cancels == map[0 := pc] && !pc.Done?
    ensures Reachable(s') && s' == CommitCancel(s, 0, MoveOfCancel(s, pc))
    ensures s'.cancels == map[0 := MoveOfCancel(s, pc).pc]
  {
    s' := ReachableNext(s, CancelStep(0));
  }

  /** A run under way with one cancel started, at the given places, with nothing gone wrong. */
  ghost predicate Under(s: State, pc: RunPc, cpc: CancelPc) {
    && Reachable(s) && s.pc == pc && s.cancels == map[0 := cpc]
    && s.registered && !s.done && !s.workspaceFailed && !ContextDead(s) && s.beganLive && s.known == {}
  }

  lemma AtStart() returns (s: State)
    ensures Under(s, CheckEntry, Lookup)
  {
    ReachableStart();
    var s1 := ReachableNext(START, SpawnCancel(0));
    assert s1.cancels == map[0 := Lookup];
    s := SetupOn(s1, Good);
  }

  lemma AtWorkspace() returns (s: State)
    ensures Under(s, MakeWorkspace, Lookup)
  {
    var s0 := AtStart();
    s := SetupOn(s0, Good);
  }

  lemma AtConfigure() returns (s: State)
    ensures Under(s, Configure, Lookup)
  {
    var s0 := AtWorkspace();
    s := SetupOn(s0, WorkspaceMade);
  }

  lemma AtNetworkChoice() returns (s: State)
    ensures Under(s, ChooseNetwork, Lookup)
  {
    var s0 := AtConfigure();
    s := SetupOn(s0, DockerRunner);
  }

  lemma CancelWins(s: State, pc: RunPc) returns (s': State)
    requires Under(s, pc, Swap)
    ensures Reachable(s') && s'.pc == pc && s'.cancels == map[0 := RemoveAgent] && s'.done && s'.runCancelled
    ensures s'.workspaceFailed == s.workspaceFailed && s'.beganLive && s'.winner == TheCancel(0) && s'.known == s.known
    ensures s'.missed == s.missed && s'.created == s.created && s'.removed == s.removed
  {
    var s1 := CancelOn(s, Swap);
    s' := CancelOn(s1, CancelContext);
  }


  /** Nothing but the cancel moved. */
  ghost predicate SameRun(s: State, s': State) {
    && Reachable(s') && s'.pc == s.pc && s'.done == s.done && s'.runCancelled == s.runCancelled
    && s'.winner == s.winner && s'.workspaceFailed == s.workspaceFailed
    && s'.beganLive == s.beganLive && s'.known == s.known && s'.created == s.created
  }

  lemma CancelReads(s: State, pc: CancelPc, r: Resource) returns (s': State)
    requires Reachable(s) && s.cancels == map[0 := pc] && r !in s.known
    requires (pc.RemoveAgent? && r.Agent?) || (pc.RemoveProxy? && r.Proxy?) || (pc.RemoveNet? && r.Network?)
    ensures SameRun(s, s') && s'.missed == s.missed + {r}
    ensures s'.cancels == map[0 := if r.Agent? then RemoveProxy else if r.Proxy? then RemoveNet else SendStatus]
  {
    s' := CancelOn(s, pc);
  }

  lemma CancelSends(s: State, pc: CancelPc) returns (s': State)
    requires Reachable(s) && s.cancels == map[0 := pc] && (pc.SendStatus? || pc.SendCompleted?)
    ensures SameRun(s, s') && s'.missed == s.missed
    ensures s'.cancels == map[0 := if pc.SendStatus? then SendCompleted else Done(true)]
  {
    s' := CancelOn(s, pc);
  }

  /** A cancel that has won and finds nothing recorded. */
  lemma CancelFindsNothing(s: State) returns (s': State)
    requires Reachable(s) && s.cancels == map[0 := RemoveAgent] && s.known == {}
    ensures SameRun(s, s') && s'.cancels == map[0 := Done(true)] && Agent in s'.missed
  {
    var s1 := CancelReads(s, RemoveAgent, Agent);
    var s2 := CancelReads(s1, RemoveProxy, Proxy);
    var s3 := CancelReads(s2, RemoveNet, Network);
    var s4 := CancelSends(s3, SendStatus);
    s' := CancelSends(s4, SendCompleted);
  }

  lemma WorkspaceExit(s: State) returns (s': State)
    requires Reachable(s) && s.pc == WorkspaceFailed
    ensures Reachable(s') && s'.pc == Returned && s'.cancels == s.cancels && s'.done == s.done
    ensures s'.workspaceFailed == s.workspaceFailed
  {
    var s1 := SetupOn(s, Good);
    var s2 := SetupOn(s1, Good);
    s' := EndOn(s2);
  }

  lemma CancelLooksUp(s: State, pc: RunPc) returns (s': State)
    requires Under(s, pc, Lookup)
    ensures Under(s', pc, Swap)
  {
    s' := CancelOn(s, Lookup);
  }

  /** A cancel that arrives while the workspace cannot be created yields two completions. */
  lemma CancelledWorkspaceFailureCompletesTwice()
    ensures exists s :: Reachable(s) && Quiet(s) && Completions(s.emitted) == 2
  {
    var s0 := AtWorkspace();
    var s1 := CancelLooksUp(s0, MakeWorkspace);
    var s2 := CancelWins(s1, MakeWorkspace);
    var s3 := SetupOn(s2, WorkspaceRefused);
    var s4 := CancelFindsNothing(s3);
    var s5 := WorkspaceExit(s4);
    CompletionsAtRest(s5);
  }

  /** When the connection's context dies before the entry check, the run says nothing. */
  lemma DeadParentCompletesNever()
    ensures exists s :: Reachable(s) && Quiet(s) && Completions(s.emitted) == 0
  {
    ReachableStart();
    var s1 := ReachableNext(START, CancelParent);
    var s2 := SetupOn(s1, Good);
    var s3 := SetupOn(s2, Good);
    var s4 := EndOn(s3);
    CompletionsAtRest(s4);
  }

  lemma AtWriteRules() returns (s: State)
    ensures Reachable(s) && s.pc == WriteRules && !s.done
  {
    var s0 := AtNetworkChoice();
    var s1 := PolicyOn(s0, AllowlistPolicy);
    var s2 := PolicyOn(s1, RulesGood);
    var s3 := NetworkOn(s2, NetworkUp);
    s := NetworkOn(s3, Good);
  }

  lemma ReportAndWin(s: State) returns (s': State)
    requires Reachable(s) && s.pc.Reporting? && !s.done
    ensures Reachable(s') && s'.winner.TheRun? && s'.rulesFailed == s.rulesFailed && s'.waitFailed == s.waitFailed
  {
    var s1 := EndOn(s);
    s' := EndOn(s1);
  }

  /** A policy run whose rules file cannot be written completes with its network still there. */
  lemma UnwritableRulesLeakTheNetwork()
    ensures exists s :: Reachable(s) && s.winner.TheRun? && s.rulesFailed && Network in Live(s)
  {
    var s0 := AtWriteRules();
    var s1 := NetworkOn(s0, WriteFailed);
    var s2 := ReportAndWin(s1);
    UncancelledRunCleansUp(s2);
  }

  lemma AtAgentStart() returns (s: State)
    ensures Under(s, AgentStart(false), Lookup)
  {
    var s0 := AtNetworkChoice();
    s := PolicyOn(s0, OtherPolicy);
  }

  lemma AtAgentWait() returns (s: State)
    ensures Reachable(s) && s.pc == AgentWait(false) && !s.done && !ContextDead(s) && s.beganLive
  {
    var s0 := AtAgentStart();
    var s1 := AgentOn(s0, AgentUp);
    s := AgentOn(s1, Good);
  }

  /** A run whose wait for its agent container fails completes with the container still there. */
  lemma FailedWaitLeaksTheAgent()
    ensures exists s :: Reachable(s) && s.winner.TheRun? && s.waitFailed && Agent in Live(s)
  {
    var s0 := AtAgentWait();
    var s1 := AgentOn(s0, WaitFailed(false));
    var s2 := ReportAndWin(s1);
    UncancelledRunCleansUp(s2);
  }

  lemma SendsCode(s: State) returns (s': State)
    requires Reachable(s) && s.pc.Deciding? && !s.done
    ensures Reachable(s') && s'.emitted == s.emitted + [Completed(s.pc.success, WireCode(s.pc.exit))]
  {
    var s1 := EndOn(s);
    s' := EndOn(s1);
  }

  lemma AtLargeCode() returns (s: State)
    ensures Reachable(s) && s.pc == RemovingAgent(false, 0x1_0000_0000) && !s.done
  {
    var s0 := AtAgentWait();
    s := AgentOn(s0, AgentExited(0x1_0000_0000));
  }

  /** If docker prints 2^32, the worker sends failure with code 0. */
  lemma WrappedCodeIsSent()
    ensures exists s, i :: Reachable(s) && 0 <= i < |s.emitted| && s.emitted[i] == Completed(false, 0)
  {
    var s0 := AtLargeCode();
    var s1 := EndOn(s0);
    var s := SendsCode(s1);
    assert s.emitted[|s.emitted| - 1] == Completed(false, 0);
  }

  lemma StartsLate(s: State) returns (s': State)
    requires Reachable(s) && s.pc == AgentStart(false) && s.beganLive && s.done && s.runCancelled
    ensures Reachable(s') && s'.pc == AgentWait(false) && s'.cancels == s.cancels && Agent in s'.created
    ensures s'.missed == s.missed && s'.winner == s.winner && s'.done && s'.runCancelled
  {
    var s1 := AgentOn(s, AgentUp);
    s' := AgentOn(s1, Good);
  }

  lemma WaitStops(s: State) returns (s': State)
    requires Reachable(s) && s.pc == AgentWait(false) && s.done && s.runCancelled
    ensures Reachable(s') && s'.pc == Leaving && s'.cancels == s.cancels && s'.created == s.created
    ensures s'.missed == s.missed && s'.winner == s.winner
  {
    s' := AgentOn(s, WaitFailed(true));
  }

  /** The agent container comes up after the cancel has looked for it. */
  lemma StartedTooLate(s: State) returns (s': State)
    requires Reachable(s) && s.pc == AgentStart(false) && s.beganLive && s.done && s.runCancelled
    ensures Reachable(s') && s'.pc == Returned && s'.cancels == s.cancels && Agent in s'.created
    ensures s'.missed == s.missed && s'.winner == s.winner
  {
    var s1 := StartsLate(s);
    var s2 := WaitStops(s1);
    s' := EndOn(s2);
  }

  /** A cancel that reads the run's process while `docker run` is under way leaves the container. */
  lemma CancelDuringStartLeaksTheAgent()
    ensures exists s :: Reachable(s) && Quiet(s) && s.winner.TheCancel? && Agent in Live(s)
  {
    var s0 := AtAgentStart();
    var s1 := CancelLooksUp(s0, AgentStart(false));
    var s2 := CancelWins(s1, AgentStart(false));
    var s3 := CancelFindsNothing(s2);
    var s4 := StartedTooLate(s3);
    CancelledRunLeaves(s4);
  }
}

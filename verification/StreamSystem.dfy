/** The gateway's streams as a transition system: each step is one region that holds the
    gateway's lock, or one move of a subscriber's handler between such regions. The field
    `log` is bookkeeping: the append-only activity record of every stream since the last
    sweep that removed it. No step reads it. */
module StreamSystem {
  import opened Sequences
  import opened StreamHub

  datatype Activity =
    | Logged(env: Envelope, at: Stamps)
    | Recorded(worker: WorkerId, now: Time)

  datatype Phase = Streaming | Unregistered | Closed

  /** An event-stream handler: history still to write, what it has written, and its phase. */
  datatype Handler = Handler(stream: StreamId, backlog: seq<Envelope>, written: seq<Envelope>, phase: Phase)

  datatype System = System(hub: Hub, handlers: map<ChannelId, Handler>, clock: Time, log: map<StreamId, seq<Activity>>)

  datatype Step =
    | AppendEvent(id: StreamId, env: Envelope, at: Stamps)
    | CreateRun(id: StreamId, worker: WorkerId, now: Time)
    | CleanUp(now: Time)
    | Open(c: ChannelId, id: StreamId)
    | WriteBacklog(c: ChannelId)
    | Receive(c: ChannelId)
    | Unregister(c: ChannelId)
    | CloseChannel(c: ChannelId)

  const START := System(EMPTY_HUB, map[], 0, map[])

  predicate Enabled(s: System, step: Step) {
    match step
    case AppendEvent(_, _, at) => s.clock <= at.logged <= at.active <= at.done
    case CreateRun(_, _, now) => s.clock <= now
    case CleanUp(now) => s.clock <= now
    case Open(c, _) => c !in s.handlers && c !in s.hub.channels
    case WriteBacklog(c) => c in s.handlers && s.handlers[c].phase.Streaming? && s.handlers[c].backlog != []
    case Receive(c) =>
      && c in s.handlers && s.handlers[c].phase.Streaming? && s.handlers[c].backlog == []
      && c in s.hub.channels && s.hub.channels[c].buffer != []
    case Unregister(c) => c in s.handlers && s.handlers[c].phase.Streaming? && s.handlers[c].backlog == []
    case CloseChannel(c) => c in s.handlers && s.handlers[c].phase.Unregistered? && c in s.hub.channels
  }

  function History(log: map<StreamId, seq<Activity>>, id: StreamId): seq<Activity> {
    Lookup(log, id, [])
  }

  function Apply(s: System, step: Step): System
    requires Enabled(s, step)
  {
    match step
    case AppendEvent(id, env, at) =>
      s.(hub := Append(s.hub, id, env, at), clock := at.done,
         log := s.log[id := History(s.log, id) + [Logged(env, at)]])
    case CreateRun(id, worker, now) =>
      s.(hub := RecordRun(s.hub, id, worker, now), clock := now,
         log := s.log[id := History(s.log, id) + [Recorded(worker, now)]])
    case CleanUp(now) =>
      s.(hub := Sweep(s.hub, now - RETENTION), clock := now, log := s.log - ExpiredIds(s.hub, now - RETENTION))
    case Open(c, id) =>
      s.(hub := Subscribe(s.hub, id, c),
         handlers := s.handlers[c := Handler(id, Lookup(s.hub.events, id, []), [], Streaming)])
    case WriteBacklog(c) =>
      var h := s.handlers[c];
      s.(handlers := s.handlers[c := h.(written := h.written + [h.backlog[0]], backlog := h.backlog[1..])])
    case Receive(c) =>
      var h, ch := s.handlers[c], s.hub.channels[c];
      s.(handlers := s.handlers[c := h.(written := h.written + [ch.buffer[0]])],
         hub := s.hub.(channels := s.hub.channels[c := ch.(buffer := ch.buffer[1..])]))
    case Unregister(c) =>
      var h := s.handlers[c];
      s.(handlers := s.handlers[c := h.(phase := Unregistered)], hub := Unsubscribe(s.hub, h.stream, c))
    case CloseChannel(c) =>
      s.(handlers := s.handlers[c := s.handlers[c].(phase := Closed)],
         hub := s.hub.(channels := s.hub.channels[c := s.hub.channels[c].(open := false)]))
  }

  predicate Runs(s: System, steps: seq<Step>)
    decreases |steps|
  {
    steps == [] || (Enabled(s, steps[0]) && Runs(Apply(s, steps[0]), steps[1..]))
  }

  function Exec(s: System, steps: seq<Step>): System
    requires Runs(s, steps)
    decreases |steps|
  {
    if steps == [] then s else Exec(Apply(s, steps[0]), steps[1..])
  }

  // ---------------------------------------------------------------------------------------
  // What the hub's maps should hold, read off the activity record of one stream
  // ---------------------------------------------------------------------------------------

  function Find<V>(m: map<StreamId, V>, id: StreamId): Option<V> {
    if id in m then Some(m[id]) else None
  }

  function Envelopes(a: seq<Activity>): seq<Envelope> {
    if a == [] then []
    else
      var init := Envelopes(a[..|a| - 1]);
      var last := a[|a| - 1];
      if last.Logged? then init + [last.env] else init
  }

  function Stampings(a: seq<Activity>): seq<Time> {
    if a == [] then []
    else
      var init := Stampings(a[..|a| - 1]);
      var last := a[|a| - 1];
      if last.Logged? then init + [last.at.logged] else init
  }

  function LastActive(a: seq<Activity>): Option<Time> {
    if a == [] then None
    else
      var last := a[|a| - 1];
      Some(if last.Logged? then last.at.active else last.now)
  }

  function FinishedAt(a: seq<Activity>): Option<Time> {
    if a == [] then None
    else
      var last := a[|a| - 1];
      if last.Logged? && IsCompletion(last.env) then Some(last.at.done) else FinishedAt(a[..|a| - 1])
  }

  /** The worker recorded since the last completion. */
  function Owner(a: seq<Activity>): Option<WorkerId> {
    if a == [] then None
    else
      var last := a[|a| - 1];
      if last.Recorded? then Some(last.worker)
      else if IsCompletion(last.env) then None
      else Owner(a[..|a| - 1])
  }

  function Bounded<T>(s: seq<T>): Option<seq<T>> {
    if s == [] then None else Some(KeepLast(s, MAX_EVENTS))
  }

  /** All five maps of the hub, at one stream, are functions of that stream's full record. */
  ghost predicate RefinesAt(h: Hub, a: seq<Activity>, id: StreamId) {
    && Find(h.events, id) == Bounded(Envelopes(a))
    && Find(h.times, id) == Bounded(Stampings(a))
    && Find(h.lastAt, id) == LastActive(a)
    && Find(h.doneAt, id) == FinishedAt(a)
    && Find(h.runs, id) == Owner(a)
  }

  ghost predicate Refines(s: System) {
    forall id: StreamId :: RefinesAt(s.hub, History(s.log, id), id)
  }

  lemma RefinesAppend(h: Hub, a: seq<Activity>, id: StreamId, env: Envelope, at: Stamps)
    requires RefinesAt(h, a, id)
    ensures RefinesAt(Append(h, id, env, at), a + [Logged(env, at)], id)
  {
    assert (a + [Logged(env, at)])[..|a|] == a;
    KeepLastAppend(Envelopes(a), env, MAX_EVENTS);
    KeepLastAppend(Stampings(a), at.logged, MAX_EVENTS);
  }

  lemma RefinesRecord(h: Hub, a: seq<Activity>, id: StreamId, worker: WorkerId, now: Time)
    requires RefinesAt(h, a, id)
    ensures RefinesAt(RecordRun(h, id, worker, now), a + [Recorded(worker, now)], id)
  {
    assert (a + [Recorded(worker, now)])[..|a|] == a;
  }

  // ---------------------------------------------------------------------------------------
  // Channels and handlers
  // ---------------------------------------------------------------------------------------

  ghost predicate ChannelOk(s: System, c: ChannelId) {
    && (c in s.hub.channels <==> c in s.handlers)
    && (c in s.handlers ==>
          && (s.hub.channels[c].open <==> !s.handlers[c].phase.Closed?)
          && |s.hub.channels[c].buffer| <= CHANNEL_CAPACITY)
  }

  /** Registered under a stream: exactly the handlers of that stream that have subscribed and
      not yet unsubscribed. */
  ghost predicate RegisteredExactly(s: System, id: StreamId, c: ChannelId) {
    c in Subscribers(s.hub, id) <==>
      c in s.handlers && s.handlers[c].phase.Streaming? && s.handlers[c].stream == id
  }

  ghost predicate Registry(s: System) {
    && (forall c: ChannelId :: ChannelOk(s, c))
    && (forall id: StreamId, c: ChannelId :: RegisteredExactly(s, id, c))
    && (forall id | id in s.hub.subs :: s.hub.subs[id] != {})
  }

  ghost predicate Inv(s: System) {
    Registry(s) && Refines(s) && WellShaped(s.hub, s.clock)
  }

  lemma RegistryStep(s: System, step: Step)
    requires Registry(s) && Enabled(s, step)
    ensures Registry(Apply(s, step))
  {
    var s' := Apply(s, step);
    forall c: ChannelId ensures ChannelOk(s', c) {
      assert ChannelOk(s, c);
    }
    forall id: StreamId, c: ChannelId ensures RegisteredExactly(s', id, c) {
      assert RegisteredExactly(s, id, c);
      if step.Unregister? {
        assert RegisteredExactly(s, s.handlers[step.c].stream, c);
      }
    }
  }

  lemma RefinesStep(s: System, step: Step)
    requires Refines(s) && Enabled(s, step)
    ensures Refines(Apply(s, step))
  {
    var s' := Apply(s, step);
    forall id: StreamId ensures RefinesAt(s'.hub, History(s'.log, id), id) {
      assert RefinesAt(s.hub, History(s.log, id), id);
      match step
      case AppendEvent(i, env, at) =>
        if i == id { RefinesAppend(s.hub, History(s.log, id), id, env, at); }
      case CreateRun(i, worker, now) =>
        if i == id { RefinesRecord(s.hub, History(s.log, id), id, worker, now); }
      case CleanUp(_) =>
      case _ =>
        assert History(s'.log, id) == History(s.log, id);
    }
  }

  lemma ShapeStep(s: System, step: Step)
    requires WellShaped(s.hub, s.clock) && Registry(s) && Enabled(s, step)
    ensures WellShaped(Apply(s, step).hub, Apply(s, step).clock)
  {
    var s' := Apply(s, step);
    RegistryStep(s, step);
    forall id, c | id in s'.hub.subs && c in s'.hub.subs[id] ensures c in s'.hub.channels && s'.hub.channels[c].open {
      assert RegisteredExactly(s', id, c) && ChannelOk(s', c);
    }
    forall id | id in s'.hub.events.Keys + s'.hub.times.Keys ensures LogShape(s'.hub, s'.clock, id) {
      assert id in s.hub.events.Keys + s.hub.times.Keys ==> LogShape(s.hub, s.clock, id);
      if step.AppendEvent? {
        AppendKeepsShape(s.hub, s.clock, step.id, step.env, step.at);
      }
    }
  }

  lemma {:induction false} InvAlways(s: System, steps: seq<Step>)
    requires Inv(s) && Runs(s, steps)
    ensures Inv(Exec(s, steps))
    decreases |steps|
  {
    if steps != [] {
      RegistryStep(s, steps[0]);
      RefinesStep(s, steps[0]);
      ShapeStep(s, steps[0]);
      InvAlways(Apply(s, steps[0]), steps[1..]);
    }
  }

  ghost predicate Reachable(s: System) {
    exists steps :: Runs(START, steps) && Exec(START, steps) == s
  }

  lemma ReachableInv(s: System)
    requires Reachable(s)
    ensures Inv(s)
  {
    var steps :| Runs(START, steps) && Exec(START, steps) == s;
    assert Inv(START) by {
      forall id: StreamId ensures RefinesAt(START.hub, History(START.log, id), id) {}
    }
    InvAlways(START, steps);
  }

  // ---------------------------------------------------------------------------------------
  // The bounded log and the maps beside it
  // ---------------------------------------------------------------------------------------

  /** In every reachable state the event list of a stream is the last min(n, 2000) of the n
      envelopes appended since it was last swept, and the time list is their timestamps, of
      the same length and nondecreasing. */
  lemma BoundedLogRefinesFullLog(s: System, id: StreamId)
    requires Reachable(s)
    ensures var full := Envelopes(History(s.log, id));
            var events := Lookup(s.hub.events, id, []);
            var times := Lookup(s.hub.times, id, []);
            && |events| == (if |full| < 2000 then |full| else 2000)
            && events == full[|full| - |events|..]
            && times == KeepLast(Stampings(History(s.log, id)), 2000)
            && |times| == |events| && NonDecreasing(times)
  {
    ReachableInv(s);
    assert RefinesAt(s.hub, History(s.log, id), id);
    assert id in s.hub.events.Keys + s.hub.times.Keys ==> LogShape(s.hub, s.clock, id);
  }

  /** Completion marks and run owners, too, are functions of the record: a stream is marked
      done when and only when a completion was appended, and it keeps an owner exactly when
      it was recorded after the last completion. */
  lemma MarksFollowTheRecord(s: System, id: StreamId)
    requires Reachable(s)
    ensures Find(s.hub.doneAt, id) == FinishedAt(History(s.log, id))
    ensures Find(s.hub.runs, id) == Owner(History(s.log, id))
    ensures Find(s.hub.lastAt, id) == LastActive(History(s.log, id))
  {
    ReachableInv(s);
    assert RefinesAt(s.hub, History(s.log, id), id);
  }

  /** A logged event of the kind COMPLETED. */
  predicate Finishes(a: Activity) {
    a.Logged? && a.env.event.Some? && a.env.event.value.kind == CompletedKind
  }

  /** Activity i is the last that finishes the stream's run. */
  ghost predicate LastFinish(a: seq<Activity>, i: nat) {
    i < |a| && Finishes(a[i]) && forall j | i < j < |a| :: !Finishes(a[j])
  }

  /** Activity i is the last recording of the run, and no completion has come since. */
  ghost predicate StillOwned(a: seq<Activity>, i: nat) {
    i < |a| && a[i].Recorded? && forall j | i < j < |a| :: !a[j].Recorded? && !Finishes(a[j])
  }

  lemma LongerFinish(a: seq<Activity>, i: nat)
    requires a != [] && !Finishes(a[|a| - 1])
    ensures LastFinish(a[..|a| - 1], i) ==> LastFinish(a, i)
    ensures StillOwned(a[..|a| - 1], i) && !a[|a| - 1].Recorded? ==> StillOwned(a, i)
  {
    var init := a[..|a| - 1];
    assert forall j | 0 <= j < |init| :: init[j] == a[j];
  }

  lemma {:induction false} FinishedAtIs(a: seq<Activity>)
    ensures FinishedAt(a).None? ==> forall i | 0 <= i < |a| :: !Finishes(a[i])
    ensures FinishedAt(a).Some? ==> exists i: nat :: LastFinish(a, i) && FinishedAt(a).value == a[i].at.done
  {
    if a != [] {
      var n := |a| - 1;
      if Finishes(a[n]) {
        assert LastFinish(a, n);
      } else {
        FinishedAtIs(a[..n]);
        assert forall j | 0 <= j < n :: a[..n][j] == a[j];
        if FinishedAt(a).Some? {
          var i: nat :| LastFinish(a[..n], i) && FinishedAt(a[..n]).value == a[..n][i].at.done;
          LongerFinish(a, i);
        }
      }
    }
  }

  lemma {:induction false} OwnerIs(a: seq<Activity>)
    ensures Owner(a).None? ==> forall i: nat :: !StillOwned(a, i)
    ensures Owner(a).Some? ==> exists i: nat :: StillOwned(a, i) && Owner(a).value == a[i].worker
  {
    if a != [] {
      var n := |a| - 1;
      assert forall j | 0 <= j < n :: a[..n][j] == a[j];
      if a[n].Recorded? {
        assert StillOwned(a, n);
      } else if !Finishes(a[n]) {
        OwnerIs(a[..n]);
        if Owner(a).Some? {
          var i: nat :| StillOwned(a[..n], i) && Owner(a[..n]).value == a[..n][i].worker;
          LongerFinish(a, i);
        } else {
          forall i: nat ensures !StillOwned(a, i) {
            if StillOwned(a, i) {
              assert StillOwned(a[..n], i);
            }
          }
        }
      }
    }
  }

  lemma OneLastFinish(a: seq<Activity>, i: nat, j: nat)
    requires LastFinish(a, i) && LastFinish(a, j)
    ensures i == j
  {
  }

  /** In every reachable state a stream is marked done exactly when an event of the kind COMPLETED
      has been logged for it since it was last swept, at the time of the last one; it has an owner
      exactly when its run was recorded and no such event has been logged since; and its activity
      mark is the time of its last activity. */
  lemma MarksWrittenOut(s: System, id: StreamId)
    requires Reachable(s)
    ensures var a, h := History(s.log, id), s.hub;
            && (id in h.doneAt <==> exists i | 0 <= i < |a| :: Finishes(a[i]))
            && (forall i: nat :: LastFinish(a, i) && id in h.doneAt ==> h.doneAt[id] == a[i].at.done)
            && (id in h.runs <==> exists i: nat :: StillOwned(a, i))
            && (forall i: nat :: StillOwned(a, i) && id in h.runs ==> h.runs[id] == a[i].worker)
            && (id in h.lastAt <==> a != [])
            && (id in h.lastAt ==> h.lastAt[id] == if a[|a| - 1].Logged? then a[|a| - 1].at.active else a[|a| - 1].now)
  {
    var a, h := History(s.log, id), s.hub;
    MarksFollowTheRecord(s, id);
    FinishedAtIs(a);
    OwnerIs(a);
    forall i: nat | LastFinish(a, i) && id in h.doneAt ensures h.doneAt[id] == a[i].at.done {
      var j: nat :| LastFinish(a, j) && FinishedAt(a).value == a[j].at.done;
      OneLastFinish(a, i, j);
    }
    forall i: nat | StillOwned(a, i) && id in h.runs ensures h.runs[id] == a[i].worker {
      var j: nat :| StillOwned(a, j) && Owner(a).value == a[j].worker;
      assert i == j;
    }
  }

  /** What one append does, field by field: both lists keep their last 2000 entries, only an event
      of the kind COMPLETED marks the stream done and takes its owner away, and a subscriber is
      offered the envelope and loses it exactly when 64 are already waiting in its channel. */
  lemma AppendWrittenOut(s: System, id: StreamId, env: Envelope, at: Stamps)
    requires Reachable(s) && Enabled(s, AppendEvent(id, env, at))
    ensures var h, h' := s.hub, Apply(s, AppendEvent(id, env, at)).hub;
            var finished := env.event.Some? && env.event.value.kind == CompletedKind;
            var events, times := Lookup(h.events, id, []) + [env], Lookup(h.times, id, []) + [at.logged];
            && id in h'.events && h'.events[id] == (if |events| <= 2000 then events else events[|events| - 2000..])
            && id in h'.times && h'.times[id] == (if |times| <= 2000 then times else times[|times| - 2000..])
            && h'.lastAt == h.lastAt[id := at.active]
            && h'.doneAt == (if finished then h.doneAt[id := at.done] else h.doneAt)
            && h'.runs == (if finished then h.runs - {id} else h.runs)
            && h'.subs == h.subs
    ensures var h, h' := s.hub, Apply(s, AppendEvent(id, env, at)).hub;
            && h'.channels.Keys == h.channels.Keys
            && forall c | c in h.channels ::
                 h'.channels[c] == if id in h.subs && c in h.subs[id] && |h.channels[c].buffer| < 64
                                   then h.channels[c].(buffer := h.channels[c].buffer + [env])
                                   else h.channels[c]
  {
  }

  /** A run whose completion arrives before its creation is recorded stays in `runs`. */
  lemma FinishedRunCanKeepItsOwner(id: StreamId, worker: WorkerId)
    ensures exists s :: Reachable(s) && id in s.hub.doneAt && id in s.hub.runs
  {
    var env := Envelope(id, 1, Some(RunEvent(CompletedKind, Completion(true, 0))));
    var append, record := AppendEvent(id, env, Stamps(1, 1, 1)), CreateRun(id, worker, 2);
    var mid := Apply(START, append);
    var end := Apply(mid, record);
    assert [append, record][1..] == [record] && [record][1..] == [];
    OneStep(mid, record);
    assert Runs(START, [append, record]) && Exec(START, [append, record]) == end;
    assert id in end.hub.doneAt && id in end.hub.runs;
  }

  // ---------------------------------------------------------------------------------------
  // Sweeping
  // ---------------------------------------------------------------------------------------

  ghost predicate Mentions(h: Hub, id: StreamId) {
    id in h.events || id in h.times || id in h.lastAt || id in h.doneAt || id in h.runs
  }

  /** A sweep removes exactly the expired ids from every map, leaves the rest as they were,
      and leaves nothing stale in any map: whatever is still mentioned has an activity mark
      and is not expired. */
  lemma SweepLeavesNothingStale(s: System, now: Time, id: StreamId)
    requires Reachable(s) && s.clock <= now
    ensures var cutoff := now - RETENTION;
            var h, h' := s.hub, Apply(s, CleanUp(now)).hub;
            && (Expired(h, cutoff, id) ==> !Mentions(h', id) && id !in h'.subs)
            && (!Expired(h, cutoff, id) ==>
                  && Find(h'.events, id) == Find(h.events, id) && Find(h'.times, id) == Find(h.times, id)
                  && Find(h'.lastAt, id) == Find(h.lastAt, id) && Find(h'.doneAt, id) == Find(h.doneAt, id)
                  && Find(h'.runs, id) == Find(h.runs, id) && Find(h'.subs, id) == Find(h.subs, id))
            && (Mentions(h', id) ==> id in h'.lastAt && !Expired(h', cutoff, id))
            && (id in h'.events <==> id in h'.times)
  {
    ReachableInv(s);
    assert RefinesAt(s.hub, History(s.log, id), id);
    ViewsAreNested(History(s.log, id));
  }

  /** The same with nothing abbreviated: a sweep at `now` forgets exactly the streams without
      subscribers that finished at least ten minutes ago or, if not finished, have been idle for
      ten minutes. */
  lemma SweepWrittenOut(s: System, now: Time, id: StreamId)
    requires Reachable(s) && s.clock <= now
    ensures var h, h' := s.hub, Apply(s, CleanUp(now)).hub;
            var cutoff := now - 10 * 60 * 1_000_000_000;
            var goes := (id !in h.subs || h.subs[id] == {})
                        && (if id in h.doneAt then h.doneAt[id] <= cutoff
                            else id in h.lastAt && h.lastAt[id] <= cutoff);
            && (goes ==> id !in h'.events && id !in h'.times && id !in h'.lastAt && id !in h'.doneAt
                         && id !in h'.runs && id !in h'.subs)
            && (!goes ==> Find(h'.events, id) == Find(h.events, id) && Find(h'.times, id) == Find(h.times, id)
                          && Find(h'.lastAt, id) == Find(h.lastAt, id) && Find(h'.doneAt, id) == Find(h.doneAt, id)
                          && Find(h'.runs, id) == Find(h.runs, id) && Find(h'.subs, id) == Find(h.subs, id))
            && h'.channels == h.channels
  {
    SweepLeavesNothingStale(s, now, id);
  }

  lemma {:induction false} ViewsAreNested(a: seq<Activity>)
    ensures |Envelopes(a)| == |Stampings(a)|
    ensures a == [] ==> Envelopes(a) == [] && FinishedAt(a) == None && Owner(a) == None
    ensures a != [] ==> LastActive(a).Some?
  {
    if a != [] {
      ViewsAreNested(a[..|a| - 1]);
    }
  }

  // ---------------------------------------------------------------------------------------
  // Subscribers
  // ---------------------------------------------------------------------------------------

  /** The channels an append sends to are open, and are exactly those of the handlers that
      have subscribed to the stream and not yet unsubscribed; no empty set is stored. */
  lemma NeverSendsOnClosedChannel(s: System, id: StreamId, c: ChannelId)
    requires Reachable(s)
    ensures c in Subscribers(s.hub, id) <==>
              c in s.handlers && s.handlers[c].phase.Streaming? && s.handlers[c].stream == id
    ensures c in Subscribers(s.hub, id) ==> c in s.hub.channels && s.hub.channels[c].open
    ensures id in s.hub.subs ==> s.hub.subs[id] != {}
  {
    ReachableInv(s);
    assert RegisteredExactly(s, id, c) && ChannelOk(s, c);
  }

  lemma SweepKeepsSubscribers(s: System, now: Time, id: StreamId)
    requires s.clock <= now
    ensures Subscribers(Apply(s, CleanUp(now)).hub, id) == Subscribers(s.hub, id)
    ensures Subscribers(s.hub, id) != {} ==>
              Find(Apply(s, CleanUp(now)).hub.events, id) == Find(s.hub.events, id)
  {
  }

  /** Everything that has reached, or is on its way to, the subscriber. */
  function Delivered(s: System, c: ChannelId): seq<Envelope>
    requires c in s.handlers && c in s.hub.channels
  {
    s.handlers[c].written + s.handlers[c].backlog + s.hub.channels[c].buffer
  }

  /** An envelope appended while the channel was registered, and whether the 64-slot buffer
      was full at that moment. */
  datatype Offering = Offering(env: Envelope, full: bool)

  function Offered(s: System, step: Step, c: ChannelId): seq<Offering> {
    if step.AppendEvent? && c in Subscribers(s.hub, step.id) && c in s.hub.channels
    then [Offering(step.env, Full(s.hub.channels[c]))]
    else []
  }

  function Offerings(s: System, steps: seq<Step>, c: ChannelId): seq<Offering>
    requires Runs(s, steps)
    decreases |steps|
  {
    if steps == [] then [] else Offered(s, steps[0], c) + Offerings(Apply(s, steps[0]), steps[1..], c)
  }

  function All(o: seq<Offering>): seq<Envelope> {
    if o == [] then [] else [o[0].env] + All(o[1..])
  }

  /** Those that found room. */
  function Kept(o: seq<Offering>): seq<Envelope> {
    if o == [] then [] else if o[0].full then Kept(o[1..]) else [o[0].env] + Kept(o[1..])
  }

  predicate NeverFull(o: seq<Offering>) {
    forall i | 0 <= i < |o| :: !o[i].full
  }

  lemma {:induction false} KeptOfSum(a: seq<Offering>, b: seq<Offering>)
    ensures Kept(a + b) == Kept(a) + Kept(b) && All(a + b) == All(a) + All(b)
  {
    if a == [] {
      assert a + b == b;
    } else {
      KeptOfSum(a[1..], b);
      assert (a + b)[0] == a[0] && (a + b)[1..] == a[1..] + b;
      ConcatAssociates([a[0].env], All(a[1..]), All(b));
      ConcatAssociates([a[0].env], Kept(a[1..]), Kept(b));
    }
  }

  lemma {:induction false} KeptIsSubsequence(o: seq<Offering>)
    ensures Subsequence(Kept(o), All(o))
    ensures NeverFull(o) ==> Kept(o) == All(o)
    ensures Kept(o) == All(o) ==> NeverFull(o)
    ensures |Kept(o)| <= |All(o)|
  {
    if o != [] {
      KeptIsSubsequence(o[1..]);
      assert NeverFull(o) ==> NeverFull(o[1..]);
      assert All(o)[1..] == All(o[1..]);
      if !o[0].full {
        assert Kept(o)[1..] == Kept(o[1..]);
        assert NeverFull(o[1..]) ==> NeverFull(o) by {
          assert forall i | 0 < i < |o| :: o[i] == o[1..][i - 1];
        }
      }
    }
  }

  /** From s to s', handler c kept its stream and was given exactly these envelopes more. */
  ghost predicate Given(s: System, s': System, c: ChannelId, more: seq<Envelope>) {
    && c in s.handlers && c in s.hub.channels && c in s'.handlers && c in s'.hub.channels
    && Delivered(s', c) == Delivered(s, c) + more
    && s'.handlers[c].stream == s.handlers[c].stream
    && (s'.handlers[c].phase.Streaming? ==> s.handlers[c].phase.Streaming?)
  }

  lemma GivenStep(s: System, step: Step, c: ChannelId)
    requires Enabled(s, step) && c in s.handlers && c in s.hub.channels
    ensures Given(s, Apply(s, step), c, Kept(Offered(s, step, c)))
  {
  }

  lemma GivenTwice(s: System, mid: System, end: System, c: ChannelId, a: seq<Offering>, b: seq<Offering>)
    requires Given(s, mid, c, Kept(a)) && Given(mid, end, c, Kept(b))
    ensures Given(s, end, c, Kept(a + b))
  {
    KeptOfSum(a, b);
    ConcatAssociates(Delivered(s, c), Kept(a), Kept(b));
  }

  lemma ConcatAssociates<T>(x: seq<T>, y: seq<T>, z: seq<T>)
    ensures (x + y) + z == x + (y + z)
  {
  }

  lemma {:induction false} GivenRun(s: System, steps: seq<Step>, c: ChannelId)
    requires Runs(s, steps) && c in s.handlers && c in s.hub.channels
    ensures Given(s, Exec(s, steps), c, Kept(Offerings(s, steps, c)))
    decreases |steps|
  {
    if steps != [] {
      var mid := Apply(s, steps[0]);
      GivenStep(s, steps[0], c);
      GivenRun(mid, steps[1..], c);
      GivenTwice(s, mid, Exec(s, steps), c, Offered(s, steps[0], c), Offerings(mid, steps[1..], c));
    }
  }

  lemma OneStep(s: System, step: Step)
    requires Enabled(s, step)
    ensures Runs(s, [step]) && Exec(s, [step]) == Apply(s, step)
  {
    assert [step][1..] == [];
  }

  /** What LogGrowsRun needs of the registry: it is right about channel c. */
  ghost predicate RegisteredRight(s: System, c: ChannelId) {
    ChannelOk(s, c) && forall id: StreamId :: RegisteredExactly(s, id, c)
  }

  lemma RegisteredRightStep(s: System, step: Step, c: ChannelId)
    requires RegisteredRight(s, c) && Enabled(s, step)
    ensures RegisteredRight(Apply(s, step), c)
  {
    var s' := Apply(s, step);
    assert ChannelOk(s, c);
    forall id: StreamId ensures RegisteredExactly(s', id, c) {
      assert RegisteredExactly(s, id, c);
      if step == Unregister(c) {
        assert RegisteredExactly(s, s.handlers[c].stream, c);
      }
    }
  }

  /** While the handler is subscribed, the stream's full log grows by exactly what is offered. */
  lemma LogGrowsStep(s: System, step: Step, c: ChannelId)
    requires RegisteredRight(s, c) && Enabled(s, step) && c in s.handlers && s.handlers[c].phase.Streaming?
    ensures var id := s.handlers[c].stream;
            Envelopes(History(Apply(s, step).log, id)) == Envelopes(History(s.log, id)) + All(Offered(s, step, c))
  {
    var id := s.handlers[c].stream;
    var a := History(s.log, id);
    assert RegisteredExactly(s, id, c) && ChannelOk(s, c);
    match step
    case AppendEvent(i, env, at) =>
      assert RegisteredExactly(s, i, c);
      assert (a + [Logged(env, at)])[..|a|] == a;
    case CreateRun(_, worker, now) =>
      assert (a + [Recorded(worker, now)])[..|a|] == a;
    case _ =>
  }

  lemma SubscribedThroughout(s: System, steps: seq<Step>, c: ChannelId)
    requires RegisteredRight(s, c) && Runs(s, steps) && steps != [] && c in s.handlers
    requires c in Exec(s, steps).handlers && Exec(s, steps).handlers[c].phase.Streaming?
    ensures s.handlers[c].phase.Streaming?
    ensures var mid := Apply(s, steps[0]);
            c in mid.handlers && mid.handlers[c].phase.Streaming? && mid.handlers[c].stream == s.handlers[c].stream
  {
    var mid := Apply(s, steps[0]);
    assert c in s.hub.channels by { assert ChannelOk(s, c); }
    GivenStep(s, steps[0], c);
    GivenRun(mid, steps[1..], c);
  }

  lemma {:induction false} LogGrowsRun(s: System, steps: seq<Step>, c: ChannelId)
    requires RegisteredRight(s, c) && Runs(s, steps) && c in s.handlers
    requires c in Exec(s, steps).handlers && Exec(s, steps).handlers[c].phase.Streaming?
    ensures var id := s.handlers[c].stream;
            Envelopes(History(Exec(s, steps).log, id)) == Envelopes(History(s.log, id)) + All(Offerings(s, steps, c))
    decreases |steps|
  {
    if steps != [] {
      var mid := Apply(s, steps[0]);
      SubscribedThroughout(s, steps, c);
      LogGrowsStep(s, steps[0], c);
      RegisteredRightStep(s, steps[0], c);
      LogGrowsRun(mid, steps[1..], c);
      KeptOfSum(Offered(s, steps[0], c), Offerings(mid, steps[1..], c));
      ConcatAssociates(Envelopes(History(s.log, s.handlers[c].stream)),
                       All(Offered(s, steps[0], c)),
                       All(Offerings(mid, steps[1..], c)));
    }
  }

  lemma OpenTakesSnapshot(s: System, c: ChannelId, id: StreamId)
    requires Reachable(s) && Enabled(s, Open(c, id))
    ensures var after := Apply(s, Open(c, id));
            && c in after.handlers && c in after.hub.channels
            && Delivered(after, c) == KeepLast(Envelopes(History(s.log, id)), 2000)
  {
    BoundedLogRefinesFullLog(s, id);
  }

  /** Snapshot plus live. After any run that follows a subscription, what the handler has
      written, has left of its history and has in its channel is the bounded log at the
      moment it subscribed, followed by those envelopes appended since that found room in
      its channel: in order, none twice, none missing except at a full channel. */
  lemma SnapshotThenLive(s: System, c: ChannelId, id: StreamId, steps: seq<Step>)
    requires Reachable(s) && Enabled(s, Open(c, id)) && Runs(Apply(s, Open(c, id)), steps)
    ensures var after := Apply(s, Open(c, id));
            var end := Exec(after, steps);
            var offered := Offerings(after, steps, c);
            && c in end.handlers && c in end.hub.channels
            && Delivered(end, c) == KeepLast(Envelopes(History(s.log, id)), 2000) + Kept(offered)
            && Subsequence(Kept(offered), All(offered))
            && (Kept(offered) == All(offered) <==> NeverFull(offered))
  {
    var after := Apply(s, Open(c, id));
    OpenTakesSnapshot(s, c, id);
    GivenRun(after, steps, c);
    KeptIsSubsequence(Offerings(after, steps, c));
  }

  lemma OpenRegisters(s: System, c: ChannelId, id: StreamId)
    requires Reachable(s) && Enabled(s, Open(c, id))
    ensures RegisteredRight(Apply(s, Open(c, id)), c)
  {
    ReachableInv(s);
    assert RegisteredRight(s, c) by {
      assert ChannelOk(s, c);
    }
    RegisteredRightStep(s, Open(c, id), c);
  }

  /** No gap at the boundary: a subscriber that is still subscribed, whose channel was never
      full at an append and whose stream had at most 2000 envelopes when it subscribed, has
      been given the stream's whole log, and the log is what was there plus what was offered. */
  lemma NoGapAtTheBoundary(s: System, c: ChannelId, id: StreamId, steps: seq<Step>)
    requires Reachable(s) && Enabled(s, Open(c, id)) && Runs(Apply(s, Open(c, id)), steps)
    requires var end := Exec(Apply(s, Open(c, id)), steps); c in end.handlers && end.handlers[c].phase.Streaming?
    ensures var after := Apply(s, Open(c, id));
            var end := Exec(after, steps);
            var offered := Offerings(after, steps, c);
            && c in end.hub.channels
            && Envelopes(History(end.log, id)) == Envelopes(History(s.log, id)) + All(offered)
            && (|Envelopes(History(s.log, id))| <= 2000 ==>
                  (Delivered(end, c) == Envelopes(History(end.log, id)) <==> NeverFull(offered)))
  {
    var after := Apply(s, Open(c, id));
    var offered := Offerings(after, steps, c);
    SnapshotThenLive(s, c, id, steps);
    OpenRegisters(s, c, id);
    LogGrowsRun(after, steps, c);
    if |Envelopes(History(s.log, id))| <= MAX_EVENTS {
      var past, kept, all := Envelopes(History(s.log, id)), Kept(offered), All(offered);
      if past + kept == past + all {
        assert (past + kept)[|past|..] == kept && (past + all)[|past|..] == all;
      }
    }
  }
}

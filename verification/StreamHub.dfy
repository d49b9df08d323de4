/** The per-stream state of the gateway (pkg/server/server.go): a bounded event log, its
    timestamps, activity and completion marks, run owners and subscriber channels.
    Each function below is the effect of one region that holds the gateway's lock; the class
    at the end executes those regions in place. */
module StreamHub {
  import opened Sequences

  type StreamId = string
  type WorkerId = string
  type ChannelId = nat
  /** Nanoseconds on the gateway's clock. */
  type Time = int

  const MAX_EVENTS: nat := 2000
  const CHANNEL_CAPACITY: nat := 64
  const RETENTION: Time := 600_000_000_000
  const NANOS_PER_MILLI: Time := 1_000_000

  datatype Kind = StatusKind | DeltaKind | ErrorKind | CompletedKind
  datatype Payload = NoPayload | Status(text: string) | Error(code: string) | Completion(success: bool, exitCode: int)
  datatype RunEvent = RunEvent(kind: Kind, payload: Payload)
  datatype Envelope = Envelope(stream: StreamId, seqno: nat, event: Option<RunEvent>)

  /** A subscriber channel: its queued envelopes and whether it is still open. */
  datatype Channel = Channel(buffer: seq<Envelope>, open: bool)

  /** The clock readings taken while one event is appended, in order. */
  datatype Stamps = Stamps(logged: Time, active: Time, done: Time)

  datatype Hub = Hub(
    events: map<StreamId, seq<Envelope>>,
    times: map<StreamId, seq<Time>>,
    lastAt: map<StreamId, Time>,
    doneAt: map<StreamId, Time>,
    runs: map<StreamId, WorkerId>,
    subs: map<StreamId, set<ChannelId>>,
    channels: map<ChannelId, Channel>)

  const EMPTY_HUB := Hub(map[], map[], map[], map[], map[], map[], map[])

  predicate IsCompletion(env: Envelope) {
    env.event.Some? && env.event.value.kind.CompletedKind?
  }

  function Subscribers(h: Hub, id: StreamId): set<ChannelId> {
    Lookup(h.subs, id, {})
  }

  predicate Full(ch: Channel) {
    |ch.buffer| >= CHANNEL_CAPACITY
  }

  /** A non-blocking send: the envelope is lost when the buffer is full. */
  function Offer(ch: Channel, env: Envelope): Channel {
    if Full(ch) then ch else ch.(buffer := ch.buffer + [env])
  }

  function Append(h: Hub, id: StreamId, env: Envelope, at: Stamps): Hub {
    h.(events := h.events[id := KeepLast(Lookup(h.events, id, []) + [env], MAX_EVENTS)],
       times := h.times[id := KeepLast(Lookup(h.times, id, []) + [at.logged], MAX_EVENTS)],
       lastAt := h.lastAt[id := at.active],
       doneAt := if IsCompletion(env) then h.doneAt[id := at.done] else h.doneAt,
       runs := if IsCompletion(env) then h.runs - {id} else h.runs,
       channels := Broadcast(h.channels, Subscribers(h, id), env))
  }

  function Broadcast(channels: map<ChannelId, Channel>, to: set<ChannelId>, env: Envelope): map<ChannelId, Channel> {
    map c | c in channels :: if c in to then Offer(channels[c], env) else channels[c]
  }

  /** The bookkeeping at the end of a run's creation. */
  function RecordRun(h: Hub, id: StreamId, worker: WorkerId, now: Time): Hub {
    h.(runs := h.runs[id := worker], lastAt := h.lastAt[id := now])
  }

  function Subscribe(h: Hub, id: StreamId, c: ChannelId): Hub {
    h.(subs := h.subs[id := Subscribers(h, id) + {c}],
       channels := h.channels[c := Channel([], true)])
  }

  function Unsubscribe(h: Hub, id: StreamId, c: ChannelId): Hub {
    var left := Subscribers(h, id) - {c};
    h.(subs := if id !in h.subs then h.subs else if left == {} then h.subs - {id} else h.subs[id := left])
  }

  /** What the sweep is meant to remove, said without reference to any iteration order. */
  predicate Expired(h: Hub, cutoff: Time, id: StreamId) {
    && Subscribers(h, id) == {}
    && (if id in h.doneAt then h.doneAt[id] <= cutoff else id in h.lastAt && h.lastAt[id] <= cutoff)
  }

  function Forget(h: Hub, ids: set<StreamId>): Hub {
    h.(events := h.events - ids, times := h.times - ids, lastAt := h.lastAt - ids,
       doneAt := h.doneAt - ids, runs := h.runs - ids, subs := h.subs - ids)
  }

  function ExpiredIds(h: Hub, cutoff: Time): set<StreamId> {
    set id | id in h.doneAt.Keys + h.lastAt.Keys && Expired(h, cutoff, id)
  }

  function Sweep(h: Hub, cutoff: Time): Hub {
    Forget(h, ExpiredIds(h, cutoff))
  }

  // ---------------------------------------------------------------------------------------
  // Facts about the log and its timestamps that the run-detail page relies on
  // ---------------------------------------------------------------------------------------

  predicate LogShape(h: Hub, clock: Time, id: StreamId) {
    var times := Lookup(h.times, id, []);
    && |Lookup(h.events, id, [])| == |times|
    && NonDecreasing(times)
    && forall k | 0 <= k < |times| :: times[k] <= clock
  }

  predicate WellShaped(h: Hub, clock: Time) {
    && (forall id | id in h.events.Keys + h.times.Keys :: LogShape(h, clock, id))
    && (forall id, c | id in h.subs && c in h.subs[id] :: c in h.channels && h.channels[c].open)
  }

  /** One row of the stage table: status, time, milliseconds since the previous row. */
  datatype StageRow = StageRow(status: string, at: Time, delta: Option<int>)

  function StatusOf(env: Envelope): Option<string> {
    if env.event.Some? && env.event.value.payload.Status? then Some(env.event.value.payload.text) else None
  }

  /** The positions of the status events, in order. */
  function StatusPositions(history: seq<Envelope>): seq<nat> {
    if history == [] then []
    else
      var last := |history| - 1;
      var init := StatusPositions(history[..last]);
      if StatusOf(history[last]).Some? then init + [last] else init
  }

  ghost predicate ExactPositions(at: seq<nat>, history: seq<Envelope>) {
    && (forall j | 0 <= j < |at| :: at[j] < |history| && StatusOf(history[at[j]]).Some?)
    && (forall j, k | 0 <= j < k < |at| :: at[j] < at[k])
    && (forall i | 0 <= i < |history| && StatusOf(history[i]).Some? :: i in at)
  }

  lemma {:induction false} StatusPositionsExact(history: seq<Envelope>)
    ensures ExactPositions(StatusPositions(history), history)
  {
    if history != [] {
      var last := |history| - 1;
      var init := StatusPositions(history[..last]);
      StatusPositionsExact(history[..last]);
      var at := StatusPositions(history);
      forall j | 0 <= j < |at| ensures at[j] < |history| && StatusOf(history[at[j]]).Some? {
        if j < |init| {
          assert at[j] == init[j];
        }
      }
      forall i | 0 <= i < |history| && StatusOf(history[i]).Some? ensures i in at {
        if i < last {
          assert history[..last][i] == history[i];
          assert i in init;
        }
      }
    }
  }

  function StageTable(history: seq<Envelope>, times: seq<Time>): seq<StageRow>
    requires |history| == |times|
  {
    if history == [] then []
    else
      var last := |history| - 1;
      var init := StageTable(history[..last], times[..last]);
      match StatusOf(history[last])
      case None => init
      case Some(text) =>
        init + [StageRow(text, times[last],
                                if init == [] then None else Some(TruncateMillis(times[last] - init[|init| - 1].at)))]
  }

  /** Row j belongs to the status event at position at[j] and is measured from the row before. */
  predicate RowAt(rows: seq<StageRow>, at: seq<nat>, j: nat, history: seq<Envelope>, times: seq<Time>)
    requires |history| == |times| && |rows| == |at| && j < |rows|
  {
    && at[j] < |history|
    && StatusOf(history[at[j]]) == Some(rows[j].status)
    && rows[j].at == times[at[j]]
    && rows[j].delta == (if j == 0 then None else Some(TruncateMillis(rows[j].at - rows[j - 1].at)))
  }

  ghost predicate RowsFor(rows: seq<StageRow>, at: seq<nat>, history: seq<Envelope>, times: seq<Time>)
    requires |history| == |times|
  {
    |rows| == |at| && forall j | 0 <= j < |rows| :: RowAt(rows, at, j, history, times)
  }

  /** The table has one row per status event, in order, stamped with that event's own time
      and with the distance to the row before it. */
  lemma {:induction false} StageTableIsExact(history: seq<Envelope>, times: seq<Time>)
    requires |history| == |times|
    ensures RowsFor(StageTable(history, times), StatusPositions(history), history, times)
  {
    if history != [] {
      var last := |history| - 1;
      StageTableIsExact(history[..last], times[..last]);
      var init := StageTable(history[..last], times[..last]);
      var at := StatusPositions(history[..last]);
      RowsForLonger(init, at, history, times);
      if StatusOf(history[last]).Some? {
        var row := StageTable(history, times)[|init|];
        RowsForSnoc(init, at, row, last, history, times);
      }
    }
  }

  lemma RowsForLonger(rows: seq<StageRow>, at: seq<nat>, history: seq<Envelope>, times: seq<Time>)
    requires |history| == |times| > 0
    requires RowsFor(rows, at, history[..|history| - 1], times[..|history| - 1])
    ensures RowsFor(rows, at, history, times)
  {
    forall j | 0 <= j < |rows| ensures RowAt(rows, at, j, history, times) {
      assert RowAt(rows, at, j, history[..|history| - 1], times[..|history| - 1]);
    }
  }

  lemma RowsForSnoc(rows: seq<StageRow>, at: seq<nat>, row: StageRow, i: nat, history: seq<Envelope>, times: seq<Time>)
    requires |history| == |times| && i < |history|
    requires RowsFor(rows, at, history, times)
    requires RowAt(rows + [row], at + [i], |rows|, history, times)
    ensures RowsFor(rows + [row], at + [i], history, times)
  {
    forall j | 0 <= j < |rows| ensures RowAt(rows + [row], at + [i], j, history, times) {
      assert RowAt(rows, at, j, history, times);
    }
  }

  /** On the nondecreasing times the hub keeps, no stage delta is negative. */
  lemma StageDeltasNonNegative(history: seq<Envelope>, times: seq<Time>, j: nat)
    requires |history| == |times| && NonDecreasing(times)
    requires 0 < j < |StageTable(history, times)|
    ensures var delta := StageTable(history, times)[j].delta; delta.Some? && delta.value >= 0
  {
    var rows, at := StageTable(history, times), StatusPositions(history);
    StageTableIsExact(history, times);
    StatusPositionsExact(history);
    assert RowAt(rows, at, j, history, times) && RowAt(rows, at, j - 1, history, times);
  }

  /** Row j of the table, with nothing abbreviated. */
  predicate RowWrittenOut(history: seq<Envelope>, times: seq<Time>, j: nat)
    requires |history| == |times|
  {
    var rows, at := StageTable(history, times), StatusPositions(history);
    && j < |rows| && j < |at| && at[j] < |history| && history[at[j]].event.Some?
    && history[at[j]].event.value.payload == Status(rows[j].status)
    && rows[j].at == times[at[j]]
    && (if j == 0 then rows[j].delta.None?
        else rows[j].delta.Some?
             && 0 <= (rows[j].at - rows[j - 1].at) - rows[j].delta.value * 1_000_000 < 1_000_000)
  }

  lemma RowIsWrittenOut(history: seq<Envelope>, times: seq<Time>, j: nat)
    requires |history| == |times| && NonDecreasing(times) && j < |StageTable(history, times)|
    ensures RowWrittenOut(history, times, j)
  {
    var rows, at := StageTable(history, times), StatusPositions(history);
    StageTableIsExact(history, times);
    StatusPositionsExact(history);
    assert RowAt(rows, at, j, history, times);
    if j > 0 {
      assert RowAt(rows, at, j - 1, history, times);
      assert at[j - 1] < at[j] && times[at[j - 1]] <= times[at[j]];
      MillisAreWhole(rows[j].at - rows[j - 1].at);
    }
  }

  /** The table with nothing abbreviated: its rows are the status events of the log, all of them
      and in order, each with the event's text and time, and from the second row on with the whole
      milliseconds since the row before. */
  lemma StageTableWrittenOut(history: seq<Envelope>, times: seq<Time>)
    requires |history| == |times| && NonDecreasing(times)
    ensures var rows, at := StageTable(history, times), StatusPositions(history);
            && |rows| == |at| && (forall j, k | 0 <= j < k < |at| :: at[j] < at[k])
            && (forall i | 0 <= i < |history| ::
                  i in at <==> history[i].event.Some? && history[i].event.value.payload.Status?)
            && (forall j | 0 <= j < |rows| :: RowWrittenOut(history, times, j))
  {
    var rows := StageTable(history, times);
    StageTableIsExact(history, times);
    StatusPositionsExact(history);
    forall j | 0 <= j < |rows| ensures RowWrittenOut(history, times, j) {
      RowIsWrittenOut(history, times, j);
    }
  }

  lemma MillisAreWhole(d: Time)
    requires d >= 0
    ensures 0 <= d - TruncateMillis(d) * 1_000_000 < 1_000_000
  {
  }

  // ---------------------------------------------------------------------------------------
  // The regions, executed in place
  // ---------------------------------------------------------------------------------------

  class Gateway {
    var streamEvents: map<StreamId, seq<Envelope>>
    var streamEventTimes: map<StreamId, seq<Time>>
    var streamLastAt: map<StreamId, Time>
    var streamDoneAt: map<StreamId, Time>
    var runs: map<StreamId, WorkerId>
    var streamSubs: map<StreamId, set<ChannelId>>
    var channels: map<ChannelId, Channel>
    ghost var clock: Time

    ghost function State(): Hub
      reads this
    {
      Hub(streamEvents, streamEventTimes, streamLastAt, streamDoneAt, runs, streamSubs, channels)
    }

    ghost predicate Valid()
      reads this
    {
      WellShaped(State(), clock)
    }

    constructor ()
      ensures Valid() && State() == EMPTY_HUB
    {
      streamEvents, streamEventTimes, streamLastAt, streamDoneAt := map[], map[], map[], map[];
      runs, streamSubs, channels := map[], map[], map[];
      clock := 0;
    }

    method AppendStreamEvent(id: StreamId, env: Envelope, at: Stamps)
      requires Valid() && clock <= at.logged <= at.active <= at.done
      modifies this
      ensures State() == Append(old(State()), id, env, at)
      ensures Valid() && clock == at.done
    {
      AppendKeepsShape(State(), clock, id, env, at);
      Record(id, env, at);
      clock := at.done;
    }

    /** The same without the invariant: every field as Append says. */
    method Record(id: StreamId, env: Envelope, at: Stamps)
      requires id in streamEvents.Keys + streamEventTimes.Keys ==> LogShape(State(), clock, id)
      requires Subscribers(State(), id) <= channels.Keys
      modifies this`streamEvents, this`streamEventTimes, this`streamLastAt, this`streamDoneAt, this`runs, this`channels
      ensures State() == Append(old(State()), id, env, at)
    {
      LogEvent(id, env, at);
      if env.event.Some? && env.event.value.kind.CompletedKind? {
        streamDoneAt := streamDoneAt[id := at.done];
        runs := runs - {id};
      }
      SendToSubscribers(id, env);
    }

    /** The bounded append: both lists are trimmed only when the event list is over its limit. */
    method LogEvent(id: StreamId, env: Envelope, at: Stamps)
      requires id in streamEvents.Keys + streamEventTimes.Keys ==> LogShape(State(), clock, id)
      modifies this`streamEvents, this`streamEventTimes, this`streamLastAt
      ensures streamEvents == old(streamEvents)[id := KeepLast(Lookup(old(streamEvents), id, []) + [env], MAX_EVENTS)]
      ensures streamEventTimes ==
              old(streamEventTimes)[id := KeepLast(Lookup(old(streamEventTimes), id, []) + [at.logged], MAX_EVENTS)]
      ensures streamLastAt == old(streamLastAt)[id := at.active]
    {
      streamEvents := streamEvents[id := Lookup(streamEvents, id, []) + [env]];
      streamEventTimes := streamEventTimes[id := Lookup(streamEventTimes, id, []) + [at.logged]];
      streamLastAt := streamLastAt[id := at.active];
      if |streamEvents[id]| > MAX_EVENTS {
        streamEvents := streamEvents[id := streamEvents[id][|streamEvents[id]| - MAX_EVENTS..]];
        if |streamEventTimes[id]| > MAX_EVENTS {
          streamEventTimes := streamEventTimes[id := streamEventTimes[id][|streamEventTimes[id]| - MAX_EVENTS..]];
        }
      }
    }

    /** The non-blocking sends, in whatever order the subscriber set is walked. */
    method SendToSubscribers(id: StreamId, env: Envelope)
      requires Subscribers(State(), id) <= channels.Keys
      modifies this`channels
      ensures channels == Broadcast(old(channels), Subscribers(State(), id), env)
    {
      var waiting := Lookup(streamSubs, id, {});
      ghost var served: set<ChannelId> := {};
      while waiting != {}
        invariant served + waiting == Subscribers(State(), id) && served !! waiting
        invariant channels == Broadcast(old(channels), served, env)
        decreases waiting
      {
        var c :| c in waiting;
        channels := channels[c := Offer(channels[c], env)];
        waiting := waiting - {c};
        served := served + {c};
      }
    }

    method RecordCreatedRun(id: StreamId, worker: WorkerId, now: Time)
      requires Valid() && clock <= now
      modifies this
      ensures State() == RecordRun(old(State()), id, worker, now)
      ensures Valid() && clock == now
    {
      ghost var before := State();
      runs := runs[id := worker];
      streamLastAt := streamLastAt[id := now];
      forall i | i in streamEvents.Keys + streamEventTimes.Keys ensures LogShape(State(), now, i) {
        assert LogShape(before, clock, i);
      }
      clock := now;
    }

    /** Registers a fresh channel and copies the log, in one locked region. */
    method OpenSubscription(id: StreamId, c: ChannelId) returns (history: seq<Envelope>)
      requires Valid() && c !in channels
      modifies this
      ensures State() == Subscribe(old(State()), id, c)
      ensures history == Lookup(old(streamEvents), id, [])
      ensures Valid() && clock == old(clock)
    {
      ghost var before := State();
      SubscriptionKeepsShape(before, clock, id, c);
      channels := channels[c := Channel([], true)];
      if id !in streamSubs {
        streamSubs := streamSubs[id := {}];
      }
      streamSubs := streamSubs[id := streamSubs[id] + {c}];
      history := Lookup(streamEvents, id, []);
    }

    method CloseSubscription(id: StreamId, c: ChannelId)
      requires Valid()
      modifies this
      ensures State() == Unsubscribe(old(State()), id, c)
      ensures Valid() && clock == old(clock)
    {
      SubscriptionKeepsShape(State(), clock, id, c);
      if id in streamSubs {
        streamSubs := streamSubs[id := streamSubs[id] - {c}];
        if |streamSubs[id]| == 0 {
          streamSubs := streamSubs - {id};
        }
      }
    }

    /** One tick of the cleanup loop: two passes, each over a map in any order. */
    method CleanupTick(now: Time)
      requires Valid()
      modifies this
      ensures State() == Sweep(old(State()), now - RETENTION)
      ensures Valid() && clock == old(clock)
    {
      var cutoff := now - RETENTION;
      ghost var before := State();
      SweepFinished(cutoff);
      SweepIdle(cutoff);
      TwoPassesRemoveExpired(before, cutoff);
      ForgetKeepsShape(before, clock, ExpiredIds(before, cutoff));
    }

    method SweepFinished(cutoff: Time)
      modifies this`streamEvents, this`streamEventTimes, this`streamLastAt, this`streamDoneAt,
               this`runs, this`streamSubs
      ensures State() == Forget(old(State()), FinishedIds(old(State()), cutoff, old(streamDoneAt).Keys))
    {
      ghost var before := State();
      ghost var seen: set<StreamId> := {};
      var pass := streamDoneAt.Keys;
      while pass != {}
        invariant seen + pass == before.doneAt.Keys && seen !! pass
        invariant State() == Forget(before, FinishedIds(before, cutoff, seen))
        decreases pass
      {
        var id :| id in pass;
        pass := pass - {id};
        FinishedOneMore(before, cutoff, seen, id);
        seen := seen + {id};
        VisitFinished(id, cutoff);
      }
    }

    method VisitFinished(id: StreamId, cutoff: Time)
      requires id in streamDoneAt
      modifies this`streamEvents, this`streamEventTimes, this`streamLastAt, this`streamDoneAt,
               this`runs, this`streamSubs
      ensures State() == if Expired(old(State()), cutoff, id) then Forget(old(State()), {id}) else old(State())
    {
      if streamDoneAt[id] > cutoff {
        return;
      }
      if |Lookup(streamSubs, id, {})| > 0 {
        return;
      }
      streamDoneAt := streamDoneAt - {id};
      ForgetStream(id);
    }

    method SweepIdle(cutoff: Time)
      modifies this`streamEvents, this`streamEventTimes, this`streamLastAt, this`runs, this`streamSubs
      ensures State() == Forget(old(State()), IdleIds(old(State()), cutoff, old(streamLastAt).Keys))
    {
      ghost var before := State();
      ghost var seen: set<StreamId> := {};
      var pass := streamLastAt.Keys;
      while pass != {}
        invariant seen + pass == before.lastAt.Keys && seen !! pass
        invariant State() == Forget(before, IdleIds(before, cutoff, seen))
        decreases pass
      {
        var id :| id in pass;
        pass := pass - {id};
        IdleOneMore(before, cutoff, seen, id);
        seen := seen + {id};
        VisitIdle(id, cutoff);
      }
    }

    method VisitIdle(id: StreamId, cutoff: Time)
      requires id in streamLastAt
      modifies this`streamEvents, this`streamEventTimes, this`streamLastAt, this`runs, this`streamSubs
      ensures State() ==
              if id !in old(streamDoneAt) && Expired(old(State()), cutoff, id) then Forget(old(State()), {id})
              else old(State())
    {
      if id in streamDoneAt {
        return;
      }
      if streamLastAt[id] > cutoff {
        return;
      }
      if |Lookup(streamSubs, id, {})| > 0 {
        return;
      }
      ForgetStream(id);
    }

    method ForgetStream(id: StreamId)
      modifies this`streamEvents, this`streamEventTimes, this`streamLastAt, this`runs, this`streamSubs
      ensures State() == Forget(old(State()), {id}).(doneAt := streamDoneAt)
    {
      streamEvents := streamEvents - {id};
      streamEventTimes := streamEventTimes - {id};
      streamLastAt := streamLastAt - {id};
      streamSubs := streamSubs - {id};
      runs := runs - {id};
    }

    /** The stage table of the run-detail page; the guard inside the loop never fires. */
    method StageRows(id: StreamId) returns (rows: seq<StageRow>)
      requires Valid()
      ensures |Lookup(streamEvents, id, [])| == |Lookup(streamEventTimes, id, [])|
      ensures rows == StageTable(Lookup(streamEvents, id, []), Lookup(streamEventTimes, id, []))
    {
      var history := Lookup(streamEvents, id, []);
      var times := Lookup(streamEventTimes, id, []);
      assert LogShape(State(), clock, id);
      rows := [];
      var lastT: Option<Time> := None;
      var i := 0;
      while i < |history|
        invariant 0 <= i <= |history| == |times|
        invariant rows == StageTable(history[..i], times[..i])
        invariant lastT == if rows == [] then None else Some(rows[|rows| - 1].at)
      {
        if i >= |times| {
          break;
        }
        assert history[..i + 1][..i] == history[..i] && times[..i + 1][..i] == times[..i];
        if history[i].event.Some? && history[i].event.value.payload.Status? {
          var t := times[i];
          var delta := if lastT.Some? then Some(TruncateMillis(t - lastT.value)) else None;
          rows := rows + [StageRow(history[i].event.value.payload.text, t, delta)];
          lastT := Some(t);
        }
        i := i + 1;
      }
      assert history == history[..|history|] && times == times[..|times|];
    }
  }

  /** Go's Duration.Milliseconds: division that drops the fraction towards zero. */
  function TruncateMillis(d: Time): Time {
    if d >= 0 then d / NANOS_PER_MILLI else -(-d / NANOS_PER_MILLI)
  }

  /** The ids among seen that the first pass removes. */
  ghost function FinishedIds(h: Hub, cutoff: Time, seen: set<StreamId>): set<StreamId> {
    set id | id in seen && id in h.doneAt && Expired(h, cutoff, id)
  }

  /** The ids among seen that the second pass removes. */
  ghost function IdleIds(h: Hub, cutoff: Time, seen: set<StreamId>): set<StreamId> {
    set id | id in seen && id !in h.doneAt && Expired(h, cutoff, id)
  }

  lemma FinishedOneMore(h: Hub, cutoff: Time, seen: set<StreamId>, id: StreamId)
    requires id in h.doneAt && id !in seen
    ensures var ids := FinishedIds(h, cutoff, seen);
            && FinishedIds(h, cutoff, seen + {id}) == (if Expired(h, cutoff, id) then ids + {id} else ids)
            && Forget(Forget(h, ids), {id}) == Forget(h, ids + {id})
            && id in Forget(h, ids).doneAt
            && (Expired(Forget(h, ids), cutoff, id) <==> Expired(h, cutoff, id))
  {
    ForgetTwice(h, FinishedIds(h, cutoff, seen), id);
  }

  lemma IdleOneMore(h: Hub, cutoff: Time, seen: set<StreamId>, id: StreamId)
    requires id in h.lastAt && id !in seen
    ensures var ids := IdleIds(h, cutoff, seen);
            && IdleIds(h, cutoff, seen + {id})
                 == (if id !in h.doneAt && Expired(h, cutoff, id) then ids + {id} else ids)
            && Forget(Forget(h, ids), {id}) == Forget(h, ids + {id})
            && id in Forget(h, ids).lastAt
            && (Expired(Forget(h, ids), cutoff, id) <==> Expired(h, cutoff, id))
            && Forget(h, ids).doneAt == h.doneAt
  {
    var ids := IdleIds(h, cutoff, seen);
    ForgetTwice(h, ids, id);
    assert h.doneAt - ids == h.doneAt;
  }

  lemma MinusTwice<V>(m: map<StreamId, V>, a: set<StreamId>, b: set<StreamId>)
    ensures m - a - b == m - (a + b)
  {
  }

  lemma ForgetTwice(h: Hub, ids: set<StreamId>, id: StreamId)
    ensures Forget(Forget(h, ids), {id}) == Forget(h, ids + {id})
  {
    ForgetUnion(h, ids, {id});
  }

  lemma ForgetUnion(h: Hub, a: set<StreamId>, b: set<StreamId>)
    ensures Forget(Forget(h, a), b) == Forget(h, a + b)
  {
    MinusTwice(h.events, a, b);
    MinusTwice(h.times, a, b);
    MinusTwice(h.lastAt, a, b);
    MinusTwice(h.doneAt, a, b);
    MinusTwice(h.runs, a, b);
    MinusTwice(h.subs, a, b);
  }

  /** The second pass sees what the first one left, and together they remove exactly the
      expired ids. */
  lemma TwoPassesRemoveExpired(h: Hub, cutoff: Time)
    ensures var first := Forget(h, FinishedIds(h, cutoff, h.doneAt.Keys));
            Forget(first, IdleIds(first, cutoff, first.lastAt.Keys)) == Sweep(h, cutoff)
  {
    var done := FinishedIds(h, cutoff, h.doneAt.Keys);
    var first := Forget(h, done);
    var idle := IdleIds(first, cutoff, first.lastAt.Keys);
    ForgetUnion(h, done, idle);
    assert done + idle == ExpiredIds(h, cutoff);
  }

  lemma SubscriptionKeepsShape(h: Hub, clock: Time, id: StreamId, c: ChannelId)
    requires WellShaped(h, clock)
    ensures WellShaped(Subscribe(h, id, c), clock) && WellShaped(Unsubscribe(h, id, c), clock)
  {
    forall i | i in h.events.Keys + h.times.Keys
      ensures LogShape(Subscribe(h, id, c), clock, i) && LogShape(Unsubscribe(h, id, c), clock, i)
    {
      assert LogShape(h, clock, i);
    }
  }

  lemma ForgetKeepsShape(h: Hub, clock: Time, ids: set<StreamId>)
    requires WellShaped(h, clock)
    ensures WellShaped(Forget(h, ids), clock)
  {
    var h' := Forget(h, ids);
    forall id | id in h'.events.Keys + h'.times.Keys ensures LogShape(h', clock, id) {
      assert LogShape(h, clock, id);
    }
  }

  lemma AppendKeepsTimes(times: seq<Time>, clock: Time, now: Time)
    requires NonDecreasing(times) && (forall k | 0 <= k < |times| :: times[k] <= clock) && clock <= now
    ensures var longer := KeepLast(times + [now], MAX_EVENTS);
            NonDecreasing(longer) && forall k | 0 <= k < |longer| :: longer[k] <= now
  {
    assert NonDecreasing(times + [now]);
  }

  lemma AppendKeepsShape(h: Hub, clock: Time, id: StreamId, env: Envelope, at: Stamps)
    requires WellShaped(h, clock) && clock <= at.logged <= at.active <= at.done
    ensures WellShaped(Append(h, id, env, at), at.done)
  {
    var h' := Append(h, id, env, at);
    forall i | i in h'.events.Keys + h'.times.Keys ensures LogShape(h', at.done, i) {
      assert i in h.events.Keys + h.times.Keys ==> LogShape(h, clock, i);
      if i == id {
        AppendKeepsTimes(Lookup(h.times, id, []), clock, at.logged);
      }
    }
  }
}

/** Concurrent dispatch, flush and poll over the control queues. A step is one region that
    holds the gateway's lock, or one websocket write, which may fail. The fields `issued` and
    `where` are bookkeeping that no step reads: the number of dispatches so far, and the place
    the envelope of each was last moved to. */
module DispatchSystem {
  import opened Sequences
  import opened ControlQueue

  type ProcessId = nat

  datatype Place =
    | Held(p: ProcessId)        // by a dispatch that has a number and has not delivered it
    | Flushing(f: ProcessId)    // taken from a queue by a flush and not yet written or restored
    | Queued(w: WorkerId)
    | Sent(w: WorkerId)         // written to the worker's session
    | Polled(w: WorkerId)       // returned by a poll
    | Skipped(w: WorkerId)      // discarded by a poll because of its LastSeq
    | Evicted(w: WorkerId)      // pushed out by the cap

  datatype DispatchPc = LookingUp | Writing | Requeueing
  datatype Dispatcher = Dispatcher(env: Envelope, pc: DispatchPc)
  datatype Flusher = Flusher(worker: WorkerId, held: seq<Envelope>, failed: bool)

  datatype System = System(
    counter: nat,
    issued: nat,
    queues: map<WorkerId, seq<Envelope>>,
    connected: set<WorkerId>,
    dispatchers: map<ProcessId, Dispatcher>,
    flushers: map<ProcessId, Flusher>,
    archive: map<Place, seq<Envelope>>,
    where: map<nat, Place>)

  const START := System(0, 0, map[], {}, map[], map[], map[], map[])

  datatype Step =
    | Issue(p: ProcessId, w: WorkerId, stream: StreamId, command: Command)
    | LookUpSession(p: ProcessId)
    | Write(p: ProcessId, ok: bool)
    | Requeue(p: ProcessId)
    | Connect(w: WorkerId)
    | Disconnect(w: WorkerId)
    | TakeQueue(f: ProcessId, w: WorkerId)
    | FlushWrite(f: ProcessId, ok: bool)
    | FlushRestore(f: ProcessId)
    | FlushEnd(f: ProcessId)
    | PollQueue(w: WorkerId, last: nat, requested: int)

  predicate Enabled(s: System, step: Step) {
    match step
    case Issue(p, _, _, _) => p !in s.dispatchers
    case LookUpSession(p) => p in s.dispatchers && s.dispatchers[p].pc.LookingUp?
    case Write(p, _) => p in s.dispatchers && s.dispatchers[p].pc.Writing?
    case Requeue(p) => p in s.dispatchers && s.dispatchers[p].pc.Requeueing?
    case Connect(_) => true
    case Disconnect(_) => true
    case TakeQueue(f, _) => f !in s.flushers
    case FlushWrite(f, _) => f in s.flushers && !s.flushers[f].failed && s.flushers[f].held != []
    case FlushRestore(f) => f in s.flushers && s.flushers[f].failed && s.flushers[f].held != []
    case FlushEnd(f) => f in s.flushers && s.flushers[f].held == []
    case PollQueue(_, _, _) => true
  }

  /** What an enqueue pushes off the front. */
  function PushedOut(queue: seq<Envelope>): seq<Envelope> {
    if |queue| < MAX_QUEUE then [] else queue[..|queue| + 1 - MAX_QUEUE]
  }

  predicate Holds(q: seq<Envelope>, n: nat) {
    exists i | 0 <= i < |q| :: q[i].ticket == n
  }

  function Moved(where: map<nat, Place>, q: seq<Envelope>, to: Place): map<nat, Place> {
    map n | n in where :: if Holds(q, n) then to else where[n]
  }

  function Archived(archive: map<Place, seq<Envelope>>, to: Place, q: seq<Envelope>): map<Place, seq<Envelope>> {
    archive[to := Lookup(archive, to, []) + q]
  }

  /** enqueueControl: one locked region. */
  function Put(s: System, w: WorkerId, env: Envelope): System {
    var queue := Lookup(s.queues, w, []);
    var out := PushedOut(queue);
    s.(queues := s.queues[w := Enqueue(queue, env)],
       archive := Archived(s.archive, Evicted(w), out),
       where := Moved(Moved(s.where, [env], Queued(w)), out, Evicted(w)))
  }

  function Deliver(s: System, env: Envelope, to: Place): System {
    s.(archive := Archived(s.archive, to, [env]), where := Moved(s.where, [env], to))
  }

  function Apply(s: System, step: Step): System
    requires Enabled(s, step)
  {
    match step
    case Issue(p, w, stream, command) =>
      var n, ticket := (s.counter + 1) % SEQ_LIMIT, s.issued + 1;
      var env := Envelope(w, stream, n, command, ticket);
      s.(counter := n, issued := ticket,
         dispatchers := s.dispatchers[p := Dispatcher(env, LookingUp)],
         where := s.where[ticket := Held(p)])
    case LookUpSession(p) =>
      var d := s.dispatchers[p];
      s.(dispatchers := s.dispatchers[p := d.(pc := if d.env.worker in s.connected then Writing else Requeueing)])
    case Write(p, ok) =>
      var d := s.dispatchers[p];
      if ok then Deliver(s.(dispatchers := s.dispatchers - {p}), d.env, Sent(d.env.worker))
      else s.(dispatchers := s.dispatchers[p := d.(pc := Requeueing)])
    case Requeue(p) =>
      var d := s.dispatchers[p];
      Put(s.(dispatchers := s.dispatchers - {p}), d.env.worker, d.env)
    case Connect(w) => s.(connected := s.connected + {w})
    case Disconnect(w) => s.(connected := s.connected - {w})
    case TakeQueue(f, w) =>
      var queue := Lookup(s.queues, w, []);
      s.(queues := s.queues - {w},
         flushers := s.flushers[f := Flusher(w, queue, false)],
         where := Moved(s.where, queue, Flushing(f)))
    case FlushWrite(f, ok) =>
      var fl := s.flushers[f];
      if ok then Deliver(s.(flushers := s.flushers[f := fl.(held := fl.held[1..])]), fl.held[0], Sent(fl.worker))
      else s.(flushers := s.flushers[f := fl.(failed := true)])
    case FlushRestore(f) =>
      var fl := s.flushers[f];
      Put(s.(flushers := s.flushers[f := fl.(held := fl.held[1..])]), fl.worker, fl.held[0])
    case FlushEnd(f) => s.(flushers := s.flushers - {f})
    case PollQueue(w, last, requested) =>
      var queue, n := Lookup(s.queues, w, []), BatchSize(requested);
      var out, skipped := Batch(queue, last, n), UpTo(queue, last);
      s.(queues := s.queues[w := Remaining(queue, last, n)],
         archive := Archived(Archived(s.archive, Polled(w), out), Skipped(w), skipped),
         where := Moved(Moved(s.where, out, Polled(w)), skipped, Skipped(w)))
  }

  predicate Runs(s: System, steps: seq<Step>)
    decreases |steps|
  {
    steps == [] || (Enabled(s, steps[0]) && Runs(Apply(s, steps[0]), steps[1..]))
  }

  function Exec(s: System, steps: seq<Step>): System
    requires Runs(s, steps)
    decreases |steps|
  {
    if steps == [] then s else Exec(Apply(s, steps[0]), steps[1..])
  }

  ghost predicate Reachable(s: System) {
    exists steps :: Runs(START, steps) && Exec(START, steps) == s
  }

  // ---------------------------------------------------------------------------------------
  // The invariant
  // ---------------------------------------------------------------------------------------

  function Contents(s: System, at: Place): seq<Envelope> {
    match at
    case Held(p) => if p in s.dispatchers then [s.dispatchers[p].env] else []
    case Flushing(f) => if f in s.flushers then s.flushers[f].held else []
    case Queued(w) => Lookup(s.queues, w, [])
    case _ => Lookup(s.archive, at, [])
  }

  /** Messages at a worker's place are that worker's. */
  predicate Belongs(s: System, at: Place, env: Envelope) {
    && Numbered(env)
    && match at
       case Held(_) => true
       case Flushing(f) => f in s.flushers && env.worker == s.flushers[f].worker
       case _ => env.worker == at.w
  }

  predicate Numbered(env: Envelope) {
    env.seqno == env.ticket % SEQ_LIMIT
  }

  ghost predicate Distinct(q: seq<Envelope>) {
    forall i, j | 0 <= i < j < |q| :: q[i].ticket != q[j].ticket
  }

  /** The place holds exactly the numbers booked to it, each once, and only its own worker's.
      The number `inHand` is between places: booked somewhere but held nowhere (0 for none). */
  ghost predicate PlaceOk(s: System, at: Place, inHand: nat) {
    var q := Contents(s, at);
    && Distinct(q)
    && (forall n: nat :: Holds(q, n) <==> n in s.where && s.where[n] == at && n != inHand)
    && (forall i | 0 <= i < |q| :: Belongs(s, at, q[i]))
  }

  ghost predicate InvBut(s: System, inHand: nat) {
    && s.counter == s.issued % SEQ_LIMIT
    && (forall n: nat :: n in s.where <==> 1 <= n <= s.issued)
    && (forall at: Place :: PlaceOk(s, at, inHand))
    && (forall w: WorkerId :: |Lookup(s.queues, w, [])| <= MAX_QUEUE)
  }

  ghost predicate Inv(s: System) {
    InvBut(s, 0)
  }

  lemma HoldsSum(a: seq<Envelope>, b: seq<Envelope>, n: nat)
    ensures Holds(a + b, n) <==> Holds(a, n) || Holds(b, n)
  {
    if Holds(a, n) {
      var i :| 0 <= i < |a| && a[i].ticket == n;
      assert (a + b)[i].ticket == n;
    }
    if Holds(b, n) {
      var i :| 0 <= i < |b| && b[i].ticket == n;
      assert (a + b)[|a| + i].ticket == n;
    }
  }

  /** Splitting a duplicate-free sequence splits its numbers. */
  lemma SplitDistinct(a: seq<Envelope>, b: seq<Envelope>)
    requires Distinct(a + b)
    ensures Distinct(a) && Distinct(b)
    ensures forall n: nat :: !(Holds(a, n) && Holds(b, n))
    ensures forall n: nat :: Holds(a + b, n) <==> Holds(a, n) || Holds(b, n)
  {
    var c := a + b;
    assert forall j | 0 <= j < |b| :: c[|a| + j] == b[j];
    assert forall i | 0 <= i < |a| :: c[i] == a[i];
    forall i, j | 0 <= i < |a| && 0 <= j < |b| ensures a[i].ticket != b[j].ticket {
      assert c[i] == a[i] && c[|a| + j] == b[j];
    }
    forall i, j | 0 <= i < j < |b| ensures b[i].ticket != b[j].ticket {
      assert c[|a| + i] == b[i] && c[|a| + j] == b[j];
    }
    forall n: nat ensures Holds(c, n) <==> Holds(a, n) || Holds(b, n) {
      HoldsSum(a, b, n);
    }
  }

  lemma JoinDistinct(a: seq<Envelope>, b: seq<Envelope>)
    requires Distinct(a) && Distinct(b)
    requires forall n: nat :: !(Holds(a, n) && Holds(b, n))
    ensures Distinct(a + b)
    ensures forall n: nat :: Holds(a + b, n) <==> Holds(a, n) || Holds(b, n)
  {
    var c := a + b;
    forall i, j | 0 <= i < j < |c| ensures c[i].ticket != c[j].ticket {
      if i < |a| && j >= |a| {
        assert a[i] == c[i] && b[j - |a|] == c[j];
        assert Holds(a, c[i].ticket);
        assert Holds(b, c[j].ticket);
      }
    }
    forall n: nat ensures Holds(c, n) <==> Holds(a, n) || Holds(b, n) {
      HoldsSum(a, b, n);
    }
  }

  lemma HoldsOne(env: Envelope)
    ensures Distinct([env]) && forall n: nat :: Holds([env], n) <==> n == env.ticket
  {
    assert [env][0] == env;
  }

  lemma DeliverOk(s: System, env: Envelope)
    requires InvBut(s, env.ticket) && env.ticket in s.where && Numbered(env)
    ensures Inv(Deliver(s, env, Sent(env.worker)))
  {
    var s' := Deliver(s, env, Sent(env.worker));
    HoldsOne(env);
    forall at: Place ensures PlaceOk(s', at, 0) {
      assert PlaceOk(s, at, env.ticket);
      if at == Sent(env.worker) {
        DeliverHere(s, env);
      } else {
        assert Contents(s', at) == Contents(s, at);
      }
    }
  }

  lemma DeliverHere(s: System, env: Envelope)
    requires PlaceOk(s, Sent(env.worker), env.ticket) && env.ticket in s.where && 0 !in s.where && Numbered(env)
    ensures PlaceOk(Deliver(s, env, Sent(env.worker)), Sent(env.worker), 0)
  {
    var at := Sent(env.worker);
    HoldsOne(env);
    JoinDistinct(Contents(s, at), [env]);
    assert Contents(Deliver(s, env, at), at) == Contents(s, at) + [env];
  }

  /** An enqueue keeps the tail of the queue and pushes out its head exactly when it is full. */
  lemma EnqueueSplits(queue: seq<Envelope>, env: Envelope)
    requires |queue| <= MAX_QUEUE
    ensures PushedOut(queue) == (if |queue| == MAX_QUEUE then [queue[0]] else [])
    ensures Enqueue(queue, env) == queue[|PushedOut(queue)|..] + [env]
    ensures queue == PushedOut(queue) + queue[|PushedOut(queue)|..]
  {
  }

  lemma PutOk(s: System, env: Envelope)
    requires InvBut(s, env.ticket) && env.ticket in s.where && Numbered(env)
    ensures Inv(Put(s, env.worker, env))
  {
    assert PlaceOk(s, Queued(env.worker), env.ticket);
    assert |Lookup(s.queues, env.worker, [])| <= MAX_QUEUE;
    forall at: Place ensures PlaceOk(Put(s, env.worker, env), at, 0) {
      PutPlace(s, env, at);
    }
    forall w: WorkerId ensures |Lookup(Put(s, env.worker, env).queues, w, [])| <= MAX_QUEUE {
      assert |Lookup(s.queues, w, [])| <= MAX_QUEUE;
    }
  }

  /** Where every number is booked after an enqueue. */
  lemma PutBooks(s: System, env: Envelope, n: nat)
    requires PlaceOk(s, Queued(env.worker), env.ticket) && |Contents(s, Queued(env.worker))| <= MAX_QUEUE
    requires n in s.where
    ensures var out := PushedOut(Contents(s, Queued(env.worker)));
            var s' := Put(s, env.worker, env);
            && n in s'.where
            && s'.where[n] == (if Holds(out, n) then Evicted(env.worker)
                                  else if n == env.ticket then Queued(env.worker)
                                  else s.where[n])
            && (Holds(out, n) ==> s.where[n] == Queued(env.worker) && n != env.ticket)
  {
    var queue := Contents(s, Queued(env.worker));
    EnqueueSplits(queue, env);
    SplitDistinct(PushedOut(queue), queue[|PushedOut(queue)|..]);
    HoldsOne(env);
    assert Holds(PushedOut(queue), n) ==> Holds(queue, n);
  }

  /** What PutPlace may assume. */
  ghost predicate ReadyToPut(s: System, env: Envelope) {
    && PlaceOk(s, Queued(env.worker), env.ticket)
    && env.ticket in s.where && 0 !in s.where && Numbered(env)
    && |Contents(s, Queued(env.worker))| <= MAX_QUEUE
  }

  lemma PutQueued(s: System, env: Envelope)
    requires ReadyToPut(s, env)
    ensures PlaceOk(Put(s, env.worker, env), Queued(env.worker), 0)
  {
    var at := Queued(env.worker);
    var s' := Put(s, env.worker, env);
    var queue := Contents(s, at);
    var out, rest := PushedOut(queue), queue[|PushedOut(queue)|..];
    HoldsOne(env);
    EnqueueSplits(queue, env);
    SplitDistinct(out, rest);
    JoinDistinct(rest, [env]);
    assert Contents(s', at) == rest + [env];
    forall n: nat ensures Holds(rest + [env], n) <==> n in s'.where && s'.where[n] == at && n != 0 {
      if n in s.where {
        PutBooks(s, env, n);
      }
    }
  }

  lemma PutEvicted(s: System, env: Envelope)
    requires ReadyToPut(s, env) && PlaceOk(s, Evicted(env.worker), env.ticket)
    ensures PlaceOk(Put(s, env.worker, env), Evicted(env.worker), 0)
  {
    var at := Evicted(env.worker);
    var s' := Put(s, env.worker, env);
    var queue := Contents(s, Queued(env.worker));
    var out, rest := PushedOut(queue), queue[|PushedOut(queue)|..];
    EnqueueSplits(queue, env);
    SplitDistinct(out, rest);
    JoinDistinct(Contents(s, at), out);
    assert Contents(s', at) == Contents(s, at) + out;
    forall n: nat ensures Holds(Contents(s, at) + out, n) <==> n in s'.where && s'.where[n] == at && n != 0 {
      if n in s.where {
        PutBooks(s, env, n);
      }
    }
    EvictedBelong(s, env);
  }

  lemma EvictedBelong(s: System, env: Envelope)
    requires PlaceOk(s, Queued(env.worker), env.ticket) && PlaceOk(s, Evicted(env.worker), env.ticket)
    ensures var at, s' := Evicted(env.worker), Put(s, env.worker, env);
            forall i | 0 <= i < |Contents(s', at)| :: Belongs(s', at, Contents(s', at)[i])
  {
    var queue := Contents(s, Queued(env.worker));
    var out := PushedOut(queue);
    assert forall i | 0 <= i < |out| :: out[i] == queue[i] && Belongs(s, Queued(env.worker), queue[i]);
    assert Contents(Put(s, env.worker, env), Evicted(env.worker)) == Contents(s, Evicted(env.worker)) + out;
  }

  lemma PutElsewhere(s: System, env: Envelope, at: Place)
    requires ReadyToPut(s, env) && PlaceOk(s, at, env.ticket)
    requires at != Queued(env.worker) && at != Evicted(env.worker)
    ensures PlaceOk(Put(s, env.worker, env), at, 0)
  {
    var s' := Put(s, env.worker, env);
    assert Contents(s', at) == Contents(s, at);
    forall n: nat ensures Holds(Contents(s', at), n) <==> n in s'.where && s'.where[n] == at && n != 0 {
      if n in s.where {
        PutBooks(s, env, n);
      }
    }
  }

  lemma PutPlace(s: System, env: Envelope, at: Place)
    requires ReadyToPut(s, env) && PlaceOk(s, at, env.ticket)
    ensures PlaceOk(Put(s, env.worker, env), at, 0)
  {
    if at == Queued(env.worker) {
      PutQueued(s, env);
    } else if at == Evicted(env.worker) {
      PutEvicted(s, env);
    } else {
      PutElsewhere(s, env, at);
    }
  }

  // ---------------------------------------------------------------------------------------
  // Every step keeps the invariant
  // ---------------------------------------------------------------------------------------

  lemma IssueOk(s: System, step: Step)
    requires Inv(s) && Enabled(s, step) && step.Issue?
    ensures Inv(Apply(s, step))
  {
    var s' := Apply(s, step);
    var env := s'.dispatchers[step.p].env;
    HoldsOne(env);
    forall at: Place ensures PlaceOk(s', at, 0) {
      assert PlaceOk(s, at, 0);
      if at != Held(step.p) {
        assert Contents(s', at) == Contents(s, at);
      } else {
        assert Contents(s, at) == [];
        assert forall n: nat :: !Holds([], n);
      }
    }
    forall w: WorkerId ensures |Lookup(s'.queues, w, [])| <= MAX_QUEUE {
      assert |Lookup(s.queues, w, [])| <= MAX_QUEUE;
    }
  }

  /** A dispatch that only changes its program counter, and sessions coming and going. */
  lemma QuietOk(s: System, step: Step)
    requires Inv(s) && Enabled(s, step)
    requires step.LookUpSession? || (step.Write? && !step.ok) || step.Connect? || step.Disconnect?
             || (step.FlushWrite? && !step.ok) || step.FlushEnd?
    ensures Inv(Apply(s, step))
  {
    var s' := Apply(s, step);
    forall at: Place ensures PlaceOk(s', at, 0) {
      assert PlaceOk(s, at, 0);
      assert Contents(s', at) == Contents(s, at);
    }
    forall w: WorkerId ensures |Lookup(s'.queues, w, [])| <= MAX_QUEUE {
      assert |Lookup(s.queues, w, [])| <= MAX_QUEUE;
    }
  }

  /** Taking the envelope out of a dispatch leaves it in hand. */
  lemma LeaveDispatch(s: System, p: ProcessId) returns (s': System)
    requires Inv(s) && p in s.dispatchers
    ensures s' == s.(dispatchers := s.dispatchers - {p})
    ensures var env := s.dispatchers[p].env;
            InvBut(s', env.ticket) && env.ticket in s'.where && Numbered(env)
  {
    s' := s.(dispatchers := s.dispatchers - {p});
    var env := s.dispatchers[p].env;
    HoldsOne(env);
    assert PlaceOk(s, Held(p), 0);
    assert Holds(Contents(s, Held(p)), env.ticket) && Belongs(s, Held(p), Contents(s, Held(p))[0]);
    forall at: Place ensures PlaceOk(s', at, env.ticket) {
      assert PlaceOk(s, at, 0);
      if at == Held(p) {
        assert Contents(s', at) == [] && Contents(s, at) == [env];
      } else {
        assert Contents(s', at) == Contents(s, at);
      }
    }
    forall w: WorkerId ensures |Lookup(s'.queues, w, [])| <= MAX_QUEUE {
      assert |Lookup(s.queues, w, [])| <= MAX_QUEUE;
    }
  }

  /** So does taking the first envelope of a flush, which is for the flush's own worker. */
  lemma LeaveFlush(s: System, f: ProcessId) returns (s': System)
    requires Inv(s) && f in s.flushers && s.flushers[f].held != []
    ensures s' == s.(flushers := s.flushers[f := s.flushers[f].(held := s.flushers[f].held[1..])])
    ensures var env := s.flushers[f].held[0];
            InvBut(s', env.ticket) && env.ticket in s'.where && Numbered(env) && env.worker == s.flushers[f].worker
  {
    s' := s.(flushers := s.flushers[f := s.flushers[f].(held := s.flushers[f].held[1..])]);
    var held := s.flushers[f].held;
    var env := held[0];
    assert PlaceOk(s, Flushing(f), 0);
    assert Belongs(s, Flushing(f), held[0]);
    assert held == [env] + held[1..];
    SplitDistinct([env], held[1..]);
    HoldsOne(env);
    assert Holds(held, env.ticket);
    forall at: Place ensures PlaceOk(s', at, env.ticket) {
      assert PlaceOk(s, at, 0);
      if at == Flushing(f) {
        forall i | 0 <= i < |held[1..]| ensures Belongs(s', at, held[1..][i]) {
          assert Belongs(s, at, held[i + 1]);
        }
      } else {
        assert Contents(s', at) == Contents(s, at);
      }
    }
    forall w: WorkerId ensures |Lookup(s'.queues, w, [])| <= MAX_QUEUE {
      assert |Lookup(s.queues, w, [])| <= MAX_QUEUE;
    }
  }

  lemma TakeOk(s: System, step: Step)
    requires Inv(s) && Enabled(s, step) && step.TakeQueue?
    ensures Inv(Apply(s, step))
  {
    var s' := Apply(s, step);
    var queue := Contents(s, Queued(step.w));
    assert PlaceOk(s, Queued(step.w), 0);
    assert forall n: nat :: !Holds([], n);
    forall at: Place ensures PlaceOk(s', at, 0) {
      assert PlaceOk(s, at, 0);
      if at == Flushing(step.f) {
        assert Contents(s, at) == [] && Contents(s', at) == queue;
        forall i | 0 <= i < |queue| ensures Belongs(s', at, queue[i]) {
          assert Belongs(s, Queued(step.w), queue[i]);
        }
      } else if at == Queued(step.w) {
        assert Contents(s', at) == [];
      } else {
        assert Contents(s', at) == Contents(s, at);
      }
    }
    forall w: WorkerId ensures |Lookup(s'.queues, w, [])| <= MAX_QUEUE {
      assert |Lookup(s.queues, w, [])| <= MAX_QUEUE;
    }
  }

  /** A poll cuts the queue into what it returns, what it leaves and what it discards, with no
      number in two parts and none in no part. */
  lemma {:induction false} PollParts(queue: seq<Envelope>, last: nat)
    requires Distinct(queue)
    ensures Distinct(Above(queue, last)) && Distinct(UpTo(queue, last))
    ensures forall n: nat :: !(Holds(Above(queue, last), n) && Holds(UpTo(queue, last), n))
    ensures forall n: nat :: Holds(queue, n) <==> Holds(Above(queue, last), n) || Holds(UpTo(queue, last), n)
  {
    if queue != [] {
      var head, tail := [queue[0]], queue[1..];
      assert queue == head + tail;
      HoldsOne(queue[0]);
      SplitDistinct(head, tail);
      PollParts(tail, last);
      if queue[0].seqno > last {
        JoinDistinct(head, Above(tail, last));
        assert UpTo(queue, last) == UpTo(tail, last);
      } else {
        JoinDistinct(head, UpTo(tail, last));
        assert Above(queue, last) == Above(tail, last);
      }
    } else {
      assert forall n: nat :: !Holds([], n);
    }
  }

  lemma {:induction false} PollOwners(queue: seq<Envelope>, last: nat, w: WorkerId)
    requires forall i | 0 <= i < |queue| :: queue[i].worker == w && Numbered(queue[i])
    ensures forall i | 0 <= i < |Above(queue, last)| ::
              Above(queue, last)[i].worker == w && Numbered(Above(queue, last)[i])
    ensures forall i | 0 <= i < |UpTo(queue, last)| ::
              UpTo(queue, last)[i].worker == w && Numbered(UpTo(queue, last)[i])
    ensures |Above(queue, last)| <= |queue|
  {
    if queue != [] {
      PollOwners(queue[1..], last, w);
    }
  }

  /** Where every number is booked after a poll. */
  lemma PollBooks(s: System, step: Step, n: nat)
    requires step.PollQueue? && PlaceOk(s, Queued(step.w), 0) && n in s.where
    ensures var queue := Contents(s, Queued(step.w));
            var s' := Apply(s, step);
            && n in s'.where
            && s'.where[n] == (if Holds(UpTo(queue, step.last), n) then Skipped(step.w)
                               else if Holds(Batch(queue, step.last, BatchSize(step.requested)), n) then Polled(step.w)
                               else s.where[n])
  {
  }

  lemma PollPlace(s: System, step: Step, at: Place)
    requires step.PollQueue? && PlaceOk(s, Queued(step.w), 0) && PlaceOk(s, at, 0) && 0 !in s.where
    ensures PlaceOk(Apply(s, step), at, 0)
  {
    var s' := Apply(s, step);
    var queue := Contents(s, Queued(step.w));
    var size := BatchSize(step.requested);
    var out, rest, skipped := Batch(queue, step.last, size), Remaining(queue, step.last, size), UpTo(queue, step.last);
    PollParts(queue, step.last);
    PollSplitsQueue(queue, step.last, size);
    SplitDistinct(out, rest);
    PollContents(s, step, at);
    PollJoins(s, step, at);
    forall n: nat ensures Holds(Contents(s', at), n) <==> n in s'.where && s'.where[n] == at && n != 0 {
      if n in s.where {
        PollBooks(s, step, n);
      }
    }
    PollBelongs(s, step, at);
  }

  /** The numbers a place holds after a poll. */
  lemma PollJoins(s: System, step: Step, at: Place)
    requires step.PollQueue? && PlaceOk(s, Queued(step.w), 0) && PlaceOk(s, at, 0)
    ensures var queue := Contents(s, Queued(step.w));
            var size := BatchSize(step.requested);
            var after := Contents(Apply(s, step), at);
            && Distinct(after)
            && forall n: nat :: Holds(after, n) <==>
                 if at == Queued(step.w) then Holds(Remaining(queue, step.last, size), n)
                 else if at == Polled(step.w) then Holds(Contents(s, at), n) || Holds(Batch(queue, step.last, size), n)
                 else if at == Skipped(step.w) then Holds(Contents(s, at), n) || Holds(UpTo(queue, step.last), n)
                 else Holds(Contents(s, at), n)
  {
    var queue := Contents(s, Queued(step.w));
    var size := BatchSize(step.requested);
    PollParts(queue, step.last);
    PollSplitsQueue(queue, step.last, size);
    SplitDistinct(Batch(queue, step.last, size), Remaining(queue, step.last, size));
    PollContents(s, step, at);
    if at == Polled(step.w) {
      JoinDistinct(Contents(s, at), Batch(queue, step.last, size));
    } else if at == Skipped(step.w) {
      JoinDistinct(Contents(s, at), UpTo(queue, step.last));
    }
  }

  lemma PollContents(s: System, step: Step, at: Place)
    requires step.PollQueue?
    ensures var queue := Contents(s, Queued(step.w));
            var size := BatchSize(step.requested);
            Contents(Apply(s, step), at) ==
              if at == Queued(step.w) then Remaining(queue, step.last, size)
              else if at == Polled(step.w) then Contents(s, at) + Batch(queue, step.last, size)
              else if at == Skipped(step.w) then Contents(s, at) + UpTo(queue, step.last)
              else Contents(s, at)
  {
  }

  predicate AllBelong(s: System, at: Place, q: seq<Envelope>) {
    forall i | 0 <= i < |q| :: Belongs(s, at, q[i])
  }

  lemma JoinBelong(s: System, at: Place, a: seq<Envelope>, b: seq<Envelope>)
    requires AllBelong(s, at, a) && AllBelong(s, at, b)
    ensures AllBelong(s, at, a + b)
  {
  }

  /** What was at a place before a poll belongs there after it. */
  lemma PollKeepsOwners(s: System, step: Step, at: Place)
    requires step.PollQueue? && PlaceOk(s, at, 0)
    ensures AllBelong(Apply(s, step), at, Contents(s, at))
  {
    var q := Contents(s, at);
    forall i | 0 <= i < |q| ensures Belongs(Apply(s, step), at, q[i]) {
      assert Belongs(s, at, q[i]);
    }
  }

  /** The parts of the polled queue belong to its worker wherever they go. */
  lemma PollMovesOwners(s: System, step: Step, at: Place)
    requires step.PollQueue? && PlaceOk(s, Queued(step.w), 0)
    requires at in [Queued(step.w), Polled(step.w), Skipped(step.w)]
    ensures var queue, size := Contents(s, Queued(step.w)), BatchSize(step.requested);
            && AllBelong(Apply(s, step), at, Batch(queue, step.last, size))
            && AllBelong(Apply(s, step), at, Remaining(queue, step.last, size))
            && AllBelong(Apply(s, step), at, UpTo(queue, step.last))
  {
    var queue := Contents(s, Queued(step.w));
    assert forall i | 0 <= i < |queue| :: Belongs(s, Queued(step.w), queue[i]);
    PollOwners(queue, step.last, step.w);
  }

  lemma PollBelongs(s: System, step: Step, at: Place)
    requires step.PollQueue? && PlaceOk(s, Queued(step.w), 0) && PlaceOk(s, at, 0)
    ensures AllBelong(Apply(s, step), at, Contents(Apply(s, step), at))
  {
    var s' := Apply(s, step);
    var queue, size := Contents(s, Queued(step.w)), BatchSize(step.requested);
    PollContents(s, step, at);
    PollKeepsOwners(s, step, at);
    if at == Queued(step.w) {
      PollMovesOwners(s, step, at);
    } else if at == Polled(step.w) {
      PollMovesOwners(s, step, at);
      JoinBelong(s', at, Contents(s, at), Batch(queue, step.last, size));
    } else if at == Skipped(step.w) {
      PollMovesOwners(s, step, at);
      JoinBelong(s', at, Contents(s, at), UpTo(queue, step.last));
    }
  }

  lemma PollOk(s: System, step: Step)
    requires Inv(s) && step.PollQueue?
    ensures Inv(Apply(s, step))
  {
    var s' := Apply(s, step);
    var queue := Contents(s, Queued(step.w));
    assert PlaceOk(s, Queued(step.w), 0);
    forall at: Place ensures PlaceOk(s', at, 0) {
      assert PlaceOk(s, at, 0);
      PollPlace(s, step, at);
    }
    forall w: WorkerId ensures |Lookup(s'.queues, w, [])| <= MAX_QUEUE {
      assert |Lookup(s.queues, w, [])| <= MAX_QUEUE;
      if w == step.w {
        assert forall i | 0 <= i < |queue| :: Belongs(s, Queued(w), queue[i]);
        PollOwners(queue, step.last, w);
      }
    }
  }

  lemma StepOk(s: System, step: Step)
    requires Inv(s) && Enabled(s, step)
    ensures Inv(Apply(s, step))
  {
    match step
    case Issue(_, _, _, _) => IssueOk(s, step);
    case Write(p, ok) =>
      if ok {
        var mid := LeaveDispatch(s, p);
        DeliverOk(mid, s.dispatchers[p].env);
      } else {
        QuietOk(s, step);
      }
    case Requeue(p) =>
      var mid := LeaveDispatch(s, p);
      PutOk(mid, s.dispatchers[p].env);
    case TakeQueue(_, _) => TakeOk(s, step);
    case FlushWrite(f, ok) =>
      if ok {
        var mid := LeaveFlush(s, f);
        DeliverOk(mid, s.flushers[f].held[0]);
      } else {
        QuietOk(s, step);
      }
    case FlushRestore(f) =>
      var mid := LeaveFlush(s, f);
      PutOk(mid, s.flushers[f].held[0]);
    case PollQueue(_, _, _) => PollOk(s, step);
    case _ => QuietOk(s, step);
  }

  lemma {:induction false} InvAlways(s: System, steps: seq<Step>)
    requires Inv(s) && Runs(s, steps)
    ensures Inv(Exec(s, steps))
    decreases |steps|
  {
    if steps != [] {
      StepOk(s, steps[0]);
      InvAlways(Apply(s, steps[0]), steps[1..]);
    }
  }

  lemma ReachableInv(s: System)
    requires Reachable(s)
    ensures Inv(s)
  {
    var steps :| Runs(START, steps) && Exec(START, steps) == s;
    assert Inv(START) by {
      forall at: Place ensures PlaceOk(START, at, 0) {
        assert Contents(START, at) == [];
      }
    }
    InvAlways(START, steps);
  }

  // ---------------------------------------------------------------------------------------
  // Main results
  // ---------------------------------------------------------------------------------------

  /** The envelope of dispatch n sits at position i of this place. */
  ghost predicate Sits(s: System, n: nat, at: Place, i: nat) {
    i < |Contents(s, at)| && Contents(s, at)[i].ticket == n
  }

  /** Conservation: in every reachable state, the envelope of every dispatch so far is at some
      position of some place, and none is at two, whatever dispatches, flushes and polls are
      under way; dispatches not yet made have none. Its number is the count of dispatches,
      cut to 64 bits. */
  lemma EachDispatchInExactlyOnePlace(s: System, n: nat)
    requires Reachable(s)
    ensures 1 <= n <= s.issued <==> exists at: Place, i: nat :: Sits(s, n, at, i)
    ensures forall a: Place, i: nat, b: Place, j: nat :: Sits(s, n, a, i) && Sits(s, n, b, j) ==> a == b && i == j
    ensures forall a: Place, i: nat :: Sits(s, n, a, i) ==> Contents(s, a)[i].seqno == n % 0x1_0000_0000_0000_0000
  {
    ReachableInv(s);
    if n in s.where {
      var at := s.where[n];
      assert PlaceOk(s, at, 0);
      assert Holds(Contents(s, at), n);
      var i :| 0 <= i < |Contents(s, at)| && Contents(s, at)[i].ticket == n;
      assert Sits(s, n, at, i);
    }
    forall a: Place, i: nat | Sits(s, n, a, i)
      ensures n in s.where && s.where[n] == a && Contents(s, a)[i].seqno == n % SEQ_LIMIT
    {
      assert PlaceOk(s, a, 0);
      assert Holds(Contents(s, a), n) && Belongs(s, a, Contents(s, a)[i]);
    }
    forall a: Place, i: nat, b: Place, j: nat | Sits(s, n, a, i) && Sits(s, n, b, j) ensures a == b && i == j {
      assert PlaceOk(s, a, 0);
    }
  }

  ghost predicate Bears(s: System, number: nat, at: Place, i: nat) {
    i < |Contents(s, at)| && Contents(s, at)[i].seqno == number
  }

  /** So two envelopes bear the same number only if their dispatches are a multiple of 2^64
      apart, and until the counter has wrapped every number is in exactly one place. */
  lemma EachNumberInExactlyOnePlace(s: System, a: Place, i: nat, b: Place, j: nat, number: nat)
    requires Reachable(s) && Bears(s, number, a, i) && Bears(s, number, b, j)
    ensures (Contents(s, a)[i].ticket - Contents(s, b)[j].ticket) % 0x1_0000_0000_0000_0000 == 0
    ensures s.issued < 0x1_0000_0000_0000_0000 ==> a == b && i == j && 1 <= number <= s.issued
  {
    var m, n := Contents(s, a)[i].ticket, Contents(s, b)[j].ticket;
    assert Sits(s, m, a, i) && Sits(s, n, b, j);
    EachDispatchInExactlyOnePlace(s, m);
    EachDispatchInExactlyOnePlace(s, n);
  }

  /** A worker's queue, its flushes, and what it was sent or polled hold only its own messages. */
  lemma MessagesStayWithTheirWorker(s: System, at: Place, i: nat)
    requires Reachable(s) && i < |Contents(s, at)|
    ensures match at
            case Held(_) => true
            case Flushing(f) => f in s.flushers && Contents(s, at)[i].worker == s.flushers[f].worker
            case _ => Contents(s, at)[i].worker == at.w
  {
    ReachableInv(s);
    assert PlaceOk(s, at, 0);
    assert Belongs(s, at, Contents(s, at)[i]);
  }

  /** No queue exceeds its cap, and a step evicts only by enqueueing to a worker whose queue
      holds 1000 messages: then it evicts the oldest one and nothing else. */
  lemma EvictionOnlyFromAFullQueue(s: System, step: Step, w: WorkerId)
    requires Reachable(s) && Enabled(s, step)
    ensures |Contents(s, Queued(w))| <= 1000
    ensures var before, after := Contents(s, Evicted(w)), Contents(Apply(s, step), Evicted(w));
            after != before ==>
              && (step.Requeue? || step.FlushRestore?)
              && |Contents(s, Queued(w))| == 1000
              && after == before + [Contents(s, Queued(w))[0]]
              && |Contents(Apply(s, step), Queued(w))| == 1000
  {
    ReachableInv(s);
    assert |Lookup(s.queues, w, [])| <= MAX_QUEUE;
    match step
    case Requeue(p) =>
      var env := s.dispatchers[p].env;
      PutEvicts(s.(dispatchers := s.dispatchers - {p}), env.worker, env, w);
    case FlushRestore(f) =>
      var fl := s.flushers[f];
      PutEvicts(s.(flushers := s.flushers[f := fl.(held := fl.held[1..])]), fl.worker, fl.held[0], w);
    case _ => OthersEvictNothing(s, step, w);
  }

  lemma PutEvicts(s: System, v: WorkerId, env: Envelope, w: WorkerId)
    requires |Contents(s, Queued(w))| <= MAX_QUEUE
    ensures var s' := Put(s, v, env);
            var queue, before, after := Contents(s, Queued(w)), Contents(s, Evicted(w)), Contents(s', Evicted(w));
            if v == w && |queue| == MAX_QUEUE
              then after == before + [queue[0]] && |Contents(s', Queued(w))| == MAX_QUEUE
            else after == before
  {
    if v == w {
      EnqueueSplits(Contents(s, Queued(w)), env);
    }
  }

  lemma OthersEvictNothing(s: System, step: Step, w: WorkerId)
    requires Enabled(s, step) && !step.Requeue? && !step.FlushRestore?
    ensures Contents(Apply(s, step), Evicted(w)) == Contents(s, Evicted(w))
  {
  }
}

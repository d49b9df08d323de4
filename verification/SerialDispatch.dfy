/** When polling with LastSeq is lossless. Numbers are issued and queues are appended to in
    separate locked regions, so two dispatches may enqueue out of order and a poller then
    loses the late one. With one dispatch or flush per worker at a time this cannot happen. */
module SerialDispatch {
  import opened Sequences
  import opened ControlQueue
  import opened DispatchSystem

  /** The books of one worker that has one message in flight at process p. */
  ghost predicate Books(s: System, w: WorkerId, p: ProcessId, env: Envelope,
                        queued: seq<Envelope>, polled: seq<Envelope>, skipped: seq<Envelope>) {
    && Reachable(s) && s.connected == {}
    && p in s.dispatchers && s.dispatchers[p] == Dispatcher(env, LookingUp) && env.worker == w
    && Contents(s, Queued(w)) == queued && Contents(s, Polled(w)) == polled && Contents(s, Skipped(w)) == skipped
  }

  lemma TwoIssued(w: WorkerId, stream: StreamId) returns (s: System)
    ensures Books(s, w, 1, Envelope(w, stream, 1, Run, 1), [], [], [])
    ensures Books(s, w, 2, Envelope(w, stream, 2, Run, 2), [], [], [])
  {
    ReachableStart();
    var s1 := Apply(START, Issue(1, w, stream, Run));
    ReachableNext(START, Issue(1, w, stream, Run));
    s := Apply(s1, Issue(2, w, stream, Run));
    ReachableNext(s1, Issue(2, w, stream, Run));
  }

  /** With no session, a dispatch ends up at the back of the queue. */
  lemma QueueUp(s: System, w: WorkerId, p: ProcessId, env: Envelope, polled: seq<Envelope>) returns (s': System)
    requires Books(s, w, p, env, [], polled, [])
    ensures Reachable(s') && s'.connected == {} && s'.dispatchers == s.dispatchers - {p}
    ensures Contents(s', Queued(w)) == [env] && Contents(s', Polled(w)) == polled && Contents(s', Skipped(w)) == []
  {
    var mid := Apply(s, LookUpSession(p));
    ReachableNext(s, LookUpSession(p));
    s' := Apply(mid, Requeue(p));
    ReachableNext(mid, Requeue(p));
    assert s'.dispatchers == s.dispatchers - {p};
  }

  lemma PollOne(s: System, w: WorkerId, last: nat, env: Envelope) returns (s': System)
    requires Reachable(s) && Contents(s, Queued(w)) == [env] && Contents(s, Skipped(w)) == []
    ensures Reachable(s') && s' == Apply(s, PollQueue(w, last, 10)) && Contents(s', Queued(w)) == []
    ensures Contents(s', Polled(w)) == Contents(s, Polled(w)) + (if env.seqno > last then [env] else [])
    ensures Contents(s', Skipped(w)) == if env.seqno > last then [] else [env]
  {
    var step := PollQueue(w, last, 10);
    s' := Apply(s, step);
    ReachableNext(s, step);
    assert [env][1..] == [];
    assert Above([env], last) == (if env.seqno > last then [env] else []);
    assert UpTo([env], last) == (if env.seqno > last then [] else [env]);
    PollContents(s, step, Polled(w));
    PollContents(s, step, Skipped(w));
    PollContents(s, step, Queued(w));
  }

  /** A poller that always passes the last number it received loses message 1: message 2
      overtakes it between the two locked regions of its dispatch. */
  lemma OvertakenMessageIsSkipped(w: WorkerId, stream: StreamId)
    ensures exists s :: Reachable(s) && Contents(s, Polled(w)) == [Envelope(w, stream, 2, Run, 2)]
                        && Contents(s, Skipped(w)) == [Envelope(w, stream, 1, Run, 1)]
  {
    var s1 := TwoIssued(w, stream);
    var s2 := QueueUp(s1, w, 2, Envelope(w, stream, 2, Run, 2), []);
    var s3 := PollOne(s2, w, 0, Envelope(w, stream, 2, Run, 2));
    var s4 := QueueUp(s3, w, 1, Envelope(w, stream, 1, Run, 1), [Envelope(w, stream, 2, Run, 2)]);
    var s5 := PollOne(s4, w, 2, Envelope(w, stream, 1, Run, 1));
  }

  lemma ReachableStart()
    ensures Reachable(START)
  {
    assert Runs(START, []) && Exec(START, []) == START;
  }

  lemma ReachableNext(s: System, step: Step)
    requires Reachable(s) && Enabled(s, step)
    ensures Reachable(Apply(s, step))
  {
    var steps :| Runs(START, steps) && Exec(START, steps) == s;
    RunsLonger(START, steps, step);
  }

  lemma {:induction false} RunsLonger(s: System, steps: seq<Step>, step: Step)
    requires Runs(s, steps) && Enabled(Exec(s, steps), step)
    ensures Runs(s, steps + [step]) && Exec(s, steps + [step]) == Apply(Exec(s, steps), step)
    decreases |steps|
  {
    if steps == [] {
      assert [step][1..] == [] && steps + [step] == [step];
    } else {
      assert (steps + [step])[1..] == steps[1..] + [step];
      RunsLonger(Apply(s, steps[0]), steps[1..], step);
    }
  }

  // ---------------------------------------------------------------------------------------
  // One dispatch or flush per worker at a time
  // ---------------------------------------------------------------------------------------

  predicate Starts(step: Step, w: WorkerId) {
    (step.Issue? || step.TakeQueue?) && step.w == w
  }

  /** Nothing is under way for this worker. */
  predicate Idle(s: System, w: WorkerId) {
    && (forall p | p in s.dispatchers :: s.dispatchers[p].env.worker != w)
    && (forall f | f in s.flushers :: s.flushers[f].worker != w)
  }

  /** A step of a gateway that starts a dispatch or a flush for this worker only when none for
      it is under way, and whose counter has not wrapped. Other workers' dispatches and flushes,
      and polls, connects and disconnects may come at any time. */
  predicate SerialEnabled(s: System, step: Step, w: WorkerId) {
    Enabled(s, step) && (Starts(step, w) ==> Idle(s, w)) && (step.Issue? ==> s.issued + 1 < SEQ_LIMIT)
  }

  predicate SerialRuns(s: System, steps: seq<Step>, w: WorkerId)
    decreases |steps|
  {
    steps == [] || (SerialEnabled(s, steps[0], w) && SerialRuns(Apply(s, steps[0]), steps[1..], w))
  }

  ghost predicate SeriallyReachable(s: System, w: WorkerId) {
    exists steps :: SerialRuns(START, steps, w) && Runs(START, steps) && Exec(START, steps) == s
  }

  /** What the worker has been given by polls, then its queue. */
  function Line(s: System, w: WorkerId): seq<Envelope> {
    Contents(s, Polled(w)) + Contents(s, Queued(w))
  }

  predicate InFlight(s: System, at: Place) {
    match at
    case Held(p) => p in s.dispatchers
    case Flushing(f) => f in s.flushers
    case _ => false
  }

  function WorkerOf(s: System, at: Place): WorkerId
    requires InFlight(s, at)
  {
    if at.Held? then s.dispatchers[at.p].env.worker else s.flushers[at.f].worker
  }

  /** At most one dispatch or flush is under way for the worker. */
  ghost predicate Alone(s: System, w: WorkerId) {
    forall a, b | InFlight(s, a) && InFlight(s, b) && WorkerOf(s, a) == w && WorkerOf(s, b) == w :: a == b
  }

  /** Numbers rise along what was polled, what is queued and what is in flight, and none is
      above the counter. */
  ghost predicate InOrder(s: System, w: WorkerId) {
    && RisesTo(Line(s, w), s.issued)
    && forall at | InFlight(s, at) && WorkerOf(s, at) == w :: RisesTo(Line(s, w) + Contents(s, at), s.issued)
  }

  ghost predicate RisesTo(q: seq<Envelope>, top: nat) {
    Ascending(q) && forall i | 0 <= i < |q| :: 1 <= q[i].seqno <= top
  }

  lemma DropMiddle(a: seq<Envelope>, b: seq<Envelope>, c: seq<Envelope>, top: nat)
    requires RisesTo(a + b + c, top)
    ensures RisesTo(a + c, top)
  {
    var whole, cut := a + b + c, a + c;
    forall i, j | 0 <= i < j < |cut| ensures cut[i].seqno < cut[j].seqno {
      var i' := if i < |a| then i else i + |b|;
      var j' := if j < |a| then j else j + |b|;
      assert cut[i] == whole[i'] && cut[j] == whole[j'];
    }
    forall i | 0 <= i < |cut| ensures 1 <= cut[i].seqno <= top {
      assert cut[i] == whole[if i < |a| then i else i + |b|];
    }
  }

  lemma {:induction false} AboveIsSuffix(queue: seq<Envelope>, last: nat) returns (k: nat)
    requires Ascending(queue)
    ensures k <= |queue| && Above(queue, last) == queue[k..]
  {
    if queue == [] || queue[0].seqno > last {
      AboveKeepsEverything(queue, last);
      k := 0;
    } else {
      var k' := AboveIsSuffix(queue[1..], last);
      k := k' + 1;
    }
  }

  lemma DropFront(b: seq<Envelope>, c: seq<Envelope>, top: nat)
    requires RisesTo(b + c, top)
    ensures RisesTo(b, top) && RisesTo(c, top)
  {
    assert [] + b + c == b + c && b + c + [] == b + c;
    DropMiddle([], b, c, top);
    DropMiddle(b, c, [], top);
    assert [] + c == c && b + [] == b;
  }

  /** Nothing this worker's order depends on has changed. */
  lemma OrderUntouched(s: System, s': System, w: WorkerId)
    requires InOrder(s, w) && Line(s', w) == Line(s, w) && s.issued <= s'.issued
    requires forall at | InFlight(s', at) && WorkerOf(s', at) == w ::
               InFlight(s, at) && WorkerOf(s, at) == w && Contents(s', at) == Contents(s, at)
    ensures InOrder(s', w)
  {
    forall at | InFlight(s', at) && WorkerOf(s', at) == w ensures RisesTo(Line(s', w) + Contents(s', at), s'.issued) {
      assert RisesTo(Line(s, w) + Contents(s, at), s.issued);
    }
  }

  lemma IssuedNumber(s: System)
    requires Inv(s) && s.issued + 1 < SEQ_LIMIT
    ensures (s.counter + 1) % SEQ_LIMIT == s.issued + 1
  {
  }

  lemma IssueOrder(s: System, step: Step, w: WorkerId)
    requires SerialEnabled(s, step, w) && step.Issue? && step.w == w && InOrder(s, w)
    requires (s.counter + 1) % SEQ_LIMIT == s.issued + 1
    ensures InOrder(Apply(s, step), w)
  {
    var s' := Apply(s, step);
    var n := s.issued + 1;
    assert Line(s', w) == Line(s, w);
    assert Contents(s', Held(step.p)) == [Envelope(w, step.stream, n, step.command, n)];
    forall at | InFlight(s', at) && WorkerOf(s', at) == w
      ensures RisesTo(Line(s', w) + Contents(s', at), s'.issued)
    {
      OneFlightStarts(s, step, w, at);
    }
  }

  lemma IssueElsewhere(s: System, step: Step, w: WorkerId)
    requires Enabled(s, step) && step.Issue? && step.w != w && InOrder(s, w)
    ensures InOrder(Apply(s, step), w)
  {
    var s' := Apply(s, step);
    assert Line(s', w) == Line(s, w);
    OrderUntouched(s, s', w);
  }

  lemma RequeueOrder(s: System, step: Step, w: WorkerId)
    requires Inv(s) && Alone(s, w) && Enabled(s, step) && step.Requeue? && InOrder(s, w)
    ensures InOrder(Apply(s, step), w)
  {
    var s' := Apply(s, step);
    RequeueLine(s, step, w);
    if s.dispatchers[step.p].env.worker == w {
      RequeueLands(s, step, w);
      var env := s.dispatchers[step.p].env;
      assert RisesTo(Line(s, w) + Contents(s, Held(step.p)), s.issued);
      assert Line(s, w) + [env] + [] == Line(s, w) + [env];
      PutOrder(Contents(s, Polled(w)), Contents(s, Queued(w)), env, [], s.issued);
    } else {
      OrderUntouched(s, s', w);
    }
  }

  lemma RequeueLands(s: System, step: Step, w: WorkerId)
    requires Alone(s, w) && Enabled(s, step) && step.Requeue? && s.dispatchers[step.p].env.worker == w
    ensures forall b | InFlight(Apply(s, step), b) :: WorkerOf(Apply(s, step), b) != w
  {
    var s' := Apply(s, step);
    var at := Held(step.p);
    assert InFlight(s, at) && !InFlight(s', at);
    assert forall b | InFlight(s', b) :: InFlight(s, b) && WorkerOf(s', b) == WorkerOf(s, b);
  }

  lemma RequeueLine(s: System, step: Step, w: WorkerId)
    requires Inv(s) && Enabled(s, step) && step.Requeue?
    ensures var env := s.dispatchers[step.p].env;
            Line(Apply(s, step), w) ==
              if env.worker == w then Contents(s, Polled(w)) + Enqueue(Contents(s, Queued(w)), env) else Line(s, w)
    ensures |Contents(s, Queued(w))| <= MAX_QUEUE
  {
    assert |Lookup(s.queues, w, [])| <= MAX_QUEUE;
  }

  /** An enqueue of what came next in order keeps the order, evicted head or not. */
  lemma PutOrder(polled: seq<Envelope>, queue: seq<Envelope>, env: Envelope, rest: seq<Envelope>, top: nat)
    requires |queue| <= MAX_QUEUE && RisesTo(polled + queue + [env] + rest, top)
    ensures RisesTo(polled + Enqueue(queue, env) + rest, top) && RisesTo(polled + Enqueue(queue, env), top)
  {
    var out := PushedOut(queue);
    var kept := queue[|out|..];
    EnqueueSplits(queue, env);
    Regroup(polled, out, kept, [env], rest);
    DropMiddle(polled, out, kept + [env] + rest, top);
    assert polled + (kept + [env] + rest) == polled + (kept + [env]) + rest;
    DropFront(polled + (kept + [env]), rest, top);
  }

  lemma Regroup(a: seq<Envelope>, b: seq<Envelope>, c: seq<Envelope>, d: seq<Envelope>, e: seq<Envelope>)
    ensures a + (b + c) + d + e == a + b + (c + d + e)
  {
  }

  lemma TakeOrder(s: System, step: Step, w: WorkerId)
    requires SerialEnabled(s, step, w) && step.TakeQueue? && step.w == w && InOrder(s, w)
    ensures InOrder(Apply(s, step), w)
  {
    var s' := Apply(s, step);
    TakeLine(s, step);
    DropFront(Contents(s, Polled(w)), Contents(s, Queued(w)), s.issued);
    forall at | InFlight(s', at) && WorkerOf(s', at) == w
      ensures RisesTo(Line(s', w) + Contents(s', at), s'.issued)
    {
      OneFlightStarts(s, step, w, at);
    }
  }

  lemma TakeLine(s: System, step: Step)
    requires Enabled(s, step) && step.TakeQueue?
    ensures var s' := Apply(s, step);
            && Line(s', step.w) == Contents(s, Polled(step.w))
            && Line(s', step.w) + Contents(s', Flushing(step.f)) == Line(s, step.w)
            && s'.issued == s.issued
  {
    var s' := Apply(s, step);
    assert Contents(s', Polled(step.w)) == Contents(s, Polled(step.w));
  }

  lemma TakeElsewhere(s: System, step: Step, w: WorkerId)
    requires Enabled(s, step) && step.TakeQueue? && step.w != w && InOrder(s, w)
    ensures InOrder(Apply(s, step), w)
  {
    var s' := Apply(s, step);
    assert Line(s', w) == Line(s, w);
    OrderUntouched(s, s', w);
  }

  /** A flush that moves its first message on, to the session or back into the queue. */
  lemma FlushOrder(s: System, step: Step, w: WorkerId)
    requires Inv(s) && Alone(s, w) && Enabled(s, step) && InOrder(s, w)
    requires (step.FlushWrite? && step.ok) || step.FlushRestore?
    ensures InOrder(Apply(s, step), w)
  {
    var s' := Apply(s, step);
    var at := Flushing(step.f);
    var held := s.flushers[step.f].held;
    if s.flushers[step.f].worker == w {
      FlushStays(s, step, w);
      assert RisesTo(Line(s, w) + Contents(s, at), s.issued);
      assert Line(s, w) + held == Line(s, w) + [held[0]] + held[1..];
      if step.FlushWrite? {
        FlushWriteLine(s, step, w);
        DropMiddle(Line(s, w), [held[0]], held[1..], s.issued);
      } else {
        FlushRestoreLine(s, step);
        PutOrder(Contents(s, Polled(w)), Contents(s, Queued(w)), held[0], held[1..], s.issued);
      }
    } else {
      FlushElsewhere(s, step, w);
      OrderUntouched(s, s', w);
    }
  }

  lemma FlushStays(s: System, step: Step, w: WorkerId)
    requires Alone(s, w) && Enabled(s, step) && ((step.FlushWrite? && step.ok) || step.FlushRestore?)
    requires s.flushers[step.f].worker == w
    ensures Contents(Apply(s, step), Flushing(step.f)) == s.flushers[step.f].held[1..]
    ensures forall b | InFlight(Apply(s, step), b) && WorkerOf(Apply(s, step), b) == w :: b == Flushing(step.f)
  {
    var s' := Apply(s, step);
    assert InFlight(s, Flushing(step.f));
    forall b | InFlight(s', b) && WorkerOf(s', b) == w ensures b == Flushing(step.f) {
      assert InFlight(s, b) && WorkerOf(s, b) == w;
    }
  }

  lemma FlushRestoreLine(s: System, step: Step)
    requires Inv(s) && Enabled(s, step) && step.FlushRestore?
    ensures var f := s.flushers[step.f];
            && Line(Apply(s, step), f.worker)
                 == Contents(s, Polled(f.worker)) + Enqueue(Contents(s, Queued(f.worker)), f.held[0])
            && |Contents(s, Queued(f.worker))| <= MAX_QUEUE
  {
    assert |Lookup(s.queues, s.flushers[step.f].worker, [])| <= MAX_QUEUE;
  }

  lemma FlushWriteLine(s: System, step: Step, w: WorkerId)
    requires Enabled(s, step) && step.FlushWrite?
    ensures Line(Apply(s, step), w) == Line(s, w)
  {
  }

  lemma FlushElsewhere(s: System, step: Step, w: WorkerId)
    requires Enabled(s, step) && (step.FlushWrite? || step.FlushRestore?) && s.flushers[step.f].worker != w
    ensures Line(Apply(s, step), w) == Line(s, w)
  {
  }

  /** What a poll drops from the line is a front part of the queue. */
  lemma PollLine(s: System, step: Step) returns (k: nat)
    requires step.PollQueue? && Ascending(Contents(s, Queued(step.w)))
    ensures var polled, queue := Contents(s, Polled(step.w)), Contents(s, Queued(step.w));
            k <= |queue| && Line(Apply(s, step), step.w) == polled + queue[k..]
  {
    var polled, queue := Contents(s, Polled(step.w)), Contents(s, Queued(step.w));
    var size := BatchSize(step.requested);
    k := AboveIsSuffix(queue, step.last);
    PollSplitsQueue(queue, step.last, size);
    PollContents(s, step, Polled(step.w));
    PollContents(s, step, Queued(step.w));
    SumOfThree(polled, Batch(queue, step.last, size), Remaining(queue, step.last, size));
  }

  lemma SumOfThree(a: seq<Envelope>, b: seq<Envelope>, c: seq<Envelope>)
    ensures a + b + c == a + (b + c)
  {
  }

  lemma PollKeepsFlights(s: System, step: Step, at: Place)
    requires step.PollQueue? && InFlight(Apply(s, step), at)
    ensures InFlight(s, at) && WorkerOf(s, at) == WorkerOf(Apply(s, step), at)
    ensures Contents(Apply(s, step), at) == Contents(s, at)
  {
  }

  lemma DropFrontOfQueue(polled: seq<Envelope>, queue: seq<Envelope>, k: nat, c: seq<Envelope>, top: nat)
    requires k <= |queue| && RisesTo(polled + queue + c, top)
    ensures RisesTo(polled + queue[k..] + c, top)
  {
    assert polled + queue + c == polled + queue[..k] + (queue[k..] + c);
    DropMiddle(polled, queue[..k], queue[k..] + c, top);
    assert polled + (queue[k..] + c) == polled + queue[k..] + c;
  }

  lemma PollOrder(s: System, step: Step, w: WorkerId)
    requires step.PollQueue? && InOrder(s, w)
    ensures InOrder(Apply(s, step), w)
  {
    var s' := Apply(s, step);
    if w == step.w {
      PollOrderHere(s, step);
    } else {
      assert Line(s', w) == Line(s, w);
      OrderUntouched(s, s', w);
    }
  }

  lemma PollOrderHere(s: System, step: Step)
    requires step.PollQueue? && InOrder(s, step.w)
    ensures InOrder(Apply(s, step), step.w)
  {
    DropFront(Contents(s, Polled(step.w)), Contents(s, Queued(step.w)), s.issued);
    var k := PollLine(s, step);
    forall at | InFlight(Apply(s, step), at)
      ensures InFlight(s, at) && WorkerOf(s, at) == WorkerOf(Apply(s, step), at)
      ensures Contents(Apply(s, step), at) == Contents(s, at)
    {
      PollKeepsFlights(s, step, at);
    }
    ShorterLine(s, Apply(s, step), step.w, k);
  }

  lemma ShorterLine(s: System, s': System, w: WorkerId, k: nat)
    requires InOrder(s, w) && s'.issued == s.issued && k <= |Contents(s, Queued(w))|
    requires Line(s', w) == Contents(s, Polled(w)) + Contents(s, Queued(w))[k..]
    requires forall at | InFlight(s', at) ::
          InFlight(s, at) && WorkerOf(s, at) == WorkerOf(s', at) && Contents(s', at) == Contents(s, at)
    ensures InOrder(s', w)
  {
    var polled, queue := Contents(s, Polled(w)), Contents(s, Queued(w));
    assert RisesTo(Line(s', w), s'.issued) by {
      SumOfThree(polled, queue[..k], queue[k..]);
      assert queue[..k] + queue[k..] == queue;
      DropMiddle(polled, queue[..k], queue[k..], s.issued);
    }
    forall at | InFlight(s', at) && WorkerOf(s', at) == w ensures RisesTo(Line(s', w) + Contents(s', at), s'.issued) {
      DropFrontOfQueue(polled, queue, k, Contents(s, at), s.issued);
    }
  }

  lemma OrderStep(s: System, step: Step, w: WorkerId)
    requires Inv(s) && Alone(s, w) && SerialEnabled(s, step, w) && InOrder(s, w)
    ensures InOrder(Apply(s, step), w)
  {
    match step
    case Issue(_, _, _, _) =>
      if step.w == w {
        IssuedNumber(s);
        IssueOrder(s, step, w);
      } else {
        IssueElsewhere(s, step, w);
      }
    case Requeue(_) => RequeueOrder(s, step, w);
    case TakeQueue(_, _) =>
      if step.w == w {
        TakeOrder(s, step, w);
      } else {
        TakeElsewhere(s, step, w);
      }
    case FlushRestore(_) => FlushOrder(s, step, w);
    case PollQueue(_, _, _) => PollOrder(s, step, w);
    case FlushWrite(_, ok) =>
      if ok {
        FlushOrder(s, step, w);
      } else {
        QuietOrder(s, step, w);
      }
    case _ => QuietOrder(s, step, w);
  }

  /** Steps that move no envelope, and writes by a dispatch. */
  lemma QuietOrder(s: System, step: Step, w: WorkerId)
    requires Enabled(s, step) && InOrder(s, w)
    requires step.LookUpSession? || step.Write? || step.Connect? || step.Disconnect?
             || (step.FlushWrite? && !step.ok) || step.FlushEnd?
    ensures InOrder(Apply(s, step), w)
  {
    QuietLine(s, step, w);
    OrderUntouched(s, Apply(s, step), w);
  }

  lemma QuietLine(s: System, step: Step, w: WorkerId)
    requires Enabled(s, step)
    requires step.LookUpSession? || step.Write? || step.Connect? || step.Disconnect?
             || (step.FlushWrite? && !step.ok) || step.FlushEnd?
    ensures Line(Apply(s, step), w) == Line(s, w) && Apply(s, step).issued == s.issued
    ensures forall at | InFlight(Apply(s, step), at) ::
              InFlight(s, at) && WorkerOf(s, at) == WorkerOf(Apply(s, step), at)
              && Contents(Apply(s, step), at) == Contents(s, at)
  {
  }

  lemma FlightsOnlyEnd(s: System, step: Step, w: WorkerId, at: Place)
    requires Enabled(s, step) && !Starts(step, w)
    requires InFlight(Apply(s, step), at) && WorkerOf(Apply(s, step), at) == w
    ensures InFlight(s, at) && WorkerOf(s, at) == w
  {
  }

  lemma OneFlightStarts(s: System, step: Step, w: WorkerId, at: Place)
    requires SerialEnabled(s, step, w) && Starts(step, w)
    requires InFlight(Apply(s, step), at) && WorkerOf(Apply(s, step), at) == w
    ensures at == if step.Issue? then Held(step.p) else Flushing(step.f)
  {
  }

  lemma AloneStep(s: System, step: Step, w: WorkerId)
    requires Alone(s, w) && SerialEnabled(s, step, w)
    ensures Alone(Apply(s, step), w)
  {
    var s' := Apply(s, step);
    forall a, b | InFlight(s', a) && InFlight(s', b) && WorkerOf(s', a) == w && WorkerOf(s', b) == w ensures a == b {
      if Starts(step, w) {
        OneFlightStarts(s, step, w, a);
        OneFlightStarts(s, step, w, b);
      } else {
        FlightsOnlyEnd(s, step, w, a);
        FlightsOnlyEnd(s, step, w, b);
      }
    }
  }

  ghost predicate SerialInv(s: System, w: WorkerId) {
    Inv(s) && Alone(s, w) && InOrder(s, w)
  }

  lemma {:induction false} SerialInvAlways(s: System, steps: seq<Step>, w: WorkerId)
    requires SerialInv(s, w) && SerialRuns(s, steps, w) && Runs(s, steps)
    ensures SerialInv(Exec(s, steps), w)
    decreases |steps|
  {
    if steps != [] {
      StepOk(s, steps[0]);
      AloneStep(s, steps[0], w);
      OrderStep(s, steps[0], w);
      SerialInvAlways(Apply(s, steps[0]), steps[1..], w);
    }
  }

  lemma SerialReachableInv(s: System, w: WorkerId)
    requires SeriallyReachable(s, w)
    ensures SerialInv(s, w)
  {
    var steps :| SerialRuns(START, steps, w) && Runs(START, steps) && Exec(START, steps) == s;
    ReachableStart();
    ReachableInv(START);
    SerialInvAlways(START, steps, w);
  }

  /** While dispatches and flushes for one worker do not overlap, whatever the others do, and
      until the counter wraps, the worker's queue is ascending and a poll whose LastSeq is 0 or
      any number this worker was polled discards nothing, so with no further enqueue repeated
      polls of any size deliver the whole queue. */
  lemma SerialPollsLoseNothing(s: System, w: WorkerId, last: nat)
    requires SeriallyReachable(s, w)
    requires last == 0 || exists e | e in Contents(s, Polled(w)) :: e.seqno == last
    ensures var queue := Contents(s, Queued(w));
            && Ascending(queue) && UpTo(queue, last) == []
            && forall n: nat | n >= 1 :: Flatten(Drain(queue, last, n)) == queue
  {
    SerialReachableInv(s, w);
    var polled, queue := Contents(s, Polled(w)), Contents(s, Queued(w));
    assert InOrder(s, w);
    DropFront(polled, queue, s.issued);
    forall i | 0 <= i < |queue| ensures queue[i].seqno > last {
      if last != 0 {
        var j :| 0 <= j < |polled| && polled[j].seqno == last;
        assert (polled + queue)[j] == polled[j] && (polled + queue)[|polled| + i] == queue[i];
      }
    }
    NothingUpTo(queue, last);
    DrainsForEveryBatchSizeIffAscending(queue, last);
  }

  lemma {:induction false} NothingUpTo(queue: seq<Envelope>, last: nat)
    requires AllAbove(queue, last)
    ensures UpTo(queue, last) == []
  {
    if queue != [] {
      NothingUpTo(queue[1..], last);
    }
  }
}

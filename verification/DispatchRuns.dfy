/** One dispatch or flush with nothing in between, and what a dispatch that is about to write has
    seen. This ties the interleaved steps to what the operations do on their own. */
module DispatchRuns {
  import opened Sequences
  import opened ControlQueue
  import opened DispatchSystem

  lemma {:induction false} RunsSum(s: System, a: seq<Step>, b: seq<Step>)
    requires Runs(s, a) && Runs(Exec(s, a), b)
    ensures Runs(s, a + b) && Exec(s, a + b) == Exec(Exec(s, a), b)
    decreases |a|
  {
    if a == [] {
      assert a + b == b;
    } else {
      assert (a + b)[1..] == a[1..] + b;
      RunsSum(Apply(s, a[0]), a[1..], b);
    }
  }

  lemma OneStep(s: System, step: Step)
    requires Enabled(s, step)
    ensures Runs(s, [step]) && Exec(s, [step]) == Apply(s, step)
  {
    assert [step][1..] == [];
  }

  // ---------------------------------------------------------------------------------------
  // One dispatch alone
  // ---------------------------------------------------------------------------------------

  /** The envelope of the next dispatch. */
  function NextEnvelope(s: System, w: WorkerId, stream: StreamId, command: Command): Envelope {
    Envelope(w, stream, (s.counter + 1) % 0x1_0000_0000_0000_0000, command, s.issued + 1)
  }

  lemma IssueAndLookUp(s: System, p: ProcessId, w: WorkerId, stream: StreamId, command: Command) returns (s': System)
    requires p !in s.dispatchers
    ensures var steps := [Issue(p, w, stream, command), LookUpSession(p)]; Runs(s, steps) && Exec(s, steps) == s'
    ensures s'.queues == s.queues && s'.connected == s.connected && s'.flushers == s.flushers && s'.archive == s.archive
    ensures s'.dispatchers - {p} == s.dispatchers && p in s'.dispatchers
    ensures s'.dispatchers[p].env == NextEnvelope(s, w, stream, command)
    ensures Enabled(s', Write(p, true)) <==> w in s.connected
    ensures Enabled(s', Write(p, false)) <==> w in s.connected
    ensures Enabled(s', Requeue(p)) <==> w !in s.connected
  {
    var s1 := Apply(s, Issue(p, w, stream, command));
    s' := Apply(s1, LookUpSession(p));
    OneStep(s, Issue(p, w, stream, command));
    OneStep(s1, LookUpSession(p));
    RunsSum(s, [Issue(p, w, stream, command)], [LookUpSession(p)]);
    assert [Issue(p, w, stream, command)] + [LookUpSession(p)] == [Issue(p, w, stream, command), LookUpSession(p)];
    assert s'.dispatchers - {p} == s.dispatchers;
  }

  /** How a dispatch goes on after it has looked for a session. */
  function Ending(p: ProcessId, connected: bool, ok: bool): seq<Step> {
    if !connected then [Requeue(p)] else if ok then [Write(p, true)] else [Write(p, false), Requeue(p)]
  }

  /** What a dispatch alone does to its worker's places, and that it touches no other. */
  ghost predicate Dispatched(s: System, s': System, env: Envelope, written: bool) {
    var w := env.worker;
    && s'.dispatchers == s.dispatchers && s'.flushers == s.flushers && s'.connected == s.connected
    && (if written then
          && Contents(s', Sent(w)) == Contents(s, Sent(w)) + [env]
          && Contents(s', Queued(w)) == Contents(s, Queued(w))
        else
          && Contents(s', Sent(w)) == Contents(s, Sent(w))
          && IsLast(Contents(s', Queued(w)), Contents(s, Queued(w)) + [env], 1000))
    && (forall v | v != w ::
          Contents(s', Queued(v)) == Contents(s, Queued(v)) && Contents(s', Sent(v)) == Contents(s, Sent(v)))
  }

  /** b is the last n elements of a, or all of them. */
  predicate IsLast<T(==)>(b: seq<T>, a: seq<T>, n: nat) {
    if |a| <= n then b == a else |b| == n && b == a[|a| - n..]
  }

  lemma RequeueAlone(s: System, p: ProcessId)
    requires p in s.dispatchers && s.dispatchers[p].pc.Requeueing?
    ensures Enabled(s, Requeue(p))
    ensures Dispatched(s.(dispatchers := s.dispatchers - {p}), Apply(s, Requeue(p)), s.dispatchers[p].env, false)
  {
  }

  lemma WriteAlone(s: System, p: ProcessId)
    requires p in s.dispatchers && s.dispatchers[p].pc.Writing?
    ensures Enabled(s, Write(p, true))
    ensures Dispatched(s.(dispatchers := s.dispatchers - {p}), Apply(s, Write(p, true)), s.dispatchers[p].env, true)
  {
  }

  /** Alone, a dispatch writes its envelope to the session exactly when its worker has one and the
      write succeeds; otherwise the envelope goes to the back of the worker's queue. The choice is
      not the scheduler's: IssueAndLookUp says which step the dispatch has left. */
  lemma DispatchAlone(s: System, p: ProcessId, w: WorkerId, stream: StreamId, command: Command, ok: bool)
    requires p !in s.dispatchers
    ensures var steps := [Issue(p, w, stream, command), LookUpSession(p)] + Ending(p, w in s.connected, ok);
            Runs(s, steps)
            && Dispatched(s, Exec(s, steps), NextEnvelope(s, w, stream, command), w in s.connected && ok)
  {
    var start := [Issue(p, w, stream, command), LookUpSession(p)];
    var s1 := IssueAndLookUp(s, p, w, stream, command);
    if w !in s.connected {
      OneStep(s1, Requeue(p));
      RequeueAlone(s1, p);
      RunsSum(s, start, [Requeue(p)]);
    } else if ok {
      OneStep(s1, Write(p, true));
      WriteAlone(s1, p);
      RunsSum(s, start, [Write(p, true)]);
    } else {
      FailedWriteAlone(s1, p);
      RunsSum(s, start, [Write(p, false), Requeue(p)]);
    }
  }

  lemma FailedWriteAlone(s: System, p: ProcessId)
    requires p in s.dispatchers && s.dispatchers[p].pc.Writing?
    ensures var steps := [Write(p, false), Requeue(p)];
            Runs(s, steps)
            && Dispatched(s.(dispatchers := s.dispatchers - {p}), Exec(s, steps), s.dispatchers[p].env, false)
  {
    var s' := Apply(s, Write(p, false));
    OneStep(s, Write(p, false));
    OneStep(s', Requeue(p));
    RequeueAlone(s', p);
    RunsSum(s, [Write(p, false)], [Requeue(p)]);
    assert [Write(p, false)] + [Requeue(p)] == [Write(p, false), Requeue(p)];
    assert s'.dispatchers - {p} == s.dispatchers - {p};
  }

  // ---------------------------------------------------------------------------------------
  // One flush alone
  // ---------------------------------------------------------------------------------------

  /** From s to s' only flush f and its worker's queue and session have changed. */
  ghost predicate OnlyFlush(s: System, s': System, f: ProcessId, w: WorkerId) {
    && s'.dispatchers == s.dispatchers && s'.connected == s.connected && s'.flushers - {f} == s.flushers - {f}
    && (forall v | v != w ::
          Contents(s', Queued(v)) == Contents(s, Queued(v)) && Contents(s', Sent(v)) == Contents(s, Sent(v)))
  }

  /** Flush f has moved on from fl to fl', with this much more sent and this in the queue. */
  ghost predicate Flushed(s: System, s': System, f: ProcessId, fl: Flusher, fl': Flusher,
                          sent: seq<Envelope>, queue: seq<Envelope>) {
    && OnlyFlush(s, s', f, fl.worker) && f in s'.flushers && s'.flushers[f] == fl'
    && Contents(s', Sent(fl.worker)) == Contents(s, Sent(fl.worker)) + sent
    && Contents(s', Queued(fl.worker)) == queue
  }

  lemma WriteOne(s: System, f: ProcessId)
    requires f in s.flushers && !s.flushers[f].failed && s.flushers[f].held != []
    ensures var fl := s.flushers[f];
            Enabled(s, FlushWrite(f, true))
            && Flushed(s, Apply(s, FlushWrite(f, true)), f, fl, fl.(held := fl.held[1..]), [fl.held[0]],
                       Contents(s, Queued(fl.worker)))
  {
  }

  lemma RestoreOne(s: System, f: ProcessId)
    requires f in s.flushers && s.flushers[f].failed && s.flushers[f].held != []
    requires |Contents(s, Queued(s.flushers[f].worker))| < 1000
    ensures var fl := s.flushers[f];
            Enabled(s, FlushRestore(f))
            && Flushed(s, Apply(s, FlushRestore(f)), f, fl, fl.(held := fl.held[1..]), [],
                       Contents(s, Queued(fl.worker)) + [fl.held[0]])
  {
  }

  lemma FlushedTwice(s: System, mid: System, end: System, f: ProcessId, fl: Flusher, fl': Flusher, fl'': Flusher,
                     a: seq<Envelope>, b: seq<Envelope>, q: seq<Envelope>, q': seq<Envelope>)
    requires Flushed(s, mid, f, fl, fl', a, q) && Flushed(mid, end, f, fl', fl'', b, q') && fl.worker == fl'.worker
    ensures Flushed(s, end, f, fl, fl'', a + b, q')
  {
  }

  lemma NothingFlushed(s: System, f: ProcessId)
    requires f in s.flushers
    ensures Flushed(s, s, f, s.flushers[f], s.flushers[f], [], Contents(s, Queued(s.flushers[f].worker)))
  {
  }

  lemma {:induction false} WriteMany(s: System, f: ProcessId, n: nat) returns (steps: seq<Step>)
    requires f in s.flushers && !s.flushers[f].failed && n <= |s.flushers[f].held|
    ensures Runs(s, steps)
    ensures var fl := s.flushers[f];
            Flushed(s, Exec(s, steps), f, fl, fl.(held := fl.held[n..]), fl.held[..n], Contents(s, Queued(fl.worker)))
    decreases n
  {
    var fl := s.flushers[f];
    if n == 0 {
      steps := [];
      NothingFlushed(s, f);
      assert fl.held[0..] == fl.held && fl.held[..0] == [];
    } else {
      var s1 := Apply(s, FlushWrite(f, true));
      WriteOne(s, f);
      var rest := WriteMany(s1, f, n - 1);
      steps := [FlushWrite(f, true)] + rest;
      OneStep(s, FlushWrite(f, true));
      RunsSum(s, [FlushWrite(f, true)], rest);
      assert fl.held[1..][n - 1..] == fl.held[n..] && [fl.held[0]] + fl.held[1..][..n - 1] == fl.held[..n];
      FlushedTwice(s, s1, Exec(s1, rest), f, fl, s1.flushers[f], fl.(held := fl.held[n..]),
                   [fl.held[0]], fl.held[1..][..n - 1], Contents(s, Queued(fl.worker)), Contents(s, Queued(fl.worker)));
    }
  }

  lemma {:induction false} RestoreMany(s: System, f: ProcessId) returns (steps: seq<Step>)
    requires f in s.flushers && s.flushers[f].failed
    requires |Contents(s, Queued(s.flushers[f].worker))| + |s.flushers[f].held| <= 1000
    ensures Runs(s, steps)
    ensures var fl := s.flushers[f];
            Flushed(s, Exec(s, steps), f, fl, fl.(held := []), [], Contents(s, Queued(fl.worker)) + fl.held)
    decreases |s.flushers[f].held|
  {
    var fl := s.flushers[f];
    var queue := Contents(s, Queued(fl.worker));
    if fl.held == [] {
      steps := [];
      NothingFlushed(s, f);
      assert queue + fl.held == queue;
    } else {
      var s1 := Apply(s, FlushRestore(f));
      RestoreOne(s, f);
      var rest := RestoreMany(s1, f);
      steps := [FlushRestore(f)] + rest;
      OneStep(s, FlushRestore(f));
      RunsSum(s, [FlushRestore(f)], rest);
      assert queue + [fl.held[0]] + fl.held[1..] == queue + fl.held;
      FlushedTwice(s, s1, Exec(s1, rest), f, fl, s1.flushers[f], fl.(held := []),
                   [], [], queue + [fl.held[0]], queue + fl.held);
    }
  }

  lemma FailAndRestore(s: System, f: ProcessId) returns (steps: seq<Step>)
    requires f in s.flushers && !s.flushers[f].failed && s.flushers[f].held != []
    requires Contents(s, Queued(s.flushers[f].worker)) == [] && |s.flushers[f].held| <= 1000
    ensures Runs(s, steps)
    ensures var fl := s.flushers[f];
            Flushed(s, Exec(s, steps), f, fl, Flusher(fl.worker, [], true), [], fl.held)
  {
    var fl := s.flushers[f];
    var s1 := Apply(s, FlushWrite(f, false));
    OneStep(s, FlushWrite(f, false));
    var rest := RestoreMany(s1, f);
    RunsSum(s, [FlushWrite(f, false)], rest);
    steps := [FlushWrite(f, false)] + rest;
    assert [] + fl.held == fl.held;
  }

  /** What a whole flush does, when n of the queue's messages could be written. */
  ghost predicate WholeFlush(s: System, s': System, f: ProcessId, w: WorkerId, n: nat)
    requires n <= |Contents(s, Queued(w))|
  {
    var queue := Contents(s, Queued(w));
    && OnlyFlush(s, s', f, w)
    && Contents(s', Sent(w)) == Contents(s, Sent(w)) + queue[..n]
    && Contents(s', Queued(w)) == queue[n..]
  }

  /** Alone, a flush that can write n messages before a write fails has sent the first n of the
      queue to the session, in order, and the queue is exactly the rest. */
  lemma FlushAlone(s: System, f: ProcessId, w: WorkerId, n: nat) returns (steps: seq<Step>)
    requires Reachable(s) && f !in s.flushers && n <= |Contents(s, Queued(w))|
    ensures Runs(s, steps) && f !in Exec(s, steps).flushers && WholeFlush(s, Exec(s, steps), f, w, n)
  {
    EvictionOnlyFromAFullQueue(s, Connect(w), w);
    var s1 := Apply(s, TakeQueue(f, w));
    OneStep(s, TakeQueue(f, w));
    TakeAlone(s, f, w);
    var rest := FlushTaken(s1, f, n);
    RunsSum(s, [TakeQueue(f, w)], rest);
    steps := [TakeQueue(f, w)] + rest;
    var s2 := Exec(s, steps);
    OneStep(s2, FlushEnd(f));
    RunsSum(s, steps, [FlushEnd(f)]);
    steps := steps + [FlushEnd(f)];
    EndAlone(s, s1, s2, f, w, n);
  }

  lemma TakeAlone(s: System, f: ProcessId, w: WorkerId)
    requires f !in s.flushers
    ensures var s' := Apply(s, TakeQueue(f, w));
            && OnlyFlush(s, s', f, w) && f in s'.flushers && s'.flushers[f] == Flusher(w, Contents(s, Queued(w)), false)
            && Contents(s', Sent(w)) == Contents(s, Sent(w)) && Contents(s', Queued(w)) == []
  {
  }

  lemma EndAlone(s: System, s1: System, s2: System, f: ProcessId, w: WorkerId, n: nat)
    requires f !in s.flushers && n <= |Contents(s, Queued(w))| && OnlyFlush(s, s1, f, w)
    requires Contents(s1, Sent(w)) == Contents(s, Sent(w))
    requires var queue := Contents(s, Queued(w));
             Flushed(s1, s2, f, Flusher(w, queue, false), Flusher(w, [], n < |queue|), queue[..n], queue[n..])
    ensures f !in Apply(s2, FlushEnd(f)).flushers && WholeFlush(s, Apply(s2, FlushEnd(f)), f, w, n)
  {
  }

  lemma FlushTaken(s: System, f: ProcessId, n: nat) returns (steps: seq<Step>)
    requires f in s.flushers && !s.flushers[f].failed && n <= |s.flushers[f].held| <= 1000
    requires Contents(s, Queued(s.flushers[f].worker)) == []
    ensures Runs(s, steps)
    ensures var fl := s.flushers[f];
            Flushed(s, Exec(s, steps), f, fl, Flusher(fl.worker, [], n < |fl.held|), fl.held[..n], fl.held[n..])
  {
    var fl := s.flushers[f];
    steps := WriteMany(s, f, n);
    if n < |fl.held| {
      var s1 := Exec(s, steps);
      var rest := FailAndRestore(s1, f);
      RunsSum(s, steps, rest);
      FlushedTwice(s, s1, Exec(s1, rest), f, fl, s1.flushers[f], Flusher(fl.worker, [], true),
                   fl.held[..n], [], [], fl.held[n..]);
      assert fl.held[..n] + [] == fl.held[..n];
      steps := steps + rest;
    }
  }

  // ---------------------------------------------------------------------------------------
  // One poll
  // ---------------------------------------------------------------------------------------

  /** A poll that asks for n messages above `last` hands out `out`, leaves `left` and discards
      `gone` of the queue. */
  ghost predicate Polling(queue: seq<Envelope>, last: nat, n: nat,
                          out: seq<Envelope>, left: seq<Envelope>, gone: seq<Envelope>) {
    && Subsequence(out + left, queue)
    && multiset(out) + multiset(left) + multiset(gone) == multiset(queue)
    && (forall e | e in out + left :: e.seqno > last) && (forall e | e in gone :: e.seqno <= last)
    && |out| <= n && (left != [] ==> |out| == n)
  }

  /** The places of the polling worker, and no other, change: it is given the first messages above
      the number it passes, 100 when it does not say how many and never more than 1000. */
  lemma PollAlone(s: System, w: WorkerId, last: nat, requested: int) returns (out: seq<Envelope>, gone: seq<Envelope>)
    ensures Enabled(s, PollQueue(w, last, requested))
    ensures var s' := Apply(s, PollQueue(w, last, requested));
            var n := if requested <= 0 then 100 else if requested > 1000 then 1000 else requested;
            && Polling(Contents(s, Queued(w)), last, n, out, Contents(s', Queued(w)), gone)
            && Contents(s', Polled(w)) == Contents(s, Polled(w)) + out
            && Contents(s', Skipped(w)) == Contents(s, Skipped(w)) + gone
            && (forall at: Place | at !in {Queued(w), Polled(w), Skipped(w)} :: Contents(s', at) == Contents(s, at))
  {
    var step := PollQueue(w, last, requested);
    var queue, n := Contents(s, Queued(w)), BatchSize(requested);
    out, gone := Batch(queue, last, n), UpTo(queue, last);
    PollKeepsTheQueue(queue, last, n);
    forall at: Place
      ensures at !in {Queued(w), Polled(w), Skipped(w)} ==> Contents(Apply(s, step), at) == Contents(s, at)
    {
      PollContents(s, step, at);
    }
    PollContents(s, step, Queued(w));
    PollContents(s, step, Polled(w));
    PollContents(s, step, Skipped(w));
  }

  // ---------------------------------------------------------------------------------------
  // What a dispatch has seen
  // ---------------------------------------------------------------------------------------

  /** The worker's last connect or disconnect was a connect. */
  predicate Online(steps: seq<Step>, w: WorkerId) {
    if steps == [] then false
    else
      match steps[|steps| - 1]
      case Connect(v) => v == w || Online(steps[..|steps| - 1], w)
      case Disconnect(v) => v != w && Online(steps[..|steps| - 1], w)
      case _ => Online(steps[..|steps| - 1], w)
  }

  lemma {:induction false} RunsInit(s: System, steps: seq<Step>, k: nat)
    requires Runs(s, steps) && k <= |steps|
    ensures Runs(s, steps[..k]) && Runs(Exec(s, steps[..k]), steps[k..])
    ensures Exec(Exec(s, steps[..k]), steps[k..]) == Exec(s, steps)
    decreases k
  {
    if k > 0 {
      RunsInit(Apply(s, steps[0]), steps[1..], k - 1);
      assert steps[..k][1..] == steps[1..][..k - 1] && steps[1..][k - 1..] == steps[k..];
    } else {
      assert steps[..0] == [] && steps[0..] == steps;
    }
  }

  lemma LastStep(s: System, steps: seq<Step>) returns (before: System)
    requires Runs(s, steps) && steps != []
    ensures Runs(s, steps[..|steps| - 1]) && before == Exec(s, steps[..|steps| - 1])
    ensures Enabled(before, steps[|steps| - 1]) && Exec(s, steps) == Apply(before, steps[|steps| - 1])
  {
    var n := |steps| - 1;
    RunsInit(s, steps, n);
    before := Exec(s, steps[..n]);
    assert steps[n..] == [steps[n]] && [steps[n]][1..] == [];
  }

  /** Sessions are those of the workers that are online. */
  lemma {:induction false} ConnectedIsOnline(steps: seq<Step>, w: WorkerId)
    requires Runs(START, steps)
    ensures w in Exec(START, steps).connected <==> Online(steps, w)
    decreases |steps|
  {
    if steps != [] {
      var before := LastStep(START, steps);
      ConnectedIsOnline(steps[..|steps| - 1], w);
    }
  }

  predicate IsOf(step: Step, p: ProcessId) {
    match step
    case Issue(q, _, _, _) => q == p
    case LookUpSession(q) => q == p
    case Write(q, _) => q == p
    case Requeue(q) => q == p
    case _ => false
  }

  /** The last step of dispatch p was step k. */
  ghost predicate LastOf(steps: seq<Step>, p: ProcessId, k: nat) {
    k < |steps| && IsOf(steps[k], p) && forall j | k < j < |steps| :: !IsOf(steps[j], p)
  }

  ghost predicate SawSession(steps: seq<Step>, p: ProcessId, w: WorkerId, k: nat) {
    LastOf(steps, p, k) && steps[k] == LookUpSession(p) && Online(steps[..k], w)
  }

  ghost predicate SawNone(steps: seq<Step>, p: ProcessId, w: WorkerId, k: nat) {
    LastOf(steps, p, k) && (steps[k] == Write(p, false) || (steps[k] == LookUpSession(p) && !Online(steps[..k], w)))
  }

  lemma SawLonger(steps: seq<Step>, p: ProcessId, w: WorkerId, k: nat)
    requires steps != [] && !IsOf(steps[|steps| - 1], p)
    ensures SawSession(steps[..|steps| - 1], p, w, k) ==> SawSession(steps, p, w, k)
    ensures SawNone(steps[..|steps| - 1], p, w, k) ==> SawNone(steps, p, w, k)
  {
    var init := steps[..|steps| - 1];
    if k < |init| {
      assert init[..k] == steps[..k] && init[k] == steps[k];
      assert forall j | k < j < |init| :: init[j] == steps[j];
    }
  }

  /** In every interleaving, a dispatch about to write last looked for a session when its worker
      was online; one about to queue its envelope last found the worker offline, or its write
      failed. */
  lemma {:induction false} DispatchSawWhy(steps: seq<Step>, p: ProcessId)
    requires Runs(START, steps) && p in Exec(START, steps).dispatchers
    ensures var d := Exec(START, steps).dispatchers[p];
            && (d.pc.Writing? ==> exists k: nat :: SawSession(steps, p, d.env.worker, k))
            && (d.pc.Requeueing? ==> exists k: nat :: SawNone(steps, p, d.env.worker, k))
    decreases |steps|
  {
    if steps != [] {
      var n := |steps| - 1;
      var before := LastStep(START, steps);
      if IsOf(steps[n], p) {
        assert LastOf(steps, p, n);
        if steps[n].LookUpSession? {
          var w := before.dispatchers[p].env.worker;
          ConnectedIsOnline(steps[..n], w);
          assert SawSession(steps, p, w, n) || SawNone(steps, p, w, n);
        } else if steps[n].Write? {
          assert SawNone(steps, p, before.dispatchers[p].env.worker, n);
        }
      } else {
        OthersLeaveIt(before, steps[n], p);
        DispatchSawWhy(steps[..n], p);
        var w := before.dispatchers[p].env.worker;
        if before.dispatchers[p].pc.Writing? {
          var k: nat :| SawSession(steps[..n], p, w, k);
          SawLonger(steps, p, w, k);
        } else if before.dispatchers[p].pc.Requeueing? {
          var k: nat :| SawNone(steps[..n], p, w, k);
          SawLonger(steps, p, w, k);
        }
      }
    }
  }

  lemma OthersLeaveIt(s: System, step: Step, p: ProcessId)
    requires Enabled(s, step) && !IsOf(step, p) && p in Apply(s, step).dispatchers
    ensures p in s.dispatchers && Apply(s, step).dispatchers[p] == s.dispatchers[p]
  {
  }
}

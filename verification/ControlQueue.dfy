/** The gateway's control queues (pkg/server/server.go): sequence numbers, the capped queue of
    each worker, the flush on connect and the poll. */
module ControlQueue {
  import opened Sequences

  type WorkerId = string
  type StreamId = string

  const MAX_QUEUE: nat := 1000
  const SEQ_LIMIT: nat := 0x1_0000_0000_0000_0000
  const DEFAULT_MESSAGES: nat := 100
  const MAX_MESSAGES: nat := 1000

  datatype Command = Run | Cancel(reason: string)

  /** `ticket` is bookkeeping that no operation reads: how many dispatches there had been, with
      this one. The number on the wire is its last 64 bits. */
  datatype Envelope = Envelope(worker: WorkerId, stream: StreamId, seqno: nat, command: Command, ticket: nat)

  /** Append at the back; whatever no longer fits falls off the front. */
  function Enqueue(queue: seq<Envelope>, env: Envelope): seq<Envelope> {
    KeepLast(queue + [env], MAX_QUEUE)
  }

  /** The queue with the message at its back, or the newest 1000 of it. */
  lemma EnqueueWrittenOut(queue: seq<Envelope>, env: Envelope)
    ensures Enqueue(queue, env) ==
            if |queue| < 1000 then queue + [env] else (queue + [env])[|queue| - 999..]
  {
  }

  function EnqueueAll(queue: seq<Envelope>, envs: seq<Envelope>): seq<Envelope>
    decreases |envs|
  {
    if envs == [] then queue else EnqueueAll(Enqueue(queue, envs[0]), envs[1..])
  }

  /** The batch size a poll asks for, after defaulting and clamping. */
  function BatchSize(requested: int): (n: nat)
    ensures 1 <= requested <= 1000 ==> n == requested
    ensures requested <= 0 ==> n == 100
    ensures requested > 1000 ==> n == 1000
  {
    if requested <= 0 then DEFAULT_MESSAGES else if requested > MAX_MESSAGES then MAX_MESSAGES else requested
  }

  /** The messages a poll with this LastSeq may still return, in queue order. */
  function Above(queue: seq<Envelope>, last: nat): seq<Envelope> {
    if queue == [] then []
    else if queue[0].seqno > last then [queue[0]] + Above(queue[1..], last)
    else Above(queue[1..], last)
  }

  /** The messages it discards. */
  function UpTo(queue: seq<Envelope>, last: nat): seq<Envelope> {
    if queue == [] then []
    else if queue[0].seqno <= last then [queue[0]] + UpTo(queue[1..], last)
    else UpTo(queue[1..], last)
  }

  function Batch(queue: seq<Envelope>, last: nat, n: nat): seq<Envelope> {
    var live := Above(queue, last);
    if |live| <= n then live else live[..n]
  }

  function Remaining(queue: seq<Envelope>, last: nat, n: nat): seq<Envelope> {
    var live := Above(queue, last);
    if |live| <= n then [] else live[n..]
  }

  /** A poll splits the live part of the queue without changing its order. */
  lemma PollSplitsQueue(queue: seq<Envelope>, last: nat, n: nat)
    ensures Batch(queue, last, n) + Remaining(queue, last, n) == Above(queue, last)
    ensures |Batch(queue, last, n)| <= n
    ensures Remaining(queue, last, n) != [] ==> |Batch(queue, last, n)| == n
  {
  }

  /** Read against the queue itself, a poll neither loses nor invents a message: what it returns
      followed by what it leaves is a subsequence of the queue with exactly the messages above
      LastSeq, and the only ones gone are those at or below it. It returns as many as it may. */
  lemma PollKeepsTheQueue(queue: seq<Envelope>, last: nat, n: nat)
    ensures var out, left := Batch(queue, last, n), Remaining(queue, last, n);
            && Subsequence(out + left, queue)
            && multiset(out) + multiset(left) + multiset(UpTo(queue, last)) == multiset(queue)
            && (forall e | e in out + left :: e.seqno > last)
            && (forall e | e in UpTo(queue, last) :: e.seqno <= last)
            && |out| <= n && (left != [] ==> |out| == n)
  {
    PollSplitsQueue(queue, last, n);
    AboveIsSubsequence(queue, last);
    AboveAndUpTo(queue, last);
    assert multiset(Above(queue, last)) == multiset(Batch(queue, last, n)) + multiset(Remaining(queue, last, n));
  }

  lemma {:induction false} AboveIsSubsequence(queue: seq<Envelope>, last: nat)
    ensures Subsequence(Above(queue, last), queue)
    ensures forall e | e in Above(queue, last) :: e.seqno > last
    ensures forall e | e in UpTo(queue, last) :: e.seqno <= last
  {
    if queue != [] {
      AboveIsSubsequence(queue[1..], last);
      assert queue[0].seqno > last ==> Above(queue, last)[1..] == Above(queue[1..], last);
    }
  }

  lemma {:induction false} AboveAndUpTo(queue: seq<Envelope>, last: nat)
    ensures multiset(Above(queue, last)) + multiset(UpTo(queue, last)) == multiset(queue)
  {
    if queue != [] {
      AboveAndUpTo(queue[1..], last);
      assert queue == [queue[0]] + queue[1..];
    }
  }

  // ---------------------------------------------------------------------------------------
  // Draining a queue by polling with LastSeq set to the last received number
  // ---------------------------------------------------------------------------------------

  predicate Ascending(queue: seq<Envelope>) {
    forall i, j | 0 <= i < j < |queue| :: queue[i].seqno < queue[j].seqno
  }

  predicate AllAbove(queue: seq<Envelope>, last: nat) {
    forall i | 0 <= i < |queue| :: queue[i].seqno > last
  }

  lemma {:induction false} AboveKeepsEverything(queue: seq<Envelope>, last: nat)
    ensures AllAbove(queue, last) <==> Above(queue, last) == queue
    ensures |Above(queue, last)| <= |queue|
    ensures AllAbove(Above(queue, last), last)
  {
    if queue != [] {
      AboveKeepsEverything(queue[1..], last);
      if AllAbove(queue, last) {
        assert AllAbove(queue[1..], last);
        assert queue == [queue[0]] + queue[1..];
      }
      if Above(queue, last) == queue {
        assert queue[0].seqno > last;
        assert Above(queue, last)[1..] == Above(queue[1..], last);
        assert forall i | 0 < i < |queue| :: queue[i] == queue[1..][i - 1];
      }
    }
  }

  /** What a poller receives by polling until nothing is returned, each time with LastSeq set
      to the last number it received; one entry per poll that returned something. */
  function Drain(queue: seq<Envelope>, last: nat, n: nat): (polls: seq<seq<Envelope>>)
    requires n >= 1
    decreases |Above(queue, last)|
  {
    var batch := Batch(queue, last, n);
    if batch == [] then []
    else
      AboveKeepsEverything(Remaining(queue, last, n), batch[|batch| - 1].seqno);
      [batch] + Drain(Remaining(queue, last, n), batch[|batch| - 1].seqno, n)
  }

  function Flatten(polls: seq<seq<Envelope>>): seq<Envelope> {
    if polls == [] then [] else polls[0] + Flatten(polls[1..])
  }

  /** One poll of an ascending queue of unseen messages takes its front. */
  lemma FirstPoll(queue: seq<Envelope>, last: nat, n: nat) returns (k: nat, seen: nat)
    requires n >= 1 && Ascending(queue) && AllAbove(queue, last) && queue != []
    ensures 1 <= k <= |queue| && k == (if |queue| < n then |queue| else n)
    ensures Drain(queue, last, n) == [queue[..k]] + Drain(queue[k..], seen, n)
    ensures Ascending(queue[k..]) && AllAbove(queue[k..], seen)
  {
    AboveKeepsEverything(queue, last);
    k := if |queue| < n then |queue| else n;
    seen := queue[k - 1].seqno;
    AscendingSuffix(queue, k);
    var batch, rest := Batch(queue, last, n), Remaining(queue, last, n);
    assert batch == queue[..k];
    assert rest == queue[k..];
    assert batch[|batch| - 1].seqno == seen;
  }

  lemma AscendingSuffix(queue: seq<Envelope>, k: nat)
    requires Ascending(queue) && 1 <= k <= |queue|
    ensures Ascending(queue[k..]) && AllAbove(queue[k..], queue[k - 1].seqno)
  {
  }

  /** On an ascending queue of messages not yet seen, polling delivers every message exactly
      once and in order. */
  lemma {:induction false} AscendingQueueDrains(queue: seq<Envelope>, last: nat, n: nat)
    requires n >= 1 && Ascending(queue) && AllAbove(queue, last)
    ensures Flatten(Drain(queue, last, n)) == queue
    decreases |queue|
  {
    if queue != [] {
      var k, seen := FirstPoll(queue, last, n);
      AscendingQueueDrains(queue[k..], seen, n);
      FlattenSplit(queue, k, Drain(queue[k..], seen, n));
    }
  }

  lemma FlattenSplit(queue: seq<Envelope>, k: nat, rest: seq<seq<Envelope>>)
    requires k <= |queue| && Flatten(rest) == queue[k..]
    ensures Flatten([queue[..k]] + rest) == queue
  {
    FlattenCons(queue[..k], rest);
    assert queue[..k] + queue[k..] == queue;
  }

  lemma FlattenCons(first: seq<Envelope>, rest: seq<seq<Envelope>>)
    ensures Flatten([first] + rest) == first + Flatten(rest)
  {
    assert ([first] + rest)[1..] == rest;
  }

  /** It takes ceil(|queue| / n) polls: the least number of batches of n that holds the queue. */
  lemma {:induction false} AscendingQueuePolls(queue: seq<Envelope>, last: nat, n: nat)
    requires n >= 1 && Ascending(queue) && AllAbove(queue, last)
    ensures var polls := |Drain(queue, last, n)|;
            |queue| <= polls * n && (queue != [] ==> (polls - 1) * n < |queue|) && (queue == [] ==> polls == 0)
    decreases |queue|
  {
    AboveKeepsEverything(queue, last);
    if queue != [] {
      var k, seen := FirstPoll(queue, last, n);
      AscendingQueuePolls(queue[k..], seen, n);
      var others := |Drain(queue[k..], seen, n)|;
      assert (others + 1) * n == others * n + n;
      assert (others - 1) * n == others * n - n;
    }
  }

  /** Exactly the ascending queues of unseen messages drain without loss whatever the batch
      size: on any other queue a poller that asks for one message at a time loses some. */
  lemma DrainsForEveryBatchSizeIffAscending(queue: seq<Envelope>, last: nat)
    ensures (forall n: nat | n >= 1 :: Flatten(Drain(queue, last, n)) == queue) <==>
            Ascending(queue) && AllAbove(queue, last)
  {
    if Ascending(queue) && AllAbove(queue, last) {
      forall n: nat | n >= 1 ensures Flatten(Drain(queue, last, n)) == queue {
        AscendingQueueDrains(queue, last, n);
      }
    }
    SinglePollsOnlyAscend(queue, last);
    assert Flatten(Drain(queue, last, 1)) == queue ==> Ascending(queue) && AllAbove(queue, last);
  }

  /** Polling one at a time only ever yields rising numbers above LastSeq. */
  lemma {:induction false} SinglePollsOnlyAscend(queue: seq<Envelope>, last: nat)
    ensures var got := Flatten(Drain(queue, last, 1)); Ascending(got) && AllAbove(got, last)
    decreases |Above(queue, last)|
  {
    var batch, rest := Batch(queue, last, 1), Remaining(queue, last, 1);
    AboveKeepsEverything(queue, last);
    if batch != [] {
      var seen := batch[0].seqno;
      assert batch == [Above(queue, last)[0]];
      AboveKeepsEverything(rest, seen);
      SinglePollsOnlyAscend(rest, seen);
      FlattenCons(batch, Drain(rest, seen, 1));
    }
  }

  // ---------------------------------------------------------------------------------------
  // Restoring after a failed flush
  // ---------------------------------------------------------------------------------------

  /** Nothing is evicted while the queue has room. */
  lemma {:induction false} EnqueueAllFits(queue: seq<Envelope>, envs: seq<Envelope>)
    requires |queue| + |envs| <= MAX_QUEUE
    ensures EnqueueAll(queue, envs) == queue + envs
    decreases |envs|
  {
    if envs == [] {
      assert queue + envs == queue;
    } else {
      EnqueueAllFits(queue + [envs[0]], envs[1..]);
      assert queue + envs == queue + [envs[0]] + envs[1..];
    }
  }

  lemma {:induction false} EnqueueAllSnoc(queue: seq<Envelope>, envs: seq<Envelope>, env: Envelope)
    ensures EnqueueAll(queue, envs + [env]) == Enqueue(EnqueueAll(queue, envs), env)
    decreases |envs|
  {
    if envs == [] {
      assert (envs + [env])[1..] == [];
    } else {
      assert (envs + [env])[1..] == envs[1..] + [env];
      EnqueueAllSnoc(Enqueue(queue, envs[0]), envs[1..], env);
    }
  }

  /** One message put back: the restored part of the queue is longer by it. */
  lemma RestoreStep(before: map<WorkerId, seq<Envelope>>, after: map<WorkerId, seq<Envelope>>, w: WorkerId,
                    queue: seq<Envelope>, i: nat, j: nat)
    requires i <= j < |queue| && Lookup(before, w, []) == EnqueueAll([], queue[i..j])
    requires after == before[w := Enqueue(Lookup(before, w, []), queue[j])]
    ensures Lookup(after, w, []) == EnqueueAll([], queue[i..j + 1]) && after - {w} == before - {w}
  {
    assert queue[i..j + 1] == queue[i..j] + [queue[j]];
    EnqueueAllSnoc([], queue[i..j], queue[j]);
  }

  // ---------------------------------------------------------------------------------------
  // The operations, in place
  // ---------------------------------------------------------------------------------------

  class ControlPlane {
    var seqCounter: nat
    var issued: nat       // bookkeeping: dispatches so far
    var workerQueue: map<WorkerId, seq<Envelope>>

    ghost predicate Valid()
      reads this
    {
      seqCounter == issued % SEQ_LIMIT && forall w | w in workerQueue :: |workerQueue[w]| <= MAX_QUEUE
    }

    ghost function QueueOf(w: WorkerId): seq<Envelope>
      reads this
    {
      Lookup(workerQueue, w, [])
    }

    constructor ()
      ensures Valid() && seqCounter == 0 && issued == 0 && workerQueue == map[]
    {
      seqCounter, issued, workerQueue := 0, 0, map[];
    }

    /** uint64 addition: the counter wraps to 0 after its last value. */
    method NextSeq() returns (n: nat)
      requires Valid()
      modifies this`seqCounter, this`issued
      ensures Valid() && n == seqCounter == (old(seqCounter) + 1) % 0x1_0000_0000_0000_0000 && issued == old(issued) + 1
    {
      seqCounter, issued := (seqCounter + 1) % SEQ_LIMIT, issued + 1;
      n := seqCounter;
    }

    method EnqueueControl(w: WorkerId, env: Envelope)
      requires Valid()
      modifies this`workerQueue
      ensures Valid() && workerQueue == old(workerQueue)[w := Enqueue(Lookup(old(workerQueue), w, []), env)]
    {
      workerQueue := workerQueue[w := Lookup(workerQueue, w, []) + [env]];
      if |workerQueue[w]| > MAX_QUEUE {
        workerQueue := workerQueue[w := workerQueue[w][|workerQueue[w]| - MAX_QUEUE..]];
      }
    }

    /** A dispatch with no interference: written to the session if there is one and the write
        succeeds, queued otherwise; the error of a failed write is still reported. */
    method Dispatch(w: WorkerId, stream: StreamId, command: Command, connected: bool, writeOk: bool)
        returns (env: Envelope, written: bool, failed: bool)
      requires Valid()
      modifies this
      ensures Valid() && seqCounter == (old(seqCounter) + 1) % 0x1_0000_0000_0000_0000 && issued == old(issued) + 1
      ensures env == Envelope(w, stream, seqCounter, command, issued)
      ensures written <==> connected && writeOk
      ensures failed <==> connected && !writeOk
      ensures written ==> workerQueue == old(workerQueue)
      ensures !written ==> workerQueue == old(workerQueue)[w := Enqueue(Lookup(old(workerQueue), w, []), env)]
    {
      var n := NextSeq();
      env := Envelope(w, stream, n, command, issued);
      written, failed := false, false;
      if !connected {
        EnqueueControl(w, env);
        return;
      }
      if !writeOk {
        EnqueueControl(w, env);
        failed := true;
        return;
      }
      written := true;
    }

    /** Takes the whole queue, then writes it out; write number `failAt` is the one that fails.
        The messages before it are written, it and all after it are back in the queue, in order. */
    method FlushWorkerQueue(w: WorkerId, failAt: nat) returns (written: seq<Envelope>)
      requires Valid()
      modifies this`workerQueue
      ensures var queue := Lookup(old(workerQueue), w, []);
              && written == (if failAt < |queue| then queue[..failAt] else queue)
              && QueueOf(w) == queue[|written|..]
              && workerQueue - {w} == old(workerQueue) - {w}
      ensures Valid()
    {
      var queue := Lookup(workerQueue, w, []);
      workerQueue := workerQueue - {w};
      written := [];
      var i := 0;
      while i < |queue|
        invariant 0 <= i <= |queue| && i <= failAt
        invariant written == queue[..i]
        invariant workerQueue == old(workerQueue) - {w}
      {
        if i == failAt {
          var j := i;
          while j < |queue|
            invariant i <= j <= |queue|
            invariant Valid() && QueueOf(w) == EnqueueAll([], queue[i..j])
            invariant workerQueue - {w} == old(workerQueue) - {w}
          {
            ghost var before := workerQueue;
            EnqueueControl(w, queue[j]);
            RestoreStep(before, workerQueue, w, queue, i, j);
            j := j + 1;
          }
          assert queue[i..j] == queue[i..];
          EnqueueAllFits([], queue[i..]);
          return;
        }
        written := written + [queue[i]];
        i := i + 1;
      }
    }

    method Poll(w: WorkerId, last: nat, requested: int) returns (out: seq<Envelope>)
      requires Valid()
      modifies this`workerQueue
      ensures out == Batch(Lookup(old(workerQueue), w, []), last, BatchSize(requested))
      ensures workerQueue ==
              old(workerQueue)[w := Remaining(Lookup(old(workerQueue), w, []), last, BatchSize(requested))]
      ensures Valid()
    {
      var max := requested;
      if max <= 0 {
        max := DEFAULT_MESSAGES;
      }
      if max > MAX_MESSAGES {
        max := MAX_MESSAGES;
      }
      var queue := Lookup(workerQueue, w, []);
      out := [];
      var remaining: seq<Envelope> := [];
      var i := 0;
      while i < |queue|
        invariant 0 <= i <= |queue|
        invariant workerQueue == old(workerQueue)
        invariant out + remaining == Above(queue[..i], last)
        invariant |out| <= max && (remaining != [] ==> |out| == max)
      {
        var env := queue[i];
        AboveSnoc(queue, last, i);
        i := i + 1;
        if env.seqno <= last {
          continue;
        }
        if |out| < max {
          assert remaining == [];
          out := out + [env];
          continue;
        }
        assert out + (remaining + [env]) == out + remaining + [env];
        remaining := remaining + [env];
      }
      assert queue[..i] == queue;
      CutIsPoll(queue, last, max, out, remaining);
      AboveKeepsEverything(queue, last);
      workerQueue := workerQueue[w := remaining];
    }
  }

  /** A cut of the live messages whose first part is as long as it may be is the poll's cut. */
  lemma CutIsPoll(queue: seq<Envelope>, last: nat, n: nat, out: seq<Envelope>, rest: seq<Envelope>)
    requires out + rest == Above(queue, last) && |out| <= n && (rest != [] ==> |out| == n)
    ensures out == Batch(queue, last, n) && rest == Remaining(queue, last, n)
  {
    var live := Above(queue, last);
    assert live[..|out|] == out && live[|out|..] == rest;
  }

  lemma AboveSnoc(queue: seq<Envelope>, last: nat, i: nat)
    requires i < |queue|
    ensures Above(queue[..i + 1], last) ==
            if queue[i].seqno > last then Above(queue[..i], last) + [queue[i]] else Above(queue[..i], last)
  {
    assert queue[..i + 1] == queue[..i] + [queue[i]];
    AboveOfSum(queue[..i], [queue[i]], last);
  }

  lemma {:induction false} AboveOfSum(a: seq<Envelope>, b: seq<Envelope>, last: nat)
    ensures Above(a + b, last) == Above(a, last) + Above(b, last)
  {
    if a == [] {
      assert a + b == b;
    } else {
      assert (a + b)[0] == a[0] && (a + b)[1..] == a[1..] + b;
      AboveOfSum(a[1..], b, last);
    }
  }
}

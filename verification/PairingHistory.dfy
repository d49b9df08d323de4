/** Whole histories of the worker configuration store: any sequence of operations, each of
    which may be cut off between two file writes. */
module PairingHistory {
  import opened Sequences
  import opened TokenStore

  datatype Op =
    | DoCreate(id: RequestId, code: string, secret: Token, labels: seq<string>, readable: bool, writes: nat)
    | DoPoll(id: RequestId, secret: Token, writes: nat)
    | DoApprove(id: RequestId, worker: WorkerId, token: Token, indexReadable: bool, writes: nat)
    | DoApproveCode(code: string, worker: WorkerId, token: Token, indexReadable: bool, writes: nat)
    | DoReject(id: RequestId, writes: nat)
    | DoRotate(worker: WorkerId, token: Token, writes: nat)
    | DoDelete(worker: WorkerId, indexWritten: bool, recordRemoved: bool)

  datatype Step = Step(now: Seconds, op: Op)

  /** The disk and the clock; then bookkeeping no operation reads: when each request id was
      opened, the tokens and worker ids generated so far, the worker each worker token was
      made for, the request each worker was enrolled for, and the workers whose credential was
      rotated, deleted or lost since. */
  datatype World = World(
    disk: Disk,
    clock: Seconds,
    openedAt: map<RequestId, Seconds>,
    tokens: set<Token>,
    owner: map<Token, WorkerId>,
    enrolledFor: map<WorkerId, RequestId>,
    disturbed: set<WorkerId>)

  const START := World(EMPTY_DISK, 0, map[], {""}, map[], map[], {})

  /** Generated ids, secrets and tokens are new; the clock does not go back. */
  predicate Enabled(w: World, step: Step) {
    && w.clock <= step.now
    && match step.op
       case DoCreate(id, _, secret, _, _, _) => id !in w.openedAt && secret !in w.tokens
       case DoApprove(_, worker, token, _, _) => NewWorker(w, worker) && token !in w.tokens
       case DoApproveCode(_, worker, token, _, _) => NewWorker(w, worker) && token !in w.tokens
       case DoRotate(_, token, _) => token !in w.tokens
       case _ => true
  }

  predicate NewWorker(w: World, worker: WorkerId) {
    worker != "" && worker !in w.enrolledFor
  }

  function Perform(d: Disk, step: Step): (Disk, Reply) {
    match step.op
    case DoCreate(id, code, secret, labels, readable, writes) =>
      Create(d, id, code, secret, labels, step.now, readable, writes)
    case DoPoll(id, secret, writes) => Poll(d, id, secret, step.now, writes)
    case DoApprove(id, worker, token, readable, writes) => ApproveById(d, id, worker, token, step.now, readable, writes)
    case DoApproveCode(code, worker, token, readable, writes) =>
      ApproveByCode(d, code, worker, token, step.now, readable, writes)
    case DoReject(id, writes) => Reject(d, id, writes)
    case DoRotate(worker, token, writes) => Rotate(d, worker, token, step.now, writes)
    case DoDelete(worker, indexWritten, recordRemoved) => Delete(d, worker, indexWritten, recordRemoved)
  }

  /** The position of the request this step enrolls a worker for, if it gets as far as the
      first write. */
  function Enrolls(d: Disk, step: Step): Option<nat> {
    match step.op
    case DoApprove(id, _, _, _, writes) =>
      var k := FindId(d.requests, id);
      if k < |d.requests| && d.requests[k].expiresAt >= step.now && !d.requests[k].status.Approved? && writes >= 1
      then Some(k) else None
    case DoApproveCode(code, _, _, _, writes) =>
      var k := FindCode(d.requests, code);
      if k < |d.requests| && d.requests[k].expiresAt >= step.now && d.requests[k].status.Pending? && writes >= 1
      then Some(k) else None
    case _ => None
  }

  function Apply(w: World, step: Step): World {
    var k := Enrolls(w.disk, step);
    var w1 := w.(disk := Perform(w.disk, step).0, clock := step.now);
    match step.op
    case DoCreate(id, _, secret, _, _, _) => w1.(openedAt := w.openedAt[id := step.now], tokens := w.tokens + {secret})
    case DoApprove(_, worker, token, readable, writes) => Enrolled(w, w1, k, worker, token, readable, writes)
    case DoApproveCode(_, worker, token, readable, writes) => Enrolled(w, w1, k, worker, token, readable, writes)
    case DoRotate(worker, token, _) =>
      w1.(tokens := w.tokens + {token}, owner := w.owner[token := worker], disturbed := Disturbed(w, step))
    case DoDelete(_, _, _) => w1.(disturbed := Disturbed(w, step))
    case _ => w1
  }

  /** The workers whose credential a rotate or a delete has touched by now. */
  function Disturbed(w: World, step: Step): set<WorkerId> {
    match step.op
    case DoRotate(worker, _, writes) => if writes >= 1 then w.disturbed + {worker} else w.disturbed
    case DoDelete(worker, indexWritten, recordRemoved) =>
      if indexWritten || recordRemoved then w.disturbed + {worker} else w.disturbed
    case _ => w.disturbed
  }

  function Enrolled(w: World, w1: World, k: Option<nat>, worker: WorkerId,
        token: Token, readable: bool, writes: nat): World
  {
    if k.None? || k.value >= |w.disk.requests| then w1.(tokens := w.tokens + {token})
    else
      w1.(tokens := w.tokens + {token},
          owner := w.owner[token := worker],
          enrolledFor := w.enrolledFor[worker := w.disk.requests[k.value].id],
          disturbed := if !readable && writes >= 2 then w.disturbed + w.enrolledFor.Keys else w.disturbed)
  }

  predicate Runs(w: World, steps: seq<Step>)
    decreases |steps|
  {
    steps == [] || (Enabled(w, steps[0]) && Runs(Apply(w, steps[0]), steps[1..]))
  }

  function Exec(w: World, steps: seq<Step>): World
    requires Runs(w, steps)
    decreases |steps|
  {
    if steps == [] then w else Exec(Apply(w, steps[0]), steps[1..])
  }

  ghost predicate Reachable(w: World) {
    exists steps :: Runs(START, steps) && Exec(START, steps) == w
  }

  // ---------------------------------------------------------------------------------------
  // Revocation needs no invariant: acceptance can only begin when a token is generated
  // ---------------------------------------------------------------------------------------

  /** Operations on requests alone touch neither records nor index. */
  lemma RequestOpsKeepCredentials(d: Disk, step: Step)
    requires step.op.DoCreate? || step.op.DoPoll? || step.op.DoReject?
    ensures Perform(d, step).0.records == d.records && Perform(d, step).0.index == d.index
  {
  }

  /** An approval either changes nothing or enrolls the request it found. */
  lemma ApprovalEnrolls(d: Disk, step: Step)
    requires step.op.DoApprove? || step.op.DoApproveCode?
    ensures Enrolls(d, step).None? ==> Perform(d, step).0 == d
    ensures Enrolls(d, step).Some? ==> Enrolls(d, step).value < |d.requests| && step.op.writes >= 1
    ensures Enrolls(d, step).Some? ==>
              Perform(d, step) == Enroll(d, Enrolls(d, step).value, step.op.worker,
                                       step.op.token, step.now, step.op.indexReadable, step.op.writes)
  {
  }

  lemma EnrollAcceptsOnlyNew(d: Disk, k: nat, worker: WorkerId, token: Token, now: Seconds,
        readable: bool, writes: nat, t: Token)
    requires k < |d.requests| && t != token && Accepts(Enroll(d, k, worker, token, now, readable, writes).0, t)
    ensures Accepts(d, t)
  {
  }

  lemma RotateAcceptsOnlyNew(d: Disk, worker: WorkerId, token: Token, now: Seconds, writes: nat, t: Token)
    requires t != token && Accepts(Rotate(d, worker, token, now, writes).0, t)
    ensures Accepts(d, t)
  {
  }

  lemma DeleteAcceptsNothingNew(d: Disk, worker: WorkerId, indexWritten: bool, recordRemoved: bool, t: Token)
    requires Accepts(Delete(d, worker, indexWritten, recordRemoved).0, t)
    ensures Accepts(d, t)
  {
  }

  lemma RejectedStaysRejectedStep(w: World, step: Step, t: Token)
    requires Enabled(w, step) && t in w.tokens && !Accepts(w.disk, t)
    ensures !Accepts(Apply(w, step).disk, t) && t in Apply(w, step).tokens
  {
    TokensGrow(w, step);
    if Accepts(Perform(w.disk, step).0, t) {
      match step.op
      case DoApprove(_, worker, token, readable, writes) =>
        ApprovalEnrolls(w.disk, step);
        EnrollAcceptsOnlyNew(w.disk, Enrolls(w.disk, step).value, worker, token, step.now, readable, writes, t);
      case DoApproveCode(_, worker, token, readable, writes) =>
        ApprovalEnrolls(w.disk, step);
        EnrollAcceptsOnlyNew(w.disk, Enrolls(w.disk, step).value, worker, token, step.now, readable, writes, t);
      case DoRotate(worker, token, writes) => RotateAcceptsOnlyNew(w.disk, worker, token, step.now, writes, t);
      case DoDelete(worker, i, r) => DeleteAcceptsNothingNew(w.disk, worker, i, r, t);
      case _ => RequestOpsKeepCredentials(w.disk, step);
    }
  }

  lemma TokensGrow(w: World, step: Step)
    ensures w.tokens <= Apply(w, step).tokens
    ensures Apply(w, step).disk == Perform(w.disk, step).0
  {
  }

  /** A token that exists and is not accepted is never accepted again, whatever happens next,
      crashes and unreadable files included. */
  lemma {:induction false} RejectedStaysRejected(w: World, steps: seq<Step>, t: Token)
    requires Runs(w, steps) && t in w.tokens && !Accepts(w.disk, t)
    ensures !Accepts(Exec(w, steps).disk, t)
    decreases |steps|
  {
    if steps != [] {
      RejectedStaysRejectedStep(w, steps[0], t);
      RejectedStaysRejected(Apply(w, steps[0]), steps[1..], t);
    }
  }

  /** The step takes effect on the worker's credential: at least one of its writes reached the disk. */
  predicate Revokes(step: Step, worker: WorkerId) {
    match step.op
    case DoRotate(v, _, writes) => v == worker && writes >= 1
    case DoDelete(v, indexWritten, recordRemoved) => v == worker && (indexWritten || recordRemoved)
    case _ => false
  }

  lemma RevokingStepRejects(w: World, step: Step, t: Token, worker: WorkerId)
    requires Enabled(w, step) && t in w.tokens && Revokes(step, worker)
    requires CredentialsOk(w) && Validate(w.disk, t) == Valid(worker)
    ensures !Accepts(Apply(w, step).disk, t)
  {
    TokensGrow(w, step);
  }

  // ---------------------------------------------------------------------------------------
  // Records and index
  // ---------------------------------------------------------------------------------------

  ghost predicate RecordOk(w: World, v: WorkerId)
    requires v in w.disk.records
  {
    var rec := w.disk.records[v];
    v in w.enrolledFor && rec.id == v && rec.hash.Sha? && rec.hash.preimage in w.tokens && rec.hash.preimage != ""
  }

  ghost predicate EntryOk(w: World, h: Hash)
    requires h in w.disk.index
  {
    h.Sha? && h.preimage in w.tokens && w.disk.index[h] in w.enrolledFor
  }

  /** Every hash belongs to one worker: no two records share one, and an index entry never names
      a worker other than the one whose record carries its hash. Crashes do not break this. */
  ghost predicate CredentialsOk(w: World) {
    && "" !in w.enrolledFor && "" in w.tokens
    && (forall v | v in w.disk.records :: RecordOk(w, v))
    && (forall h | h in w.disk.index :: EntryOk(w, h))
    && (forall v, u | v in w.disk.records && u in w.disk.records && w.disk.records[v].hash == w.disk.records[u].hash
               :: v == u)
    && (forall h, v | h in w.disk.index && v in w.disk.records && w.disk.records[v].hash == h :: w.disk.index[h] == v)
  }

  /** What an enrollment, whole or cut short, does to records and index. */
  ghost predicate Adds(w: World, w': World, worker: WorkerId, token: Token) {
    && w'.tokens == w.tokens + {token}
    && w'.enrolledFor.Keys == w.enrolledFor.Keys + {worker}
    && worker in w'.disk.records
    && w'.disk.records[worker].id == worker && w'.disk.records[worker].hash == Sha(token)
    && (forall v | v in w'.disk.records && v != worker ::
            v in w.disk.records && w'.disk.records[v] == w.disk.records[v])
    && (forall h | h in w'.disk.index ::
            if h == Sha(token) then w'.disk.index[h] == worker
            else h in w.disk.index && w'.disk.index[h] == w.disk.index[h])
  }

  lemma EnrollAdds(w: World, step: Step)
    requires CredentialsOk(w) && Enabled(w, step) && Enrolls(w.disk, step).Some?
    ensures Adds(w, Apply(w, step), step.op.worker, step.op.token)
  {
    ApprovalEnrolls(w.disk, step);
    TokensGrow(w, step);
    EnrollShape(w.disk, Enrolls(w.disk, step).value, step.op.worker, step.op.token,
                step.now, step.op.indexReadable, step.op.writes);
    assert forall h | h in w.disk.index :: EntryOk(w, h);
  }

  lemma EnrollShape(d: Disk, k: nat, worker: WorkerId, token: Token, now: Seconds, readable: bool, writes: nat)
    requires k < |d.requests| && writes >= 1
    ensures var d' := Enroll(d, k, worker, token, now, readable, writes).0;
            && worker in d'.records && d'.records[worker].id == worker && d'.records[worker].hash == Sha(token)
            && (forall v | v in d'.records && v != worker :: v in d.records && d'.records[v] == d.records[v])
            && (forall h | h in d'.index && h != Sha(token) :: h in d.index && d'.index[h] == d.index[h])
            && (Sha(token) !in d.index && Sha(token) in d'.index ==> d'.index[Sha(token)] == worker)
  {
  }

  lemma CredentialsAdd(w: World, w': World, worker: WorkerId, token: Token)
    requires CredentialsOk(w) && Adds(w, w', worker, token) && token !in w.tokens && NewWorker(w, worker)
    ensures CredentialsOk(w')
  {
    assert forall v | v in w.disk.records :: RecordOk(w, v);
    assert forall h | h in w.disk.index :: EntryOk(w, h);
    forall v | v in w'.disk.records ensures RecordOk(w', v) {
      assert v != worker ==> RecordOk(w, v);
    }
    forall h | h in w'.disk.index ensures EntryOk(w', h) {
      assert h != Sha(token) ==> EntryOk(w, h);
    }
  }

  lemma CredentialsEnroll(w: World, step: Step)
    requires CredentialsOk(w) && Enabled(w, step) && Enrolls(w.disk, step).Some?
    ensures CredentialsOk(Apply(w, step))
  {
    EnrollAdds(w, step);
    CredentialsAdd(w, Apply(w, step), step.op.worker, step.op.token);
  }

  lemma CredentialsRotate(w: World, step: Step)
    requires CredentialsOk(w) && Enabled(w, step) && step.op.DoRotate?
    ensures CredentialsOk(Apply(w, step))
  {
    if step.op.worker in w.disk.records && step.op.worker != "" {
      RotateSwaps(w, step);
      CredentialsSwap(w, Apply(w, step), step.op.worker, step.op.token);
    } else {
      CredentialsSame(w, Apply(w, step));
    }
  }

  /** What a rotation, whole or cut short, does to records and index. */
  ghost predicate Swaps(w: World, w': World, worker: WorkerId, token: Token) {
    && worker in w.disk.records && w'.disk.records.Keys == w.disk.records.Keys
    && w'.tokens == w.tokens + {token} && w'.enrolledFor == w.enrolledFor
    && (forall v | v in w.disk.records && v != worker :: w'.disk.records[v] == w.disk.records[v])
    && w'.disk.records[worker].id == w.disk.records[worker].id
    && (w'.disk.records[worker].hash == Sha(token) || w'.disk.records[worker].hash == w.disk.records[worker].hash)
    && (forall h | h in w'.disk.index ::
            if h == Sha(token) then w'.disk.index[h] == worker
            else h in w.disk.index && w'.disk.index[h] == w.disk.index[h])
  }

  lemma RotateSwaps(w: World, step: Step)
    requires CredentialsOk(w) && Enabled(w, step) && step.op.DoRotate?
    requires step.op.worker in w.disk.records && step.op.worker != ""
    ensures Swaps(w, Apply(w, step), step.op.worker, step.op.token)
  {
    assert forall h | h in w.disk.index :: EntryOk(w, h);
  }

  lemma CredentialsSwap(w: World, w': World, worker: WorkerId, token: Token)
    requires CredentialsOk(w) && Swaps(w, w', worker, token) && token !in w.tokens
    ensures CredentialsOk(w')
  {
    assert forall v | v in w.disk.records :: RecordOk(w, v);
    assert forall h | h in w.disk.index :: EntryOk(w, h);
    forall v | v in w'.disk.records ensures RecordOk(w', v) {
      assert RecordOk(w, v);
    }
    forall h | h in w'.disk.index ensures EntryOk(w', h) {
      assert h != Sha(token) ==> EntryOk(w, h);
    }
  }

  lemma CredentialsSame(w: World, w': World)
    requires CredentialsOk(w) && w'.disk.records == w.disk.records && w'.disk.index == w.disk.index
    requires w'.enrolledFor == w.enrolledFor && w.tokens <= w'.tokens
    ensures CredentialsOk(w')
  {
    forall v | v in w'.disk.records ensures RecordOk(w', v) {
      assert RecordOk(w, v);
    }
    forall h | h in w'.disk.index ensures EntryOk(w', h) {
      assert EntryOk(w, h);
    }
  }

  lemma CredentialsDelete(w: World, step: Step)
    requires CredentialsOk(w) && Enabled(w, step) && step.op.DoDelete?
    ensures CredentialsOk(Apply(w, step))
  {
    var w' := Apply(w, step);
    forall v | v in w'.disk.records ensures RecordOk(w', v) {
      assert RecordOk(w, v);
    }
    forall h | h in w'.disk.index ensures EntryOk(w', h) {
      assert EntryOk(w, h);
    }
  }

  lemma CredentialsElse(w: World, step: Step)
    requires CredentialsOk(w) && Enabled(w, step) && Enrolls(w.disk, step).None?
    requires !step.op.DoRotate? && !step.op.DoDelete?
    ensures CredentialsOk(Apply(w, step))
  {
    if step.op.DoApprove? || step.op.DoApproveCode? {
      ApprovalEnrolls(w.disk, step);
    } else {
      RequestOpsKeepCredentials(w.disk, step);
    }
    CredentialsSame(w, Apply(w, step));
  }

  lemma CredentialsStep(w: World, step: Step)
    requires CredentialsOk(w) && Enabled(w, step)
    ensures CredentialsOk(Apply(w, step))
  {
    if Enrolls(w.disk, step).Some? {
      CredentialsEnroll(w, step);
    } else if step.op.DoRotate? {
      CredentialsRotate(w, step);
    } else if step.op.DoDelete? {
      CredentialsDelete(w, step);
    } else {
      CredentialsElse(w, step);
    }
  }

  /** The credential of a worker other than those the step disturbs is answered as before. */
  lemma UndisturbedStep(w: World, step: Step, t: Token, v: WorkerId)
    requires CredentialsOk(w) && Enabled(w, step) && t in w.tokens
    requires Validate(w.disk, t) == Valid(v) && v !in Apply(w, step).disturbed
    ensures Validate(Apply(w, step).disk, t) == Valid(v)
  {
    var w' := Apply(w, step);
    assert RecordOk(w, w.disk.index[Sha(t)]) && EntryOk(w, Sha(t));
    if Enrolls(w.disk, step).Some? {
      EnrollKeepsOther(w, step, t, v);
    } else if step.op.DoApprove? || step.op.DoApproveCode? {
      ApprovalEnrolls(w.disk, step);
    } else if step.op.DoRotate? || step.op.DoDelete? {
      OtherWorkersUnaffected(w, step, t);
    } else {
      RequestOpsKeepCredentials(w.disk, step);
    }
  }

  lemma EnrollKeepsOther(w: World, step: Step, t: Token, v: WorkerId)
    requires CredentialsOk(w) && Enabled(w, step) && t in w.tokens && Enrolls(w.disk, step).Some?
    requires Validate(w.disk, t) == Valid(v) && v !in Apply(w, step).disturbed
    ensures Validate(Apply(w, step).disk, t) == Valid(v)
  {
    ApprovalEnrolls(w.disk, step);
    assert RecordOk(w, w.disk.index[Sha(t)]) && EntryOk(w, Sha(t));
  }

  /** Rotating or deleting one worker, even if cut off half-way, changes the answer for no
      token that was, or is afterwards, another worker's. */
  lemma OtherWorkersUnaffected(w: World, step: Step, t: Token)
    requires CredentialsOk(w) && Enabled(w, step) && t in w.tokens
    requires step.op.DoRotate? || step.op.DoDelete?
    ensures var before, after := Validate(w.disk, t), Validate(Apply(w, step).disk, t);
            && (before.Valid? && before.worker != step.op.worker ==> after == before)
            && (after.Valid? && after.worker != step.op.worker ==> before == after)
  {
    var before, after := Validate(w.disk, t), Validate(Apply(w, step).disk, t);
    var h := Sha(t);
    if h in w.disk.index && w.disk.index[h] in w.disk.records {
      assert RecordOk(w, w.disk.index[h]);
    }
    if step.op.worker in w.disk.records {
      assert RecordOk(w, step.op.worker);
    }
    if step.op.DoRotate? {
      RotateOther(w, step, t);
    }
  }

  lemma RotateOther(w: World, step: Step, t: Token)
    requires CredentialsOk(w) && Enabled(w, step) && t in w.tokens && step.op.DoRotate?
    ensures var before, after := Validate(w.disk, t), Validate(Apply(w, step).disk, t);
            && (before.Valid? && before.worker != step.op.worker ==> after == before)
            && (after.Valid? && after.worker != step.op.worker ==> before == after)
  {
    assert forall v | v in w.disk.records :: RecordOk(w, v);
  }

  // ---------------------------------------------------------------------------------------
  // Requests
  // ---------------------------------------------------------------------------------------

  ghost predicate RequestOk(w: World, r: Request) {
    && r.id in w.openedAt && r.createdAt == w.openedAt[r.id] && r.expiresAt == r.createdAt + PAIRING_TTL
    && (r.status.Pending? ==> r.token == "")
    && (r.status.Approved? ==> r.token != "")
    && (r.token != "" ==> TokenOk(w, r.token, r.id))
  }

  /** The token was made for a worker enrolled for this request, and it still validates to that
      worker unless the worker has been disturbed. */
  ghost predicate TokenOk(w: World, t: Token, id: RequestId) {
    && t in w.tokens && t in w.owner && w.owner[t] in w.enrolledFor && w.enrolledFor[w.owner[t]] == id
    && (w.owner[t] in w.disturbed || Validate(w.disk, t) == Valid(w.owner[t]))
  }

  ghost predicate IdsDistinct(rs: seq<Request>) {
    forall i, j | 0 <= i < j < |rs| :: rs[i].id != rs[j].id
  }

  ghost predicate RequestsOk(w: World) {
    IdsDistinct(w.disk.requests) && forall r | r in w.disk.requests :: RequestOk(w, r)
  }

  lemma {:induction false} UnexpiredIsPart(rs: seq<Request>, now: Seconds)
    ensures forall r | r in Unexpired(rs, now) :: r in rs && r.expiresAt > now
    ensures forall r | r in rs && r.expiresAt > now :: r in Unexpired(rs, now)
    ensures IdsDistinct(rs) ==> IdsDistinct(Unexpired(rs, now))
  {
    UnexpiredExactly(rs, now);
    if rs != [] && IdsDistinct(rs) {
      assert IdsDistinct(rs[1..]);
      UnexpiredIsPart(rs[1..], now);
      forall r | r in rs[1..] ensures r.id != rs[0].id {
        var j :| 0 <= j < |rs[1..]| && rs[1..][j] == r;
        assert rs[j + 1] == r;
      }
    }
  }

  /** Bookkeeping only grows, and keeps what it says. */
  lemma BooksGrow(w: World, step: Step)
    requires Enabled(w, step)
    ensures var w' := Apply(w, step);
            && (forall id | id in w.openedAt :: id in w'.openedAt && w'.openedAt[id] == w.openedAt[id])
            && (forall v | v in w.enrolledFor :: v in w'.enrolledFor && w'.enrolledFor[v] == w.enrolledFor[v])
            && (forall t | t in w.owner && t in w.tokens :: t in w'.owner && w'.owner[t] == w.owner[t])
            && w.disturbed <= w'.disturbed && w.tokens <= w'.tokens
  {
  }

  lemma TokenOkStep(w: World, step: Step, t: Token, id: RequestId)
    requires CredentialsOk(w) && Enabled(w, step) && TokenOk(w, t, id)
    ensures TokenOk(Apply(w, step), t, id)
  {
    BooksGrow(w, step);
    if w.owner[t] !in Apply(w, step).disturbed {
      UndisturbedStep(w, step, t, w.owner[t]);
    }
  }

  lemma RequestOkStep(w: World, step: Step, r: Request)
    requires CredentialsOk(w) && Enabled(w, step) && RequestOk(w, r)
    ensures RequestOk(Apply(w, step), r)
  {
    BooksGrow(w, step);
    if r.token != "" {
      TokenOkStep(w, step, r.token, r.id);
    }
  }

  lemma RequestsCreate(w: World, step: Step)
    requires CredentialsOk(w) && RequestsOk(w) && Enabled(w, step) && step.op.DoCreate?
    ensures RequestsOk(Apply(w, step))
  {
    var w' := Apply(w, step);
    var base := if step.op.readable then w.disk.requests else [];
    var added := NewRequest(step.op.id, step.op.code, step.op.secret, step.op.labels, step.now);
    UnexpiredIsPart(base, step.now);
    forall r | r in w'.disk.requests ensures RequestOk(w', r) {
      if r in w.disk.requests {
        RequestOkStep(w, step, r);
      }
    }
    assert forall r | r in w.disk.requests :: RequestOk(w, r) && r.id != step.op.id;
    if step.op.writes >= 1 {
      AppendDistinct(Unexpired(base, step.now), added);
    }
  }

  lemma AppendDistinct(rs: seq<Request>, r: Request)
    requires IdsDistinct(rs) && forall x | x in rs :: x.id != r.id
    ensures IdsDistinct(rs + [r])
  {
  }

  lemma RequestsPoll(w: World, step: Step)
    requires CredentialsOk(w) && RequestsOk(w) && Enabled(w, step) && step.op.DoPoll?
    ensures RequestsOk(Apply(w, step))
  {
    var w' := Apply(w, step);
    forall r | r in w'.disk.requests ensures RequestOk(w', r) {
      assert r in w.disk.requests;
      RequestOkStep(w, step, r);
    }
    RemoveDistinct(w.disk.requests, FindId(w.disk.requests, step.op.id));
  }

  lemma RemoveDistinct(rs: seq<Request>, k: nat)
    requires IdsDistinct(rs)
    ensures k < |rs| ==> IdsDistinct(rs[..k] + rs[k + 1..])
  {
    if k < |rs| {
      var cut := rs[..k] + rs[k + 1..];
      forall i, j | 0 <= i < j < |cut| ensures cut[i].id != cut[j].id {
        assert cut[i] == rs[if i < k then i else i + 1] && cut[j] == rs[if j < k then j else j + 1];
      }
    }
  }

  /** An update in place that keeps the id. */
  lemma UpdateDistinct(rs: seq<Request>, k: nat, r: Request)
    requires IdsDistinct(rs) && k < |rs| && r.id == rs[k].id
    ensures IdsDistinct(rs[k := r])
    ensures forall x | x in rs[k := r] :: x == r || x in rs
  {
  }

  lemma RequestsReject(w: World, step: Step)
    requires CredentialsOk(w) && RequestsOk(w) && Enabled(w, step) && step.op.DoReject?
    ensures RequestsOk(Apply(w, step))
  {
    var w' := Apply(w, step);
    var k := FindId(w.disk.requests, step.op.id);
    if k < |w.disk.requests| && step.op.writes >= 1 {
      var r := w.disk.requests[k].(status := Rejected);
      UpdateDistinct(w.disk.requests, k, r);
      assert w.disk.requests[k] in w.disk.requests;
    }
    forall r | r in w'.disk.requests ensures RequestOk(w', r) {
      if r in w.disk.requests {
        RequestOkStep(w, step, r);
      } else {
        RequestOkStep(w, step, w.disk.requests[k]);
      }
    }
  }

  lemma RequestsEnroll(w: World, step: Step)
    requires CredentialsOk(w) && RequestsOk(w) && Enabled(w, step) && Enrolls(w.disk, step).Some?
    ensures RequestsOk(Apply(w, step))
  {
    var w' := Apply(w, step);
    ApprovalEnrolls(w.disk, step);
    var k := Enrolls(w.disk, step).value;
    var was := w.disk.requests[k];
    var r' := was.(status := Approved, token := step.op.token);
    UpdateDistinct(w.disk.requests, k, r');
    assert was in w.disk.requests && RequestOk(w, was);
    forall r | r in w'.disk.requests ensures RequestOk(w', r) {
      if r in w.disk.requests {
        RequestOkStep(w, step, r);
      } else {
        assert r == r' && step.op.writes >= 3;
        BooksGrow(w, step);
        EnrolledTokenOk(w, step);
      }
    }
  }

  /** The new token validates at once: its record and index entry are on disk before the
      request says so. */
  lemma EnrolledTokenOk(w: World, step: Step)
    requires CredentialsOk(w) && Enabled(w, step) && Enrolls(w.disk, step).Some? && step.op.writes >= 2
    ensures TokenOk(Apply(w, step), step.op.token, w.disk.requests[Enrolls(w.disk, step).value].id)
    ensures Validate(Apply(w, step).disk, step.op.token) == Valid(step.op.worker)
  {
    ApprovalEnrolls(w.disk, step);
  }

  lemma RequestsStep(w: World, step: Step)
    requires CredentialsOk(w) && RequestsOk(w) && Enabled(w, step)
    ensures RequestsOk(Apply(w, step))
  {
    if Enrolls(w.disk, step).Some? {
      RequestsEnroll(w, step);
    } else if step.op.DoCreate? {
      RequestsCreate(w, step);
    } else if step.op.DoPoll? {
      RequestsPoll(w, step);
    } else if step.op.DoReject? {
      RequestsReject(w, step);
    } else {
      if step.op.DoApprove? || step.op.DoApproveCode? {
        ApprovalEnrolls(w.disk, step);
      }
      assert Apply(w, step).disk.requests == w.disk.requests;
      forall r | r in w.disk.requests ensures RequestOk(Apply(w, step), r) {
        RequestOkStep(w, step, r);
      }
    }
  }

  ghost predicate Inv(w: World) {
    CredentialsOk(w) && RequestsOk(w)
  }

  lemma InvStep(w: World, step: Step)
    requires Inv(w) && Enabled(w, step)
    ensures Inv(Apply(w, step))
  {
    CredentialsStep(w, step);
    RequestsStep(w, step);
  }

  lemma {:induction false} InvAlways(w: World, steps: seq<Step>)
    requires Inv(w) && Runs(w, steps)
    ensures Inv(Exec(w, steps))
    decreases |steps|
  {
    if steps != [] {
      InvStep(w, steps[0]);
      InvAlways(Apply(w, steps[0]), steps[1..]);
    }
  }

  lemma ReachableInv(w: World)
    requires Reachable(w)
    ensures Inv(w)
  {
    var steps :| Runs(START, steps) && Exec(START, steps) == w;
    InvAlways(START, steps);
  }

  lemma ReachableStart()
    ensures Reachable(START)
  {
    assert Runs(START, []) && Exec(START, []) == START;
  }

  lemma ReachableNext(w: World, step: Step)
    requires Reachable(w) && Enabled(w, step)
    ensures Reachable(Apply(w, step))
  {
    var steps :| Runs(START, steps) && Exec(START, steps) == w;
    RunsLonger(START, steps, step);
  }

  lemma {:induction false} RunsLonger(w: World, steps: seq<Step>, step: Step)
    requires Runs(w, steps) && Enabled(Exec(w, steps), step)
    ensures Runs(w, steps + [step]) && Exec(w, steps + [step]) == Apply(Exec(w, steps), step)
    decreases |steps|
  {
    if steps == [] {
      assert [step][1..] == [] && steps + [step] == [step];
    } else {
      assert (steps + [step])[1..] == steps[1..] + [step];
      RunsLonger(Apply(w, steps[0]), steps[1..], step);
    }
  }

  // A history with one worker: request "a" with secret "s", worker "u" with token "p".

  lemma OneRequest() returns (w: World)
    ensures Reachable(w) && w == World(Disk([NewRequest("a", "c", "s", [], 0)], map[], map[]), 0,
                                       map["a" := 0], {"", "s"}, map[], map[], {})
  {
    ReachableStart();
    var step := Step(0, DoCreate("a", "c", "s", [], true, 1));
    ReachableNext(START, step);
    w := Apply(START, step);
  }

  lemma OneWorker() returns (w: World)
    ensures Reachable(w) && w.clock == 0 && w.tokens == {"", "s", "p"}
    ensures w.openedAt.Keys == {"a"} && w.enrolledFor.Keys == {"u"}
    ensures w.disk.requests == [NewRequest("a", "c", "s", [], 0).(status := Approved, token := "p")]
    ensures Validate(w.disk, "p") == Valid("u")
  {
    var w0 := OneRequest();
    var step := Step(0, DoApprove("a", "u", "p", true, 3));
    ReachableNext(w0, step);
    w := Apply(w0, step);
    assert FindId(w0.disk.requests, "a") == 0;
  }

  lemma SecondRequest(w: World) returns (w': World)
    requires Reachable(w) && w.clock == 0 && w.tokens == {"", "s", "p"}
    requires w.openedAt.Keys == {"a"} && w.enrolledFor.Keys == {"u"} && Validate(w.disk, "p") == Valid("u")
    requires w.disk.requests == [NewRequest("a", "c", "s", [], 0).(status := Approved, token := "p")]
    ensures Reachable(w') && w'.clock == 0 && w'.tokens == {"", "s", "p", "z"} && w'.enrolledFor.Keys == {"u"}
    ensures Validate(w'.disk, "p") == Valid("u")
    ensures Enrolls(w'.disk, Step(0, DoApprove("b", "v", "q", false, 3))).Some?
  {
    var step := Step(0, DoCreate("b", "d", "z", [], true, 1));
    ReachableNext(w, step);
    w' := Apply(w, step);
    var a := w.disk.requests[0];
    assert [a][1..] == [] && Unexpired([], 0) == [];
    assert w'.disk.requests == [a, NewRequest("b", "d", "z", [], 0)];
    assert a.id[0] != "b"[0] && w'.disk.requests[1].id == "b";
    assert FindId(w'.disk.requests, "b") == 1;
  }

  // ---------------------------------------------------------------------------------------
  // Revocation and crashes
  // ---------------------------------------------------------------------------------------

  /** In every reachable state a worker accepts at most one token. */
  lemma OneTokenPerWorker(w: World, t: Token, u: Token, v: WorkerId)
    requires Reachable(w) && Validate(w.disk, t) == Valid(v) && Validate(w.disk, u) == Valid(v)
    ensures t == u
  {
    ReachableInv(w);
    assert RecordOk(w, w.disk.index[Sha(t)]) && RecordOk(w, w.disk.index[Sha(u)]);
  }

  /** Every token accepted anywhere was generated by the store. */
  lemma AcceptedWasIssued(w: World, t: Token)
    requires Reachable(w) && Accepts(w.disk, t)
    ensures t in w.tokens
  {
    ReachableInv(w);
    assert EntryOk(w, Sha(t));
  }

  /** Once a rotate or a delete of a worker has got one write to the disk, the token it had is
      rejected in every later state of every history. */
  lemma RevokedForever(w: World, step: Step, rest: seq<Step>, t: Token, worker: WorkerId)
    requires Reachable(w) && Enabled(w, step) && Runs(Apply(w, step), rest)
    requires Validate(w.disk, t) == Valid(worker) && Revokes(step, worker)
    ensures !Accepts(Exec(Apply(w, step), rest).disk, t)
  {
    ReachableInv(w);
    AcceptedWasIssued(w, t);
    RevokingStepRejects(w, step, t, worker);
    TokensGrow(w, step);
    RejectedStaysRejected(Apply(w, step), rest, t);
  }

  /** A rotate cut off between its two writes leaves the old and the new token both rejected,
      for good; one cut off before them changes nothing; a whole one accepts the new token. */
  lemma InterruptedRotateFailsClosed(w: World, step: Step, rest: seq<Step>, t: Token)
    requires Reachable(w) && Enabled(w, step) && Runs(Apply(w, step), rest)
    requires step.op.DoRotate? && Validate(w.disk, t) == Valid(step.op.worker)
    ensures var after := Apply(w, step).disk;
            && (step.op.writes == 0 ==> after == w.disk)
            && (step.op.writes == 1 ==> !Accepts(Exec(Apply(w, step), rest).disk, t)
                                        && !Accepts(Exec(Apply(w, step), rest).disk, step.op.token))
            && (step.op.writes >= 2 ==> Validate(after, step.op.token) == Valid(step.op.worker) && !Accepts(after, t))
  {
    ReachableInv(w);
    AcceptedWasIssued(w, t);
    assert RecordOk(w, w.disk.index[Sha(t)]);
    if step.op.writes >= 1 {
      RevokingStepRejects(w, step, t, step.op.worker);
    }
    if step.op.writes == 1 {
      RevokedForever(w, step, rest, t, step.op.worker);
      RejectedStaysRejected(Apply(w, step), rest, step.op.token);
    }
  }

  // ---------------------------------------------------------------------------------------
  // Agreement of index and records when nothing fails
  // ---------------------------------------------------------------------------------------

  predicate FaultFree(step: Step) {
    match step.op
    case DoCreate(_, _, _, _, readable, writes) => readable && writes >= 1
    case DoPoll(_, _, writes) => writes >= 1
    case DoApprove(_, _, _, readable, writes) => readable && writes >= 3
    case DoApproveCode(_, _, _, readable, writes) => readable && writes >= 3
    case DoReject(_, writes) => writes >= 1
    case DoRotate(_, _, writes) => writes >= 2
    case DoDelete(_, indexWritten, recordRemoved) => indexWritten && recordRemoved
  }

  ghost predicate FaultFreeReachable(w: World) {
    exists steps :: Runs(START, steps) && Exec(START, steps) == w && forall i | 0 <= i < |steps| :: FaultFree(steps[i])
  }

  /** Index and records are inverse to each other. */
  ghost predicate Agree(d: Disk) {
    && (forall v | v in d.records :: d.records[v].hash in d.index && d.index[d.records[v].hash] == v)
    && (forall h | h in d.index :: d.index[h] in d.records && d.records[d.index[h]].hash == h)
  }

  lemma AgreeStep(w: World, step: Step)
    requires CredentialsOk(w) && Agree(w.disk) && Enabled(w, step) && FaultFree(step)
    ensures Agree(Apply(w, step).disk)
  {
    TokensGrow(w, step);
    match step.op
    case DoRotate(_, _, _) => AgreeRotate(w, step);
    case DoDelete(_, _, _) => AgreeDelete(w, step);
    case DoApprove(_, _, _, _, _) => AgreeApprove(w, step);
    case DoApproveCode(_, _, _, _, _) => AgreeApprove(w, step);
    case _ => RequestOpsKeepCredentials(w.disk, step);
  }

  lemma AgreeApprove(w: World, step: Step)
    requires CredentialsOk(w) && Agree(w.disk) && Enabled(w, step) && FaultFree(step)
    requires step.op.DoApprove? || step.op.DoApproveCode?
    ensures Agree(Apply(w, step).disk)
  {
    ApprovalEnrolls(w.disk, step);
    TokensGrow(w, step);
    if Enrolls(w.disk, step).Some? {
      assert step.op.worker in w.disk.records ==> RecordOk(w, step.op.worker);
      assert Sha(step.op.token) in w.disk.index ==> EntryOk(w, Sha(step.op.token));
      EnrollAgrees(w.disk, Enrolls(w.disk, step).value, step.op.worker, step.op.token, step.now, step.op.writes);
    }
  }

  lemma EnrollAgrees(d: Disk, k: nat, worker: WorkerId, token: Token, now: Seconds, writes: nat)
    requires Agree(d) && k < |d.requests| && worker !in d.records && Sha(token) !in d.index && writes >= 3
    ensures Agree(Enroll(d, k, worker, token, now, true, writes).0)
  {
  }

  lemma AgreeRotate(w: World, step: Step)
    requires CredentialsOk(w) && Agree(w.disk) && Enabled(w, step) && FaultFree(step) && step.op.DoRotate?
    ensures Agree(Apply(w, step).disk)
  {
    TokensGrow(w, step);
    var worker, token := step.op.worker, step.op.token;
    if worker != "" && worker in w.disk.records {
      assert RecordOk(w, worker);
      assert Sha(token) in w.disk.index ==> EntryOk(w, Sha(token));
      RotateAgrees(w.disk, worker, token, step.now, step.op.writes);
    }
  }

  lemma RotateAgrees(d: Disk, worker: WorkerId, token: Token, now: Seconds, writes: nat)
    requires Agree(d) && worker != "" && worker in d.records && d.records[worker].hash.Sha?
    requires Sha(token) !in d.index && writes >= 2
    ensures Agree(Rotate(d, worker, token, now, writes).0)
  {
  }

  lemma AgreeDelete(w: World, step: Step)
    requires CredentialsOk(w) && Agree(w.disk) && Enabled(w, step) && FaultFree(step) && step.op.DoDelete?
    ensures Agree(Apply(w, step).disk)
  {
    var worker := step.op.worker;
    if worker != "" && worker in w.disk.records {
      assert RecordOk(w, worker);
      DeleteAgrees(w.disk, worker);
    }
  }

  lemma DeleteAgrees(d: Disk, worker: WorkerId)
    requires Agree(d) && worker != "" && worker in d.records && d.records[worker].hash.Sha?
    ensures Agree(Delete(d, worker, true, true).0)
  {
    var h, d' := d.records[worker].hash, Delete(d, worker, true, true).0;
    assert d'.index == d.index - {h} && d'.records == d.records - {worker};
  }

  lemma {:induction false} AgreeAlways(w: World, steps: seq<Step>)
    requires Inv(w) && Agree(w.disk) && Runs(w, steps) && forall i | 0 <= i < |steps| :: FaultFree(steps[i])
    ensures Inv(Exec(w, steps)) && Agree(Exec(w, steps).disk)
    decreases |steps|
  {
    if steps != [] {
      InvStep(w, steps[0]);
      AgreeStep(w, steps[0]);
      AgreeAlways(Apply(w, steps[0]), steps[1..]);
    }
  }

  /** Without faults, looking a token up through the index is a linear scan of the records. */
  lemma ValidateIsLinearScan(w: World, t: Token, v: WorkerId)
    requires FaultFreeReachable(w) && t != ""
    ensures Validate(w.disk, t) == Valid(v) <==> v in w.disk.records && w.disk.records[v].hash == Sha(t)
    ensures Validate(w.disk, t) == Failed(Unauthorized) <==>
            forall u | u in w.disk.records :: w.disk.records[u].hash != Sha(t)
  {
    var steps :| Runs(START, steps) && Exec(START, steps) == w && forall i | 0 <= i < |steps| :: FaultFree(steps[i]);
    AgreeAlways(START, steps);
    assert forall u | u in w.disk.records :: RecordOk(w, u);
  }

  /** With faults the index may miss records but still never names a wrong one. */
  lemma ValidateNeverMisleads(w: World, t: Token, v: WorkerId)
    requires Reachable(w) && Validate(w.disk, t) == Valid(v)
    ensures v in w.disk.records && w.disk.records[v].hash == Sha(t)
    ensures forall u | u in w.disk.records && w.disk.records[u].hash == Sha(t) :: u == v
  {
    ReachableInv(w);
    assert RecordOk(w, w.disk.index[Sha(t)]);
  }

  /** What an approval does to the credential of another worker is known exactly: it is lost if
      and only if the approval enrolls someone, cannot read the index, and gets as far as
      writing it. */
  lemma ApprovalKeepsOthersIff(w: World, step: Step, t: Token, v: WorkerId)
    requires Reachable(w) && Enabled(w, step) && Validate(w.disk, t) == Valid(v)
    requires step.op.DoApprove? || step.op.DoApproveCode?
    ensures Accepts(Apply(w, step).disk, t) <==>
            Enrolls(w.disk, step).None? || step.op.indexReadable || step.op.writes < 2
    ensures Accepts(Apply(w, step).disk, t) ==> Validate(Apply(w, step).disk, t) == Valid(v)
  {
    ReachableInv(w);
    AcceptedWasIssued(w, t);
    ApprovalEnrolls(w.disk, step);
    assert RecordOk(w, w.disk.index[Sha(t)]) && EntryOk(w, Sha(t));
  }

  /** The step is an approval after which a token that was accepted is not. */
  ghost predicate LocksOut(w: World, step: Step, t: Token) {
    && Reachable(w) && Enabled(w, step) && (step.op.DoApprove? || step.op.DoApproveCode?)
    && Accepts(w.disk, t) && !Accepts(Apply(w, step).disk, t)
  }

  /** With two workers it happens: enrolling the second, without being able to read the index,
      locks the first one out. */
  lemma UnreadableIndexLocksOthersOut()
    ensures exists w, step, t :: LocksOut(w, step, t)
  {
    var w0 := OneWorker();
    var w := SecondRequest(w0);
    var step := Step(0, DoApprove("b", "v", "q", false, 3));
    ApprovalKeepsOthersIff(w, step, "p", "u");
    assert LocksOut(w, step, "p");
  }

  // ---------------------------------------------------------------------------------------
  // One-time delivery
  // ---------------------------------------------------------------------------------------

  ghost predicate Absent(d: Disk, id: RequestId) {
    forall i | 0 <= i < |d.requests| :: d.requests[i].id != id
  }

  lemma AbsentStep(w: World, step: Step, id: RequestId)
    requires Enabled(w, step) && id in w.openedAt && Absent(w.disk, id)
    ensures Absent(Apply(w, step).disk, id) && id in Apply(w, step).openedAt
  {
    TokensGrow(w, step);
    if step.op.DoApprove? || step.op.DoApproveCode? {
      ApprovalEnrolls(w.disk, step);
    } else if step.op.DoCreate? {
      AbsentCreate(w, step, id);
    }
  }

  lemma AbsentCreate(w: World, step: Step, id: RequestId)
    requires Enabled(w, step) && step.op.DoCreate? && id in w.openedAt && Absent(w.disk, id)
    ensures Absent(Perform(w.disk, step).0, id)
  {
    var base := if step.op.readable then w.disk.requests else [];
    var open := Unexpired(base, step.now);
    UnexpiredIsPart(base, step.now);
    forall i | 0 <= i < |open| ensures open[i].id != id {
      assert open[i] in base;
    }
  }

  lemma {:induction false} AbsentAlways(w: World, steps: seq<Step>, id: RequestId)
    requires Runs(w, steps) && id in w.openedAt && Absent(w.disk, id)
    ensures Absent(Exec(w, steps).disk, id)
    decreases |steps|
  {
    if steps != [] {
      AbsentStep(w, steps[0], id);
      AbsentAlways(Apply(w, steps[0]), steps[1..], id);
    }
  }

  /** All requests but this one, in order. */
  function Without(rs: seq<Request>, id: RequestId): seq<Request> {
    if rs == [] then []
    else if rs[0].id == id then Without(rs[1..], id)
    else [rs[0]] + Without(rs[1..], id)
  }

  lemma {:induction false} WithoutAbsent(rs: seq<Request>, id: RequestId)
    requires forall i | 0 <= i < |rs| :: rs[i].id != id
    ensures Without(rs, id) == rs
  {
    if rs != [] {
      WithoutAbsent(rs[1..], id);
    }
  }

  lemma {:induction false} RemovalIsWithout(rs: seq<Request>, k: nat)
    requires IdsDistinct(rs) && k < |rs|
    ensures rs[..k] + rs[k + 1..] == Without(rs, rs[k].id)
  {
    if k == 0 {
      WithoutAbsent(rs[1..], rs[0].id);
      assert rs[..0] + rs[1..] == rs[1..];
    } else {
      assert IdsDistinct(rs[1..]);
      RemovalIsWithout(rs[1..], k - 1);
      assert rs[..k] + rs[k + 1..] == [rs[0]] + (rs[1..][..k - 1] + rs[1..][k..]);
    }
  }

  // ---------------------------------------------------------------------------------------
  // From a creation to its polls and approvals
  // ---------------------------------------------------------------------------------------

  ghost predicate SameRequest(x: Request, create: Step)
    requires create.op.DoCreate?
  {
    && x.secretHash == Sha(create.op.secret) && x.code == create.op.code && x.labels == create.op.labels
    && x.createdAt == create.now && x.expiresAt == create.now + 900
  }

  /** Whatever is on file under the created id is still the request that was created. */
  ghost predicate StillThat(d: Disk, create: Step)
    requires create.op.DoCreate?
  {
    forall x | x in d.requests && x.id == create.op.id :: SameRequest(x, create)
  }

  lemma StillThatAtFirst(w: World, create: Step)
    requires Reachable(w) && Enabled(w, create) && create.op.DoCreate? && create.op.writes >= 1
    ensures StillThat(Apply(w, create).disk, create) && create.op.id in Apply(w, create).openedAt
    ensures !Absent(Apply(w, create).disk, create.op.id)
  {
    ReachableInv(w);
    var base := if create.op.readable then w.disk.requests else [];
    UnexpiredIsPart(base, create.now);
    forall x | x in Unexpired(base, create.now) ensures x.id != create.op.id {
      assert RequestOk(w, x);
    }
    var rs := Apply(w, create).disk.requests;
    assert rs[|rs| - 1].id == create.op.id;
  }

  lemma StillThatStep(w: World, step: Step, create: Step)
    requires create.op.DoCreate? && Enabled(w, step) && StillThat(w.disk, create) && create.op.id in w.openedAt
    ensures StillThat(Apply(w, step).disk, create) && create.op.id in Apply(w, step).openedAt
  {
    TokensGrow(w, step);
    BooksGrow(w, step);
    if Enrolls(w.disk, step).Some? {
      ApprovalEnrolls(w.disk, step);
      var rs, k := w.disk.requests, Enrolls(w.disk, step).value;
      assert rs[k] in rs;
    } else if step.op.DoReject? {
      var rs, k := w.disk.requests, FindId(w.disk.requests, step.op.id);
      assert k < |rs| ==> rs[k] in rs;
    } else {
      KeptOrNew(w, step);
    }
  }

  lemma {:induction false} StillThatAlways(w: World, steps: seq<Step>, create: Step)
    requires create.op.DoCreate? && Runs(w, steps) && StillThat(w.disk, create) && create.op.id in w.openedAt
    ensures StillThat(Exec(w, steps).disk, create)
    decreases |steps|
  {
    if steps != [] {
      StillThatStep(w, steps[0], create);
      StillThatAlways(Apply(w, steps[0]), steps[1..], create);
    }
  }

  /** After a creation, over any history: a poll of its id with another secret learns nothing; one
      with its secret is not found, if the request is no longer on file, expired, if more than 900
      seconds have passed, and otherwise told the status, unless delivering fails on its write. */
  lemma CreatedRequestAnswers(w: World, create: Step, rest: seq<Step>, poll: Step)
    requires Reachable(w) && Enabled(w, create) && create.op.DoCreate? && create.op.writes >= 1
    requires Runs(Apply(w, create), rest) && poll.op.DoPoll? && poll.op.id == create.op.id
    ensures var d := Exec(Apply(w, create), rest).disk;
            var reply := Perform(d, poll).1;
            if Absent(d, create.op.id) then reply == Failed(NotFound)
            else if poll.op.secret != create.op.secret then reply == Failed(Unauthorized)
            else if poll.now > create.now + 900 then reply == Expired
            else reply.Polled? || (poll.op.writes == 0 && reply == Failed(WriteFailed))
  {
    var w1 := Apply(w, create);
    StillThatAtFirst(w, create);
    StillThatAlways(w1, rest, create);
    var d := Exec(w1, rest).disk;
    var k := FindId(d.requests, poll.op.id);
    if k < |d.requests| {
      assert d.requests[k] in d.requests && SameRequest(d.requests[k], create);
    }
  }

  /** What an approval of the request at k, carried out whole, leaves behind. */
  ghost predicate EnrolledWith(w: World, w': World, r: Request, approve: Step)
    requires approve.op.DoApprove? || approve.op.DoApproveCode?
  {
    var worker, token := approve.op.worker, approve.op.token;
    && worker in w'.disk.records
    && w'.disk.records[worker] == Record(worker, Sha(token), r.labels, approve.now, approve.now)
    && Validate(w'.disk, token) == Valid(worker) && worker in w'.enrolledFor && w'.enrolledFor[worker] == r.id
    && r.(status := Approved, token := token) in w'.disk.requests
  }

  lemma WholeApproval(w: World, approve: Step, k: nat)
    requires CredentialsOk(w) && Enabled(w, approve) && (approve.op.DoApprove? || approve.op.DoApproveCode?)
    requires Enrolls(w.disk, approve) == Some(k) && approve.op.writes >= 3
    ensures k < |w.disk.requests| && EnrolledWith(w, Apply(w, approve), w.disk.requests[k], approve)
  {
    ApprovalEnrolls(w.disk, approve);
    EnrolledTokenOk(w, approve);
    var rs := Apply(w, approve).disk.requests;
    assert rs[k] == w.disk.requests[k].(status := Approved, token := approve.op.token);
  }

  /** An approval by id enrolls exactly the request on file under that id, if it is within its time
      and not approved yet. */
  lemma ApprovalByIdEnrolls(w: World, approve: Step, r: Request)
    requires Reachable(w) && Enabled(w, approve) && approve.op.DoApprove? && approve.op.writes >= 3
    requires r in w.disk.requests && r.id == approve.op.id
    ensures approve.now <= r.expiresAt && !r.status.Approved? ==> EnrolledWith(w, Apply(w, approve), r, approve)
    ensures approve.now > r.expiresAt || r.status.Approved? ==> Apply(w, approve).disk == w.disk
  {
    ReachableInv(w);
    var rs, k := w.disk.requests, FindId(w.disk.requests, r.id);
    var i :| 0 <= i < |rs| && rs[i] == r;
    assert i == k;
    if approve.now <= r.expiresAt && !r.status.Approved? {
      WholeApproval(w, approve, k);
    }
  }

  /** An approval by code enrolls the only request on file with that code, if it is within its time
      and pending. */
  lemma ApprovalByCodeEnrolls(w: World, approve: Step, r: Request)
    requires Reachable(w) && Enabled(w, approve) && approve.op.DoApproveCode? && approve.op.writes >= 3
    requires r in w.disk.requests && r.code == approve.op.code
    requires forall x | x in w.disk.requests && x.code == r.code :: x == r
    ensures approve.now <= r.expiresAt && r.status.Pending? ==> EnrolledWith(w, Apply(w, approve), r, approve)
    ensures approve.now > r.expiresAt || !r.status.Pending? ==> Apply(w, approve).disk == w.disk
  {
    ReachableInv(w);
    var rs, k := w.disk.requests, FindCode(w.disk.requests, r.code);
    var i :| 0 <= i < |rs| && rs[i] == r;
    assert k < |rs| && rs[k] in rs;
    if approve.now <= r.expiresAt && r.status.Pending? {
      WholeApproval(w, approve, k);
    }
  }

  /** An approved request is delivered to the first poll that has its secret, in time. */
  lemma ApprovedIsDelivered(w: World, r: Request, poll: Step)
    requires Reachable(w) && Enabled(w, poll) && r in w.disk.requests && r.status.Approved?
    requires poll.op.DoPoll? && poll.op.id == r.id && Sha(poll.op.secret) == r.secretHash
    requires poll.now <= r.expiresAt && poll.op.writes >= 1
    ensures Perform(w.disk, poll).1 == Polled(Approved, r.token) && r.token != ""
    ensures Absent(Apply(w, poll).disk, r.id)
  {
    ReachableInv(w);
    var rs, k := w.disk.requests, FindId(w.disk.requests, r.id);
    var i :| 0 <= i < |rs| && rs[i] == r;
    assert i == k && RequestOk(w, r);
    assert Delivers(Perform(w.disk, poll).1);
    DeliveredOnce(w, poll, [], poll);
    assert Apply(w, poll).disk.requests == rs[..k] + rs[k + 1..];
  }

  /** Pairing works: from any state, creating a request, approving it by its id and polling it with
      its secret, each in time and without faults, yields the worker's token; it validates to that
      worker, whose record has the labels of the request. */
  lemma PairingWorks(w: World, create: Step, approve: Step, poll: Step)
    requires Reachable(w) && Enabled(w, create) && Enabled(Apply(w, create), approve)
    requires Enabled(Apply(Apply(w, create), approve), poll)
    requires create.op.DoCreate? && FaultFree(create)
    requires approve.op.DoApprove? && approve.op.id == create.op.id && FaultFree(approve)
    requires poll.op.DoPoll? && poll.op.id == create.op.id && poll.op.secret == create.op.secret && FaultFree(poll)
    requires poll.now <= create.now + 900
    ensures var w2 := Apply(Apply(w, create), approve);
            var d := Apply(w2, poll).disk;
            && Perform(w2.disk, poll).1 == Polled(Approved, approve.op.token)
            && Validate(d, approve.op.token) == Valid(approve.op.worker)
            && approve.op.worker in d.records && d.records[approve.op.worker].labels == create.op.labels
  {
    var w1 := Apply(w, create);
    var w2 := Apply(w1, approve);
    var r := CreatedIsPending(w, create);
    ReachableNext(w, create);
    ReachableNext(w1, approve);
    ApprovalByIdEnrolls(w1, approve, r);
    ApprovedIsDelivered(w2, r.(status := Approved, token := approve.op.token), poll);
    RequestOpsKeepCredentials(w2.disk, poll);
  }

  lemma CreatedIsPending(w: World, create: Step) returns (r: Request)
    requires Reachable(w) && Enabled(w, create) && create.op.DoCreate? && create.op.writes >= 1
    ensures r in Apply(w, create).disk.requests && r.id == create.op.id && r.status.Pending?
    ensures SameRequest(r, create)
  {
    StillThatAtFirst(w, create);
    var rs := Apply(w, create).disk.requests;
    r := rs[|rs| - 1];
    assert r in rs;
  }

  predicate Delivers(reply: Reply) {
    reply.Polled? && reply.status.Approved? && reply.token != ""
  }

  /** A delivering poll removes its request and nothing else, keeping the others in order, and
      from then on every poll of that id, with any secret, is not found. */
  lemma DeliveredOnce(w: World, step: Step, rest: seq<Step>, again: Step)
    requires Reachable(w) && Enabled(w, step) && step.op.DoPoll? && Delivers(Perform(w.disk, step).1)
    requires Runs(Apply(w, step), rest)
    requires again.op.DoPoll? && again.op.id == step.op.id
    ensures Apply(w, step).disk.requests == Without(w.disk.requests, step.op.id)
    ensures Perform(Exec(Apply(w, step), rest).disk, again).1 == Failed(NotFound)
  {
    ReachableInv(w);
    var rs := w.disk.requests;
    var k := FindId(rs, step.op.id);
    assert rs[k] in rs && RequestOk(w, rs[k]);
    RemovalIsWithout(rs, k);
    var w' := Apply(w, step);
    assert Absent(w'.disk, step.op.id) by {
      assert w'.disk.requests == rs[..k] + rs[k + 1..];
    }
    AbsentAlways(w', rest, step.op.id);
  }

  /** A token handed out by any poll was made for a worker enrolled for the polled request,
      within the request's time, and validates to that worker unless the worker was rotated,
      deleted or lost with an unreadable index since. */
  lemma DeliveredTokenIsTheWorkers(w: World, step: Step)
    requires Reachable(w) && Enabled(w, step) && step.op.DoPoll?
    requires Perform(w.disk, step).1.Polled? && Perform(w.disk, step).1.token != ""
    ensures var t := Perform(w.disk, step).1.token;
            && t in w.owner && w.owner[t] in w.enrolledFor && w.enrolledFor[w.owner[t]] == step.op.id
            && (w.owner[t] in w.disturbed || Validate(Apply(w, step).disk, t) == Valid(w.owner[t]))
            && step.op.id in w.openedAt && step.now <= w.openedAt[step.op.id] + 900
  {
    ReachableInv(w);
    var rs := w.disk.requests;
    assert rs[FindId(rs, step.op.id)] in rs;
    assert RequestOk(w, rs[FindId(rs, step.op.id)]);
    RequestOpsKeepCredentials(w.disk, step);
  }

  predicate HandsOut(reply: Reply, t: Token) {
    reply.Polled? && reply.token == t && t != ""
  }

  /** A stored request from which this poll takes a token without using it up. */
  predicate RejectedWithToken(r: Request, step: Step)
    requires step.op.DoPoll?
  {
    && r.status.Rejected? && r.token != ""
    && r.id == step.op.id && r.secretHash == Sha(step.op.secret) && step.now <= r.expiresAt
  }

  /** A poll hands out a token and leaves it on file exactly when the request was rejected after
      a token had been made for it, the secret is right and the time has not passed. */
  lemma TokenStaysOnFileIff(w: World, step: Step)
    requires Reachable(w) && Enabled(w, step) && step.op.DoPoll?
    ensures (exists t :: HandsOut(Perform(w.disk, step).1, t)) && Apply(w, step).disk == w.disk <==>
            exists r | r in w.disk.requests :: RejectedWithToken(r, step)
  {
    ReachableInv(w);
    var rs, reply := w.disk.requests, Perform(w.disk, step).1;
    var k := FindId(rs, step.op.id);
    if k < |rs| {
      assert rs[k] in rs && RequestOk(w, rs[k]);
      forall r | r in rs && RejectedWithToken(r, step) ensures r == rs[k] {
        var i :| 0 <= i < |rs| && rs[i] == r;
      }
      if rs[k].status.Approved? {
        assert |rs[..k] + rs[k + 1..]| == |rs| - 1;
      }
      if RejectedWithToken(rs[k], step) {
        assert HandsOut(reply, rs[k].token);
      }
    }
  }

  lemma {:induction false} BooksGrowAlways(w: World, steps: seq<Step>)
    requires Runs(w, steps)
    ensures var w' := Exec(w, steps);
            && w.openedAt.Keys <= w'.openedAt.Keys && w.tokens <= w'.tokens
            && (forall v | v in w.enrolledFor :: v in w'.enrolledFor && w'.enrolledFor[v] == w.enrolledFor[v])
            && (forall t | t in w.owner && t in w.tokens :: t in w'.owner && w'.owner[t] == w.owner[t])
    decreases |steps|
  {
    if steps != [] {
      BooksGrow(w, steps[0]);
      BooksGrowAlways(Apply(w, steps[0]), steps[1..]);
    }
  }

  lemma {:induction false} ReachableLater(w: World, steps: seq<Step>)
    requires Reachable(w) && Runs(w, steps)
    ensures Reachable(Exec(w, steps))
    decreases |steps|
  {
    if steps != [] {
      ReachableNext(w, steps[0]);
      ReachableLater(Apply(w, steps[0]), steps[1..]);
    }
  }

  /** If two polls of one history hand out the same token, they polled the same request, and
      that request was on file as rejected when the first of them came. */
  lemma HandedOutTwiceWasRejected(w: World, first: Step, rest: seq<Step>, second: Step, t: Token)
    requires Reachable(w) && Enabled(w, first) && first.op.DoPoll? && HandsOut(Perform(w.disk, first).1, t)
    requires Runs(Apply(w, first), rest)
    requires var w' := Exec(Apply(w, first), rest);
             Enabled(w', second) && second.op.DoPoll? && HandsOut(Perform(w'.disk, second).1, t)
    ensures second.op.id == first.op.id
    ensures exists r | r in w.disk.requests :: RejectedWithToken(r, first) && r.token == t
  {
    var w' := Exec(Apply(w, first), rest);
    ReachableNext(w, first);
    ReachableLater(Apply(w, first), rest);
    DeliveredTokenIsTheWorkers(w, first);
    DeliveredTokenIsTheWorkers(w', second);
    ReachableInv(w);
    BooksGrow(w, first);
    BooksGrowAlways(Apply(w, first), rest);
    var rs := w.disk.requests;
    var r := rs[FindId(rs, first.op.id)];
    assert r in rs && RequestOk(w, r);
    if r.status.Approved? {
      DeliveredOnce(w, first, rest, second);
    }
  }

  /** The step takes a rejected request off the file or gives it another token. */
  predicate Ends(w: World, step: Step, r: Request) {
    match step.op
    case DoCreate(_, _, _, _, readable, writes) => writes >= 1 && (!readable || r.expiresAt <= step.now)
    case DoApprove(_, _, _, _, writes) => EnrollsFor(w.disk, step, r.id) && writes >= 3
    case DoApproveCode(_, _, _, _, writes) => EnrollsFor(w.disk, step, r.id) && writes >= 3
    case _ => false
  }

  predicate NeverEnds(w: World, steps: seq<Step>, r: Request)
    requires Runs(w, steps)
    decreases |steps|
  {
    steps == [] || (!Ends(w, steps[0], r) && NeverEnds(Apply(w, steps[0]), steps[1..], r))
  }

  /** No request with this id carries this token any more. */
  ghost predicate TokenGone(d: Disk, r: Request) {
    forall x | x in d.requests :: x.id == r.id ==> x.token != r.token
  }

  ghost predicate OnFile(w: World, r: Request) {
    r in w.disk.requests && r.status.Rejected? && r.token != ""
  }

  lemma SameIdSameRequest(rs: seq<Request>, r: Request, x: Request)
    requires IdsDistinct(rs) && r in rs && x in rs && r.id == x.id
    ensures r == x
  {
    var i :| 0 <= i < |rs| && rs[i] == r;
    var j :| 0 <= j < |rs| && rs[j] == x;
  }

  lemma CreateEnds(w: World, step: Step, r: Request)
    requires Inv(w) && Enabled(w, step) && step.op.DoCreate? && OnFile(w, r)
    ensures r in Apply(w, step).disk.requests <==> !Ends(w, step, r)
    ensures Ends(w, step, r) ==> TokenGone(Apply(w, step).disk, r)
  {
    assert RequestOk(w, r);
    var base := if step.op.readable then w.disk.requests else [];
    UnexpiredIsPart(base, step.now);
    forall x | x in Unexpired(base, step.now) && x.id == r.id ensures x == r {
      SameIdSameRequest(w.disk.requests, r, x);
    }
  }

  lemma PollEndsNothing(w: World, step: Step, r: Request)
    requires Inv(w) && Enabled(w, step) && step.op.DoPoll? && OnFile(w, r)
    ensures r in Apply(w, step).disk.requests
  {
    var rs := w.disk.requests;
    var i :| 0 <= i < |rs| && rs[i] == r;
    var k := FindId(rs, step.op.id);
    if i < k < |rs| {
      assert (rs[..k] + rs[k + 1..])[i] == r;
    } else if k < i {
      assert (rs[..k] + rs[k + 1..])[i - 1] == r;
    }
  }

  lemma ApprovalEnds(w: World, step: Step, r: Request)
    requires Inv(w) && Enabled(w, step) && Enrolls(w.disk, step).Some? && OnFile(w, r)
    ensures r in Apply(w, step).disk.requests <==> !Ends(w, step, r)
    ensures Ends(w, step, r) ==> TokenGone(Apply(w, step).disk, r)
  {
    assert RequestOk(w, r);
    ApprovalEnrolls(w.disk, step);
    var rs, k := w.disk.requests, Enrolls(w.disk, step).value;
    var i :| 0 <= i < |rs| && rs[i] == r;
    var rs' := rs[k := rs[k].(status := Approved, token := step.op.token)];
    assert rs[k].id == r.id <==> i == k;
    assert i != k ==> rs'[i] == r;
    forall x | x in rs' && x.id == r.id ensures i == k ==> x.token == step.op.token {
      var j :| 0 <= j < |rs'| && rs'[j] == x;
      assert j != k ==> rs[j] == x;
    }
  }

  lemma EndsStep(w: World, step: Step, r: Request)
    requires Inv(w) && Enabled(w, step) && OnFile(w, r)
    ensures r in Apply(w, step).disk.requests <==> !Ends(w, step, r)
    ensures Ends(w, step, r) ==> TokenGone(Apply(w, step).disk, r)
  {
    if Enrolls(w.disk, step).Some? {
      ApprovalEnds(w, step, r);
    } else if step.op.DoCreate? {
      CreateEnds(w, step, r);
    } else if step.op.DoPoll? {
      PollEndsNothing(w, step, r);
    } else if step.op.DoReject? {
      RejectEndsNothing(w, step, r);
    } else if step.op.DoApprove? || step.op.DoApproveCode? {
      ApprovalEnrolls(w.disk, step);
    }
  }

  lemma RejectEndsNothing(w: World, step: Step, r: Request)
    requires Inv(w) && Enabled(w, step) && step.op.DoReject? && OnFile(w, r)
    ensures r in Apply(w, step).disk.requests
  {
    var rs := w.disk.requests;
    var i :| 0 <= i < |rs| && rs[i] == r;
    var k := FindId(rs, step.op.id);
    if k < |rs| {
      assert rs[k := rs[k].(status := Rejected)][i] == r;
    }
  }

  lemma TokenGoneStep(w: World, step: Step, r: Request)
    requires Enabled(w, step) && TokenGone(w.disk, r) && r.token in w.tokens && r.token != ""
    ensures TokenGone(Apply(w, step).disk, r)
  {
    TokensGrow(w, step);
    if Enrolls(w.disk, step).Some? {
      ApprovalEnrolls(w.disk, step);
    } else if step.op.DoReject? {
      var rs, k := w.disk.requests, FindId(w.disk.requests, step.op.id);
      assert k < |rs| ==> rs[k] in rs;
    } else {
      KeptOrNew(w, step);
      if step.op.DoCreate? {
        UnexpiredIsPart(if step.op.readable then w.disk.requests else [], step.now);
      }
    }
  }

  lemma {:induction false} TokenGoneAlways(w: World, steps: seq<Step>, r: Request)
    requires Runs(w, steps) && TokenGone(w.disk, r) && r.token in w.tokens && r.token != ""
    ensures TokenGone(Exec(w, steps).disk, r)
    decreases |steps|
  {
    if steps != [] {
      TokensGrow(w, steps[0]);
      TokenGoneStep(w, steps[0], r);
      TokenGoneAlways(Apply(w, steps[0]), steps[1..], r);
    }
  }

  lemma {:induction false} OnFileUntilEnded(w: World, steps: seq<Step>, r: Request)
    requires Inv(w) && Runs(w, steps) && OnFile(w, r)
    ensures if NeverEnds(w, steps, r) then OnFile(Exec(w, steps), r) else TokenGone(Exec(w, steps).disk, r)
    decreases |steps|
  {
    if steps != [] {
      var w' := Apply(w, steps[0]);
      InvStep(w, steps[0]);
      EndsStep(w, steps[0], r);
      if Ends(w, steps[0], r) {
        TokensGrow(w, steps[0]);
        assert RequestOk(w, r);
        TokenGoneAlways(w', steps[1..], r);
      } else {
        OnFileUntilEnded(w', steps[1..], r);
      }
    }
  }

  /** Once a request that has a token is rejected, every poll with its secret and within its
      time is answered with that token and takes nothing away, if and only if since the reject
      no approval by id has gone through for it, and no creation has dropped it. */
  lemma RejectedHandsOutUntilEnded(w: World, reject: Step, r: Request, rest: seq<Step>, poll: Step)
    requires Reachable(w) && Enabled(w, reject) && r in w.disk.requests && r.token != ""
    requires reject.op.DoReject? && reject.op.id == r.id && reject.op.writes >= 1
    requires Runs(Apply(w, reject), rest) && Enabled(Exec(Apply(w, reject), rest), poll)
    requires poll.op.DoPoll? && poll.op.id == r.id && Sha(poll.op.secret) == r.secretHash && poll.now <= r.expiresAt
    ensures var d := Exec(Apply(w, reject), rest).disk;
            Perform(d, poll) == (d, Polled(Rejected, r.token)) <==>
            NeverEnds(Apply(w, reject), rest, r.(status := Rejected))
  {
    var w1, r1 := Apply(w, reject), r.(status := Rejected);
    var w2 := Exec(w1, rest);
    ReachableInv(w);
    InvStep(w, reject);
    RejectFiles(w, reject, r);
    OnFileUntilEnded(w1, rest, r1);
    InvAlways(w1, rest);
    if NeverEnds(w1, rest, r1) {
      PollFindsToken(w2.disk, poll, r1);
    } else {
      PollFindsNoToken(w2.disk, poll, r1);
    }
  }

  lemma PollFindsToken(d: Disk, poll: Step, r: Request)
    requires IdsDistinct(d.requests) && r in d.requests && poll.op.DoPoll? && RejectedWithToken(r, poll)
    ensures Perform(d, poll) == (d, Polled(Rejected, r.token))
  {
    var i :| 0 <= i < |d.requests| && d.requests[i] == r;
    assert FindId(d.requests, r.id) == i;
  }

  lemma PollFindsNoToken(d: Disk, poll: Step, r: Request)
    requires TokenGone(d, r) && poll.op.DoPoll? && poll.op.id == r.id
    ensures !HandsOut(Perform(d, poll).1, r.token)
  {
    var k := FindId(d.requests, r.id);
    assert k < |d.requests| ==> d.requests[k] in d.requests;
  }

  lemma RejectFiles(w: World, reject: Step, r: Request)
    requires Inv(w) && Enabled(w, reject) && r in w.disk.requests
    requires reject.op.DoReject? && reject.op.id == r.id && reject.op.writes >= 1
    ensures r.(status := Rejected) in Apply(w, reject).disk.requests
  {
    var rs, k := w.disk.requests, FindId(w.disk.requests, r.id);
    var i :| 0 <= i < |rs| && rs[i] == r;
    assert i == k;
    assert rs[k := r.(status := Rejected)][k] == r.(status := Rejected);
  }

  /** The poll hands out the token of a rejected request, and can do so again. */
  ghost predicate HandsOutForGood(w: World, poll: Step, t: Token) {
    && Reachable(w) && Enabled(w, poll) && poll.op.DoPoll?
    && Perform(w.disk, poll) == (w.disk, Polled(Rejected, t)) && t != ""
  }

  /** Create, approve, reject, poll: the token is handed out and stays. */
  lemma RejectedRequestHandsOutItsToken()
    ensures exists w, poll, t :: HandsOutForGood(w, poll, t)
  {
    var w0 := OneWorker();
    var reject := Step(0, DoReject("a", 1));
    ReachableNext(w0, reject);
    var r := w0.disk.requests[0];
    var poll := Step(0, DoPoll("a", "s", 1));
    RejectedHandsOutUntilEnded(w0, reject, r, [], poll);
    assert HandsOutForGood(Apply(w0, reject), poll, "p");
  }

  // ---------------------------------------------------------------------------------------
  // The life of one request
  // ---------------------------------------------------------------------------------------

  /** In every reachable state pending requests carry no token, approved ones do, ids are
      distinct, and a request's deadline is 900 seconds after it was opened. */
  lemma RequestStates(w: World, i: nat)
    requires Reachable(w) && i < |w.disk.requests|
    ensures var r := w.disk.requests[i];
            && (r.status.Pending? ==> r.token == "")
            && (r.status.Approved? ==> r.token != "")
            && r.id in w.openedAt && r.expiresAt == w.openedAt[r.id] + 900
            && forall j | 0 <= j < |w.disk.requests| && j != i :: w.disk.requests[j].id != r.id
  {
    ReachableInv(w);
    assert w.disk.requests[i] in w.disk.requests && RequestOk(w, w.disk.requests[i]);
  }

  /** No worker is created for a request whose time has passed, by id or by code. */
  lemma NoEnrollmentAfterDeadline(w: World, step: Step)
    requires Reachable(w) && Enabled(w, step)
    requires Apply(w, step).disk.records.Keys != w.disk.records.Keys && !step.op.DoDelete?
    ensures Enrolls(w.disk, step).Some?
    ensures var id := w.disk.requests[Enrolls(w.disk, step).value].id;
            id in w.openedAt && step.now <= w.openedAt[id] + 900
  {
    ReachableInv(w);
    TokensGrow(w, step);
    match step.op {
      case DoApprove(_, _, _, _, _) => ApprovalEnrolls(w.disk, step);
      case DoApproveCode(_, _, _, _, _) => ApprovalEnrolls(w.disk, step);
      case DoRotate(_, _, _) => RotateKeepsWorkers(w.disk, step);
      case _ => RequestOpsKeepCredentials(w.disk, step);
    }
    var r := w.disk.requests[Enrolls(w.disk, step).value];
    assert r in w.disk.requests && RequestOk(w, r);
  }

  lemma RotateKeepsWorkers(d: Disk, step: Step)
    requires step.op.DoRotate?
    ensures Perform(d, step).0.records.Keys == d.records.Keys
  {
  }

  predicate EnrollsFor(d: Disk, step: Step, id: RequestId) {
    var k := Enrolls(d, step);
    k.Some? && k.value < |d.requests| && d.requests[k.value].id == id
  }

  predicate Interrupted(step: Step) {
    (step.op.DoApprove? || step.op.DoApproveCode?) && step.op.writes < 3
  }

  predicate RejectsHit(d: Disk, step: Step, id: RequestId) {
    step.op.DoReject? && step.op.id == id && FindId(d.requests, id) < |d.requests| && step.op.writes >= 1
  }

  /** Workers created for the request over a history. */
  function Enrollments(w: World, steps: seq<Step>, id: RequestId): nat
    requires Runs(w, steps)
    decreases |steps|
  {
    if steps == [] then 0
    else (if EnrollsFor(w.disk, steps[0], id) then 1 else 0) + Enrollments(Apply(w, steps[0]), steps[1..], id)
  }

  /** Rejects that hit it, and approvals of it that were cut off. */
  function Setbacks(w: World, steps: seq<Step>, id: RequestId): nat
    requires Runs(w, steps)
    decreases |steps|
  {
    if steps == [] then 0
    else (if RejectsHit(w.disk, steps[0], id) || (EnrollsFor(w.disk, steps[0], id) && Interrupted(steps[0]))
              then 1 else 0)
         + Setbacks(Apply(w, steps[0]), steps[1..], id)
  }

  /** How many workers may still be created without a setback. */
  function Allowance(w: World, id: RequestId): nat {
    var k := FindId(w.disk.requests, id);
    if k < |w.disk.requests| then (if w.disk.requests[k].status.Approved? then 0 else 1)
    else if id in w.openedAt then 0 else 1
  }

  lemma AllowanceOf(w: World, r: Request)
    requires IdsDistinct(w.disk.requests) && r in w.disk.requests
    ensures Allowance(w, r.id) == if r.status.Approved? then 0 else 1
  {
    var rs := w.disk.requests;
    var i :| 0 <= i < |rs| && rs[i] == r;
    assert FindId(rs, r.id) == i;
  }

  /** One step: the workers it creates come out of the allowance, which only a setback renews. */
  lemma AllowanceStep(w: World, step: Step, id: RequestId)
    requires Inv(w) && Inv(Apply(w, step)) && Enabled(w, step)
    ensures (if EnrollsFor(w.disk, step, id) then 1 else 0) + Allowance(Apply(w, step), id)
            <= Allowance(w, id)
               + (if RejectsHit(w.disk, step, id) || (EnrollsFor(w.disk, step, id) && Interrupted(step)) then 1 else 0)
  {
    if Enrolls(w.disk, step).Some? {
      AllowanceEnroll(w, step, id);
    } else if step.op.DoReject? {
      AllowanceReject(w, step, id);
    } else {
      AllowanceElse(w, step, id);
    }
  }

  lemma AllowanceEnroll(w: World, step: Step, id: RequestId)
    requires Inv(w) && Inv(Apply(w, step)) && Enabled(w, step) && Enrolls(w.disk, step).Some?
    ensures (if EnrollsFor(w.disk, step, id) then 1 else 0) + Allowance(Apply(w, step), id)
            <= Allowance(w, id) + (if EnrollsFor(w.disk, step, id) && Interrupted(step) then 1 else 0)
  {
    EnrollmentWrites(w, step);
    var rs, k := w.disk.requests, Enrolls(w.disk, step).value;
    assert rs[k] in rs;
    AllowanceOf(w, rs[k]);
    if step.op.writes >= 3 {
      AllowanceSpent(w, Apply(w, step), k, id);
    }
  }

  /** What an enrollment, whole or cut short, does to the request file. */
  lemma EnrollmentWrites(w: World, step: Step)
    requires Enabled(w, step) && Enrolls(w.disk, step).Some?
    ensures var rs, k := w.disk.requests, Enrolls(w.disk, step).value;
            && (step.op.DoApprove? || step.op.DoApproveCode?) && k < |rs| && !rs[k].status.Approved?
            && Apply(w, step).openedAt == w.openedAt
            && Apply(w, step).disk.requests ==
                 if step.op.writes >= 3 then rs[k := rs[k].(status := Approved, token := step.op.token)] else rs
  {
    ApprovalEnrolls(w.disk, step);
  }

  /** The enrolled request has used its allowance up, the others keep theirs. */
  lemma AllowanceSpent(w: World, w': World, k: nat, id: RequestId)
    requires Inv(w) && k < |w.disk.requests| && w'.openedAt == w.openedAt
    requires |w'.disk.requests| == |w.disk.requests| && w'.disk.requests[k].status.Approved?
    requires w'.disk.requests == w.disk.requests[k := w'.disk.requests[k]]
    requires w'.disk.requests[k].id == w.disk.requests[k].id
    ensures Allowance(w', id) == if id == w.disk.requests[k].id then 0 else Allowance(w, id)
  {
    SameOtherIds(w.disk.requests, k, w'.disk.requests[k], id);
    assert w.disk.requests[k].id == id ==> FindId(w.disk.requests, id) == k;
  }

  /** Changing the request at k, but not its id, changes no other search. */
  lemma SameOtherIds(rs: seq<Request>, k: nat, r: Request, id: RequestId)
    requires IdsDistinct(rs) && k < |rs| && r.id == rs[k].id
    ensures FindId(rs[k := r], id) == FindId(rs, id)
    ensures id != r.id && FindId(rs, id) < |rs| ==> rs[k := r][FindId(rs, id)] == rs[FindId(rs, id)]
  {
    var i, j := FindId(rs, id), FindId(rs[k := r], id);
    assert forall x | 0 <= x < |rs| :: rs[k := r][x].id == rs[x].id;
    assert i < |rs| ==> j <= i;
    assert j < |rs| ==> i <= j;
  }

  lemma AllowanceReject(w: World, step: Step, id: RequestId)
    requires Inv(w) && Inv(Apply(w, step)) && Enabled(w, step) && step.op.DoReject?
    ensures Allowance(Apply(w, step), id) <= Allowance(w, id) + (if RejectsHit(w.disk, step, id) then 1 else 0)
  {
    var rs := w.disk.requests;
    var k := FindId(rs, step.op.id);
    if k < |rs| && step.op.writes >= 1 {
      SameOtherIds(rs, k, rs[k].(status := Rejected), id);
    }
  }

  lemma AllowanceElse(w: World, step: Step, id: RequestId)
    requires Inv(w) && Inv(Apply(w, step)) && Enabled(w, step) && Enrolls(w.disk, step).None? && !step.op.DoReject?
    ensures Allowance(Apply(w, step), id) <= Allowance(w, id)
  {
    var w' := Apply(w, step);
    var rs' := w'.disk.requests;
    var j := FindId(rs', id);
    BooksGrow(w, step);
    if step.op.DoApprove? || step.op.DoApproveCode? {
      ApprovalEnrolls(w.disk, step);
    }
    KeptOrNew(w, step);
    if j < |rs'| {
      assert rs'[j] in rs';
      AllowanceOf(w', rs'[j]);
      if rs'[j] in w.disk.requests {
        AllowanceOf(w, rs'[j]);
      } else {
        forall i | 0 <= i < |w.disk.requests| ensures w.disk.requests[i].id != id {
          assert w.disk.requests[i] in w.disk.requests && RequestOk(w, w.disk.requests[i]);
        }
      }
    } else if Allowance(w, id) == 0 {
      var i := FindId(w.disk.requests, id);
      assert id in w.openedAt by {
        if i < |w.disk.requests| {
          assert w.disk.requests[i] in w.disk.requests && RequestOk(w, w.disk.requests[i]);
        }
      }
    }
  }

  /** Apart from approvals and rejects, requests on disk were there before or are the one just
      opened. */
  lemma KeptOrNew(w: World, step: Step)
    requires Enabled(w, step) && Enrolls(w.disk, step).None? && !step.op.DoReject?
    ensures forall r | r in Apply(w, step).disk.requests ::
            r in w.disk.requests || (step.op.DoCreate? && r.id == step.op.id)
  {
    if step.op.DoApprove? || step.op.DoApproveCode? {
      ApprovalEnrolls(w.disk, step);
    } else if step.op.DoCreate? {
      UnexpiredIsPart(if step.op.readable then w.disk.requests else [], step.now);
    }
  }

  lemma {:induction false} EnrollmentsBounded(w: World, steps: seq<Step>, id: RequestId)
    requires Inv(w) && Runs(w, steps)
    ensures Enrollments(w, steps, id) <= Allowance(w, id) + Setbacks(w, steps, id)
    decreases |steps|
  {
    if steps != [] {
      InvStep(w, steps[0]);
      AllowanceStep(w, steps[0], id);
      EnrollmentsBounded(Apply(w, steps[0]), steps[1..], id);
    }
  }

  /** Over any history, the workers created for one request are at most one more than the
      rejects that hit it and the approvals of it that were cut off, by id and by code alike;
      so at most one when it was never rejected and nothing failed. */
  lemma WorkersPerRequest(w: World, steps: seq<Step>, id: RequestId)
    requires Reachable(w) && Runs(w, steps)
    ensures Enrollments(w, steps, id) <= 1 + Setbacks(w, steps, id)
    ensures id in w.openedAt && Absent(w.disk, id) ==> Enrollments(w, steps, id) <= Setbacks(w, steps, id)
  {
    ReachableInv(w);
    EnrollmentsBounded(w, steps, id);
  }
}

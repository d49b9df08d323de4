/** The worker configuration store (pkg/server/worker_config_store.go and pairing_store.go):
    one file of pairing requests, one file per worker record and one index file from token
    hash to worker. Every file is replaced by one atomic rename, and an operation makes up to
    three such writes; `writes` says how many of them reach the disk before a crash or a
    write error stops the operation. */
module TokenStore {
  import opened Sequences

  type Token = string
  type WorkerId = string
  type RequestId = string
  type Seconds = int

  const PAIRING_TTL: Seconds := 900

  /** SHA-256, taken to be injective on the tokens in use. A missing hash is NoHash. */
  datatype Hash = NoHash | Sha(preimage: Token)

  datatype Status = Pending | Approved | Rejected

  datatype Request = Request(
    id: RequestId, code: string, secretHash: Hash, labels: seq<string>,
    status: Status, createdAt: Seconds, expiresAt: Seconds, token: Token)

  datatype Record = Record(id: WorkerId, hash: Hash, labels: seq<string>, createdAt: Seconds, updatedAt: Seconds)

  datatype Disk = Disk(requests: seq<Request>, records: map<WorkerId, Record>, index: map<Hash, WorkerId>)

  const EMPTY_DISK := Disk([], map[], map[])

  datatype Error = NotFound | Unauthorized | RequestExpired | NotPending | InvalidId | WriteFailed
  datatype Reply =
    | Ok
    | Failed(error: Error)
    | Expired                                    // poll of a request past its time
    | Polled(status: Status, token: Token)
    | Rotated(token: Token)
    | Valid(worker: WorkerId)

  // ---------------------------------------------------------------------------------------
  // Pairing requests
  // ---------------------------------------------------------------------------------------

  /** The position of the first key that equals this one, or the length when there is none. */
  function Find(keys: seq<string>, key: string): (k: nat)
    ensures k <= |keys| && (k < |keys| ==> keys[k] == key)
    ensures forall j | 0 <= j < k :: keys[j] != key
  {
    if keys == [] || keys[0] == key then 0 else 1 + Find(keys[1..], key)
  }

  function Ids(rs: seq<Request>): seq<string> {
    seq(|rs|, i requires 0 <= i < |rs| => rs[i].id)
  }

  function Codes(rs: seq<Request>): seq<string> {
    seq(|rs|, i requires 0 <= i < |rs| => rs[i].code)
  }

  /** Requests are looked up by id or by code; the first one wins. */
  function FindId(rs: seq<Request>, id: RequestId): (k: nat)
    ensures k <= |rs| && (k < |rs| ==> rs[k].id == id)
    ensures forall j | 0 <= j < k :: rs[j].id != id
  {
    assert forall j | 0 <= j < |rs| :: Ids(rs)[j] == rs[j].id;
    Find(Ids(rs), id)
  }

  function FindCode(rs: seq<Request>, code: string): (k: nat)
    ensures k <= |rs| && (k < |rs| ==> rs[k].code == code)
    ensures forall j | 0 <= j < k :: rs[j].code != code
  {
    assert forall j | 0 <= j < |rs| :: Codes(rs)[j] == rs[j].code;
    Find(Codes(rs), code)
  }

  /** Requests still open at the given time. */
  function Unexpired(rs: seq<Request>, now: Seconds): seq<Request> {
    if rs == [] then []
    else if rs[0].expiresAt > now then [rs[0]] + Unexpired(rs[1..], now)
    else Unexpired(rs[1..], now)
  }

  function NewRequest(id: RequestId, code: string, secret: Token, labels: seq<string>, now: Seconds): Request {
    Request(id, code, Sha(secret), labels, Pending, now, now + PAIRING_TTL, "")
  }

  /** Drops what has expired and adds the new request; a file that cannot be read is taken to
      be empty. */
  function Create(d: Disk, id: RequestId, code: string, secret: Token, labels: seq<string>,
        now: Seconds, readable: bool, writes: nat): (Disk, Reply)
  {
    var base := if readable then d.requests else [];
    if writes >= 1
    then (d.(requests := Unexpired(base, now) + [NewRequest(id, code, secret, labels, now)]), Ok)
    else (d, Failed(WriteFailed))
  }

  function Poll(d: Disk, id: RequestId, secret: Token, now: Seconds, writes: nat): (Disk, Reply) {
    var k := FindId(d.requests, id);
    if k == |d.requests| then (d, Failed(NotFound))
    else
      var r := d.requests[k];
      if r.secretHash != Sha(secret) then (d, Failed(Unauthorized))
      else if r.expiresAt < now then (d, Expired)
      else if r.status.Approved? && r.token != "" then
        if writes >= 1 then (d.(requests := d.requests[..k] + d.requests[k + 1..]), Polled(r.status, r.token))
        else (d, Failed(WriteFailed))
      else (d, Polled(r.status, r.token))
  }

  function Reject(d: Disk, id: RequestId, writes: nat): (Disk, Reply) {
    var k := FindId(d.requests, id);
    if k == |d.requests| then (d, Failed(NotFound))
    else if writes >= 1 then (d.(requests := d.requests[k := d.requests[k].(status := Rejected)]), Ok)
    else (d, Failed(WriteFailed))
  }

  /** Creates a worker for request k: its record, then the index entry, then the request. The
      index is read as empty when it cannot be read. */
  function Enroll(d: Disk, k: nat, worker: WorkerId, token: Token, now: Seconds,
        indexReadable: bool, writes: nat): (Disk, Reply)
    requires k < |d.requests|
  {
    var base := if indexReadable then d.index else map[];
    var d1 := d.(records := d.records[worker := Record(worker, Sha(token), d.requests[k].labels, now, now)]);
    var d2 := d1.(index := base[Sha(token) := worker]);
    var d3 := d2.(requests := d.requests[k := d.requests[k].(status := Approved, token := token)]);
    if writes == 0 then (d, Failed(WriteFailed))
    else if writes == 1 then (d1, Failed(WriteFailed))
    else if writes == 2 then (d2, Failed(WriteFailed))
    else (d3, Ok)
  }

  function ApproveById(d: Disk, id: RequestId, worker: WorkerId, token: Token, now: Seconds,
        indexReadable: bool, writes: nat): (Disk, Reply)
  {
    var k := FindId(d.requests, id);
    if k == |d.requests| then (d, Failed(NotFound))
    else if d.requests[k].expiresAt < now then (d, Failed(RequestExpired))
    else if d.requests[k].status.Approved? then (d, Ok)
    else Enroll(d, k, worker, token, now, indexReadable, writes)
  }

  function ApproveByCode(d: Disk, code: string, worker: WorkerId, token: Token, now: Seconds,
        indexReadable: bool, writes: nat): (Disk, Reply)
  {
    var k := FindCode(d.requests, code);
    if k == |d.requests| then (d, Failed(NotFound))
    else if d.requests[k].expiresAt < now then (d, Failed(RequestExpired))
    else if !d.requests[k].status.Pending? then (d, Failed(NotPending))
    else Enroll(d, k, worker, token, now, indexReadable, writes)
  }

  // ---------------------------------------------------------------------------------------
  // Workers
  // ---------------------------------------------------------------------------------------

  function WithoutHash(index: map<Hash, WorkerId>, h: Hash): map<Hash, WorkerId> {
    if h.NoHash? then index else index - {h}
  }

  /** The index is written first: in between, neither the old nor the new token is accepted. */
  function Rotate(d: Disk, worker: WorkerId, token: Token, now: Seconds, writes: nat): (Disk, Reply) {
    if worker == "" then (d, Failed(InvalidId))
    else if worker !in d.records then (d, Failed(NotFound))
    else
      var rec := d.records[worker];
      var d1 := d.(index := WithoutHash(d.index, rec.hash)[Sha(token) := worker]);
      var d2 := d1.(records := d.records[worker := rec.(hash := Sha(token), updatedAt := now)]);
      if writes == 0 then (d, Failed(WriteFailed))
      else if writes == 1 then (d1, Failed(WriteFailed))
      else (d2, Rotated(token))
  }

  /** The index write may fail without stopping the operation; indexWritten and recordRemoved
      say which of the two changes reached the disk. */
  function Delete(d: Disk, worker: WorkerId, indexWritten: bool, recordRemoved: bool): (Disk, Reply) {
    if worker == "" then (d, Failed(InvalidId))
    else if worker !in d.records then (d, Failed(NotFound))
    else
      var d1 := if indexWritten then d.(index := WithoutHash(d.index, d.records[worker].hash)) else d;
      if recordRemoved then (d1.(records := d1.records - {worker}), Ok) else (d1, Failed(WriteFailed))
  }

  function Validate(d: Disk, token: Token): Reply {
    if token == "" then Failed(Unauthorized)
    else
      var worker := Lookup(d.index, Sha(token), "");
      if worker == "" then Failed(Unauthorized)
      else if worker !in d.records then Failed(Unauthorized)
      else if d.records[worker].hash != Sha(token) then Failed(Unauthorized)
      else Valid(d.records[worker].id)
  }

  predicate Accepts(d: Disk, token: Token) {
    Validate(d, token).Valid?
  }

  // ---------------------------------------------------------------------------------------
  // The store, in place
  // ---------------------------------------------------------------------------------------

  class WorkerConfigStore {
    var requests: seq<Request>
    var records: map<WorkerId, Record>
    var index: map<Hash, WorkerId>

    ghost function OnDisk(): Disk
      reads this
    {
      Disk(requests, records, index)
    }

    constructor ()
      ensures OnDisk() == EMPTY_DISK
    {
      requests, records, index := [], map[], map[];
    }

    method CreatePairingRequest(id: RequestId, code: string, secret: Token, labels: seq<string>,
            now: Seconds, readable: bool, writes: nat)
        returns (reply: Reply)
      modifies this`requests
      ensures (OnDisk(), reply) == Create(old(OnDisk()), id, code, secret, labels, now, readable, writes)
      ensures reply.Ok? ==>
                var n := |requests| - 1;
                && n >= 0 && requests[n] == Request(id, code, Sha(secret), labels, Pending, now, now + 900, "")
                && forall i | 0 <= i < n :: readable && requests[i] in old(requests) && requests[i].expiresAt > now
      ensures !reply.Ok? ==> reply == Failed(WriteFailed) && requests == old(requests)
    {
      var req := Request(id, code, Sha(secret), labels, Pending, now, now + PAIRING_TTL, "");
      var file: seq<Request> := [];
      if readable {
        file := requests;
      }
      var valid: seq<Request> := [];
      var i := 0;
      while i < |file|
        invariant 0 <= i <= |file| && requests == old(requests)
        invariant valid == Unexpired(file[..i], now)
      {
        UnexpiredSnoc(file, now, i);
        if file[i].expiresAt > now {
          valid := valid + [file[i]];
        }
        i := i + 1;
      }
      assert file[..i] == file;
      UnexpiredExactly(file, now);
      valid := valid + [req];
      if writes == 0 {
        return Failed(WriteFailed);
      }
      requests := valid;
      reply := Ok;
    }

    method IndexIn(keys: seq<string>, key: string) returns (k: nat)
      ensures k == Find(keys, key)
    {
      k := 0;
      while k < |keys|
        invariant 0 <= k <= |keys|
        invariant Find(keys, key) == k + Find(keys[k..], key)
      {
        if keys[k] == key {
          return;
        }
        k := k + 1;
      }
    }

    method PollPairingRequest(id: RequestId, secret: Token, now: Seconds, writes: nat) returns (reply: Reply)
      modifies this`requests
      ensures (OnDisk(), reply) == Poll(old(OnDisk()), id, secret, now, writes)
      ensures reply.Polled? ==> exists r | r in old(requests) ::
                r.id == id && r.secretHash == Sha(secret) && now <= r.expiresAt && reply == Polled(r.status, r.token)
      ensures requests != old(requests) ==> reply.Polled? && reply.status.Approved? && reply.token != ""
    {
      var k := IndexIn(Ids(requests), id);
      if k == |requests| {
        return Failed(NotFound);
      }
      var found := requests[k];
      if found.secretHash != Sha(secret) {
        return Failed(Unauthorized);
      }
      if found.expiresAt < now {
        return Expired;
      }
      if found.status == Approved && found.token != "" {
        if writes == 0 {
          return Failed(WriteFailed);
        }
        requests := requests[..k] + requests[k + 1..];
      }
      reply := Polled(found.status, found.token);
    }

    method ApprovePairingRequest(id: RequestId, worker: WorkerId, token: Token, now: Seconds,
            indexReadable: bool, writes: nat)
        returns (reply: Reply)
      modifies this
      ensures (OnDisk(), reply) == ApproveById(old(OnDisk()), id, worker, token, now, indexReadable, writes)
    {
      var k := IndexIn(Ids(requests), id);
      if k == |requests| {
        return Failed(NotFound);
      }
      if requests[k].expiresAt < now {
        return Failed(RequestExpired);
      }
      if requests[k].status == Approved {
        return Ok;
      }
      reply := EnrollWorker(k, worker, token, now, indexReadable, writes);
    }

    method ApprovePairingRequestByCode(code: string, worker: WorkerId, token: Token, now: Seconds,
            indexReadable: bool, writes: nat)
        returns (reply: Reply)
      modifies this
      ensures (OnDisk(), reply) == ApproveByCode(old(OnDisk()), code, worker, token, now, indexReadable, writes)
    {
      var k := IndexIn(Codes(requests), code);
      if k == |requests| {
        return Failed(NotFound);
      }
      if requests[k].expiresAt < now {
        return Failed(RequestExpired);
      }
      if requests[k].status != Pending {
        return Failed(NotPending);
      }
      reply := EnrollWorker(k, worker, token, now, indexReadable, writes);
    }

    method EnrollWorker(k: nat, worker: WorkerId, token: Token, now: Seconds, indexReadable: bool, writes: nat)
        returns (reply: Reply)
      requires k < |requests|
      modifies this
      ensures (OnDisk(), reply) == Enroll(old(OnDisk()), k, worker, token, now, indexReadable, writes)
      ensures writes >= 1 ==>
                worker in records && records[worker] == Record(worker, Sha(token), old(requests)[k].labels, now, now)
      ensures writes <= 1 ==> index == old(index) && requests == old(requests)
      ensures writes >= 2 ==> Sha(token) in index && index[Sha(token)] == worker
      ensures writes == 2 ==> requests == old(requests)
      ensures reply.Ok? <==> writes >= 3
      ensures reply.Ok? ==> requests == old(requests)[k := old(requests)[k].(status := Approved, token := token)]
    {
      if writes == 0 {
        return Failed(WriteFailed);
      }
      records := records[worker := Record(worker, Sha(token), requests[k].labels, now, now)];
      var read: map<Hash, WorkerId> := map[];
      if indexReadable {
        read := index;
      }
      if writes == 1 {
        return Failed(WriteFailed);
      }
      index := read[Sha(token) := worker];
      if writes == 2 {
        return Failed(WriteFailed);
      }
      requests := requests[k := requests[k].(status := Approved, token := token)];
      reply := Ok;
    }

    method RejectPairingRequest(id: RequestId, writes: nat) returns (reply: Reply)
      modifies this`requests
      ensures (OnDisk(), reply) == Reject(old(OnDisk()), id, writes)
      ensures |requests| == |old(requests)|
      ensures forall i | 0 <= i < |requests| && requests[i] != old(requests)[i] ::
                reply.Ok? && requests[i].id == id && requests[i] == old(requests)[i].(status := Rejected)
      ensures reply.Ok? ==> exists r | r in requests :: r.id == id && r.status.Rejected?
      ensures reply.Ok? <==> writes >= 1 && exists r | r in old(requests) :: r.id == id
    {
      var k := IndexIn(Ids(requests), id);
      if k == |requests| {
        return Failed(NotFound);
      }
      if writes == 0 {
        return Failed(WriteFailed);
      }
      requests := requests[k := requests[k].(status := Rejected)];
      reply := Ok;
    }

    method RotateWorkerToken(worker: WorkerId, token: Token, now: Seconds, writes: nat) returns (reply: Reply)
      modifies this`index, this`records
      ensures (OnDisk(), reply) == Rotate(old(OnDisk()), worker, token, now, writes)
      ensures reply.Rotated? ==> reply.token == token && worker in records && records[worker].hash == Sha(token)
                                 && Sha(token) in index && index[Sha(token)] == worker
      ensures index != old(index) && worker in old(records)
                && old(records)[worker].hash != Sha(token) && old(records)[worker].hash.Sha? ==>
                old(records)[worker].hash !in index
      ensures records.Keys == old(records.Keys)
      ensures forall v | v in records && v != worker :: records[v] == old(records)[v]
      ensures records != old(records) ==> Sha(token) in index && index[Sha(token)] == worker
      ensures writes == 1 ==> records == old(records)
      ensures worker in old(records) && worker != "" && writes >= 1 ==> Sha(token) in index
      ensures reply.Rotated? <==> worker != "" && worker in old(records) && writes >= 2
      ensures reply.Rotated? ==> records[worker] == old(records)[worker].(hash := Sha(token), updatedAt := now)
      ensures forall h | h in old(index) && h !in index :: worker in old(records) && h == old(records)[worker].hash
      ensures forall h | h in index && h != Sha(token) :: h in old(index) && index[h] == old(index)[h]
    {
      if worker == "" {
        return Failed(InvalidId);
      }
      if worker !in records {
        return Failed(NotFound);
      }
      var rec := records[worker];
      var read := index;
      if rec.hash != NoHash {
        read := read - {rec.hash};
      }
      read := read[Sha(token) := worker];
      if writes == 0 {
        return Failed(WriteFailed);
      }
      index := read;
      if writes == 1 {
        return Failed(WriteFailed);
      }
      records := records[worker := rec.(hash := Sha(token), updatedAt := now)];
      reply := Rotated(token);
    }

    method DeleteWorker(worker: WorkerId, indexWritten: bool, recordRemoved: bool) returns (reply: Reply)
      modifies this`index, this`records
      ensures (OnDisk(), reply) == Delete(old(OnDisk()), worker, indexWritten, recordRemoved)
      ensures reply.Ok? ==> worker !in records
      ensures reply.Ok? <==> worker != "" && worker in old(records) && recordRemoved
      ensures !indexWritten ==> index == old(index)
      ensures worker in old(records) && worker != "" && indexWritten && old(records)[worker].hash.Sha? ==>
                old(records)[worker].hash !in index
      ensures forall v | v in old(records) && v != worker :: v in records && records[v] == old(records)[v]
      ensures forall h | h in old(index) && h !in index :: worker in old(records) && h == old(records)[worker].hash
    {
      if worker == "" {
        return Failed(InvalidId);
      }
      if worker !in records {
        return Failed(NotFound);
      }
      var rec := records[worker];
      if rec.hash != NoHash && indexWritten {
        index := index - {rec.hash};
      }
      if !recordRemoved {
        return Failed(WriteFailed);
      }
      records := records - {worker};
      reply := Ok;
    }

    method ValidateWorkerToken(token: Token) returns (reply: Reply)
      ensures reply == Validate(OnDisk(), token)
      ensures reply.Valid? <==>
                && token != "" && Sha(token) in index && index[Sha(token)] != ""
                && index[Sha(token)] in records && records[index[Sha(token)]].hash == Sha(token)
      ensures reply.Valid? ==> reply.worker == records[index[Sha(token)]].id
      ensures !reply.Valid? ==> reply == Failed(Unauthorized)
    {
      if token == "" {
        return Failed(Unauthorized);
      }
      var worker := Lookup(index, Sha(token), "");
      if worker == "" {
        return Failed(Unauthorized);
      }
      if worker !in records {
        return Failed(Unauthorized);
      }
      var rec := records[worker];
      if rec.hash != Sha(token) {
        return Failed(Unauthorized);
      }
      reply := Valid(rec.id);
    }

    /** The open requests with their token and secret hash blanked, newest first. */
    method ListPairingRequests(now: Seconds) returns (out: seq<Request>)
      ensures multiset(out) == multiset(Redacted(Unexpired(requests, now)))
      ensures forall i, j | 0 <= i < j < |out| :: out[i].createdAt >= out[j].createdAt
      ensures forall r | r in out :: r.token == "" && r.secretHash == NoHash && r.expiresAt > now
    {
      out := [];
      var i := 0;
      while i < |requests|
        invariant 0 <= i <= |requests|
        invariant multiset(out) == multiset(Redacted(Unexpired(requests[..i], now)))
        invariant NewestFirst(out)
        invariant forall r | r in out :: r.token == "" && r.secretHash == NoHash && r.expiresAt > now
      {
        UnexpiredSnoc(requests, now, i);
        if requests[i].expiresAt > now {
          var r := requests[i].(token := "", secretHash := NoHash);
          RedactedSnoc(Unexpired(requests[..i], now), requests[i]);
          InsertKeepsAll(out, r);
          InsertKeepsOrder(out, r);
          out := InsertByAge(out, r);
        }
        i := i + 1;
      }
      assert requests[..i] == requests;
    }
  }

  // ---------------------------------------------------------------------------------------
  // Listing
  // ---------------------------------------------------------------------------------------

  function Redacted(rs: seq<Request>): seq<Request> {
    seq(|rs|, i requires 0 <= i < |rs| => rs[i].(token := "", secretHash := NoHash))
  }

  predicate NewestFirst(rs: seq<Request>) {
    forall i, j | 0 <= i < j < |rs| :: rs[i].createdAt >= rs[j].createdAt
  }

  /** Stands for the library sort: a place for r among requests already in order. */
  function InsertByAge(rs: seq<Request>, r: Request): seq<Request> {
    if rs == [] || r.createdAt > rs[0].createdAt then [r] + rs else [rs[0]] + InsertByAge(rs[1..], r)
  }

  lemma {:induction false} InsertKeepsAll(rs: seq<Request>, r: Request)
    ensures multiset(InsertByAge(rs, r)) == multiset(rs) + multiset{r}
    ensures forall x | x in InsertByAge(rs, r) :: x == r || x in rs
  {
    if rs != [] && r.createdAt <= rs[0].createdAt {
      InsertKeepsAll(rs[1..], r);
      assert rs == [rs[0]] + rs[1..];
    }
  }

  lemma {:induction false} InsertKeepsOrder(rs: seq<Request>, r: Request)
    requires NewestFirst(rs)
    ensures NewestFirst(InsertByAge(rs, r))
    ensures forall i | 0 <= i < |InsertByAge(rs, r)| ::
              InsertByAge(rs, r)[i].createdAt
                <= (if rs == [] || r.createdAt > rs[0].createdAt then r.createdAt else rs[0].createdAt)
  {
    if rs != [] && r.createdAt <= rs[0].createdAt {
      assert NewestFirst(rs[1..]);
      InsertKeepsOrder(rs[1..], r);
    }
  }

  lemma RedactedSnoc(rs: seq<Request>, r: Request)
    ensures Redacted(rs + [r]) == Redacted(rs) + [r.(token := "", secretHash := NoHash)]
  {
  }

  lemma {:induction false} UnexpiredExactly(rs: seq<Request>, now: Seconds)
    ensures forall r | r in Unexpired(rs, now) :: r in rs && r.expiresAt > now
    ensures forall r | r in rs && r.expiresAt > now :: r in Unexpired(rs, now)
  {
    if rs != [] {
      UnexpiredExactly(rs[1..], now);
    }
  }

  lemma UnexpiredSnoc(rs: seq<Request>, now: Seconds, i: nat)
    requires i < |rs|
    ensures Unexpired(rs[..i + 1], now) ==
            if rs[i].expiresAt > now then Unexpired(rs[..i], now) + [rs[i]] else Unexpired(rs[..i], now)
  {
    assert rs[..i + 1] == rs[..i] + [rs[i]];
    UnexpiredSum(rs[..i], [rs[i]], now);
  }

  lemma {:induction false} UnexpiredSum(a: seq<Request>, b: seq<Request>, now: Seconds)
    ensures Unexpired(a + b, now) == Unexpired(a, now) + Unexpired(b, now)
  {
    if a == [] {
      assert a + b == b;
    } else {
      assert (a + b)[1..] == a[1..] + b;
      UnexpiredSum(a[1..], b, now);
    }
  }
}

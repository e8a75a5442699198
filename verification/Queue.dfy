// The in-memory lease queue: a dictionary of rows in insertion order.

module Queue {
  import opened Json
  import opened Domain

  const MAX_ATTEMPTS := 3

  datatype Row = Row(
    taskId: Text,
    priority: int,
    availableAt: Time,
    idempotencyKey: Text,
    claimedBy: Option<Text>,
    leaseExpiresAt: Option<Time>,
    attempt: nat)

  type Rows = seq<Row>

  datatype Lease = Lease(taskId: Text, workerId: Text, expiresAt: Time, attempt: nat)

  datatype FailureResult = FailureResult(taskId: Text, retryAt: Option<Time>, terminal: bool)

  datatype Step<+T> = Step(rows: Rows, out: Outcome<T>)

  /******* The dictionary *******/

  function Find(q: Rows, taskId: Text): Option<Row> {
    if q == [] then None
    else if q[0].taskId == taskId then Some(q[0])
    else Find(q[1..], taskId)
  }

  function Remove(q: Rows, taskId: Text): Rows {
    if q == [] then []
    else if q[0].taskId == taskId then q[1..]
    else [q[0]] + Remove(q[1..], taskId)
  }

  function Replace(q: Rows, row: Row): Rows {
    if q == [] then []
    else if q[0].taskId == row.taskId then [row] + q[1..]
    else [q[0]] + Replace(q[1..], row)
  }

  // A dictionary has one row for a key.
  ghost predicate Unique(q: Rows) {
    q != [] ==> Find(q[1..], q[0].taskId).None? && Unique(q[1..])
  }

  /******* Operations *******/

  predicate Candidate(r: Row, now: Time) { r.availableAt <= now && r.claimedBy.None? }

  predicate Before(a: Row, b: Row) {
    a.priority > b.priority || (a.priority == b.priority && a.availableAt < b.availableAt)
  }

  // The row the stable sort by (-priority, available_at) puts first.
  function First(q: Rows, now: Time): Option<Row> {
    if q == [] then None
    else
      var f := First(q[1..], now);
      if Candidate(q[0], now) && (f.None? || !Before(f.value, q[0])) then Some(q[0]) else f
  }

  function Enqueue(q: Rows, taskId: Text, priority: int, availableAt: Time, key: Text): Step<bool> {
    match Find(q, taskId)
    case Some(r) =>
      if r.idempotencyKey == key && r.priority == priority && r.availableAt == availableAt
      then Step(q, Ok(false))
      else Step(q, Err(IdempotencyConflict))
    case None => Step(q + [Row(taskId, priority, availableAt, key, None, None, 0)], Ok(true))
  }

  function Claimed(r: Row, workerId: Text, expiresAt: Time): Row {
    r.(claimedBy := Some(workerId), leaseExpiresAt := Some(expiresAt), attempt := r.attempt + 1)
  }

  function Claim(q: Rows, workerId: Text, now: Time, duration: int): Step<Option<Lease>> {
    match First(q, now)
    case None => Step(q, Ok(None))
    case Some(best) =>
      var r := Claimed(best, workerId, now + duration);
      Step(Replace(q, r), Ok(Some(Lease(r.taskId, workerId, now + duration, r.attempt))))
  }

  predicate Expired(r: Row, now: Time) { r.leaseExpiresAt.Some? && r.leaseExpiresAt.value <= now }

  function Released(r: Row, availableAt: Time): Row {
    r.(claimedBy := None, leaseExpiresAt := None, availableAt := availableAt)
  }

  function RecoverRows(q: Rows, now: Time): Rows {
    if q == [] then []
    else if !Expired(q[0], now) then [q[0]] + RecoverRows(q[1..], now)
    else if q[0].attempt >= MAX_ATTEMPTS then RecoverRows(q[1..], now)
    else [Released(q[0], now)] + RecoverRows(q[1..], now)
  }

  function RecoverResult(r: Row, now: Time): FailureResult {
    if r.attempt >= MAX_ATTEMPTS then FailureResult(r.taskId, None, true)
    else FailureResult(r.taskId, Some(now), false)
  }

  function RecoverResults(q: Rows, now: Time): seq<FailureResult> {
    if q == [] then []
    else if Expired(q[0], now) then [RecoverResult(q[0], now)] + RecoverResults(q[1..], now)
    else RecoverResults(q[1..], now)
  }

  // The worker owns the row and its lease has not expired.
  predicate Current(r: Row, workerId: Text, now: Time) {
    r.claimedBy == Some(workerId) && r.leaseExpiresAt.Some? && r.leaseExpiresAt.value > now
  }

  predicate Holds(q: Rows, taskId: Text, workerId: Text, now: Time) {
    Find(q, taskId).Some? && Current(Find(q, taskId).value, workerId, now)
  }

  function Heartbeat(q: Rows, taskId: Text, workerId: Text, now: Time, duration: int): Step<Lease> {
    if !Holds(q, taskId, workerId, now) then Step(q, Err(LeaseLost))
    else
      var r := Find(q, taskId).value;
      Step(Replace(q, r.(leaseExpiresAt := Some(now + duration))),
           Ok(Lease(taskId, workerId, now + duration, r.attempt)))
  }

  function Complete(q: Rows, taskId: Text, workerId: Text, now: Time): Step<()> {
    if !Holds(q, taskId, workerId, now) then Step(q, Err(LeaseLost))
    else Step(Remove(q, taskId), Ok(()))
  }

  // attempt is at least 1 on a claimed row, so the exponent is never negative.
  function Pow2(n: int): nat { if n <= 0 then 1 else 2 * Pow2(n - 1) }

  function Backoff(attempt: nat): int {
    if 30 * Pow2(attempt - 1) <= 900 then 30 * Pow2(attempt - 1) else 900
  }

  function Fail(q: Rows, taskId: Text, workerId: Text, now: Time): Step<FailureResult> {
    if !Holds(q, taskId, workerId, now) then Step(q, Err(LeaseLost))
    else
      var r := Find(q, taskId).value;
      if r.attempt >= MAX_ATTEMPTS
      then Step(Remove(q, taskId), Ok(FailureResult(taskId, None, true)))
      else
        var retryAt := now + Backoff(r.attempt);
        Step(Replace(q, Released(r, retryAt)), Ok(FailureResult(taskId, Some(retryAt), false)))
  }

  /******* Commands *******/

  datatype Command =
    | EnqueueRow(taskId: Text, priority: int, availableAt: Time, key: Text)
    | ClaimRow(workerId: Text, now: Time, duration: int)
    | RecoverExpired(now: Time)
    | HeartbeatRow(taskId: Text, workerId: Text, now: Time, duration: int)
    | CompleteRow(taskId: Text, workerId: Text, now: Time)
    | FailRow(taskId: Text, workerId: Text, now: Time, error: Text)

  datatype Reply =
    | Enqueued(created: bool)
    | Leased(lease: Option<Lease>)
    | Recovered(results: seq<FailureResult>)
    | Beaten(beat: Lease)
    | Completed
    | Failed(result: FailureResult)
    | Raised(error: Error)

  function Execute(q: Rows, c: Command): (Rows, Reply) {
    match c
    case EnqueueRow(t, p, at, key) =>
      var s := Enqueue(q, t, p, at, key);
      (s.rows, match s.out case Ok(b) => Enqueued(b) case Err(e) => Raised(e))
    case ClaimRow(w, now, d) =>
      var s := Claim(q, w, now, d);
      (s.rows, match s.out case Ok(l) => Leased(l) case Err(e) => Raised(e))
    case RecoverExpired(now) => (RecoverRows(q, now), Recovered(RecoverResults(q, now)))
    case HeartbeatRow(t, w, now, d) =>
      var s := Heartbeat(q, t, w, now, d);
      (s.rows, match s.out case Ok(l) => Beaten(l) case Err(e) => Raised(e))
    case CompleteRow(t, w, now) =>
      var s := Complete(q, t, w, now);
      (s.rows, match s.out case Ok(_) => Completed case Err(e) => Raised(e))
    case FailRow(t, w, now, _) =>
      var s := Fail(q, t, w, now);
      (s.rows, match s.out case Ok(r) => Failed(r) case Err(e) => Raised(e))
  }

  function Run(q: Rows, cs: seq<Command>): Rows {
    if cs == [] then q else Execute(Run(q, cs[..|cs| - 1]), cs[|cs| - 1]).0
  }

  /******* Reachable queues *******/

  ghost predicate RowOk(r: Row) {
    && (r.claimedBy.Some? <==> r.leaseExpiresAt.Some?)
    && (if r.claimedBy.Some? then 1 <= r.attempt <= 3 else r.attempt <= 2)
  }

  ghost predicate QueueOk(q: Rows) {
    Unique(q) && forall id | Find(q, id).Some? :: RowOk(Find(q, id).value)
  }

  lemma {:induction false} FindId(q: Rows, id: Text)
    ensures Find(q, id).Some? ==> Find(q, id).value.taskId == id
  {
    if q != [] { FindId(q[1..], id); }
  }

  lemma {:induction false} FindReplace(q: Rows, row: Row, id: Text)
    requires Unique(q)
    ensures Unique(Replace(q, row))
    ensures Find(Replace(q, row), id)
         == if id == row.taskId && Find(q, id).Some? then Some(row) else Find(q, id)
  {
    if q != [] && q[0].taskId != row.taskId {
      FindReplace(q[1..], row, q[0].taskId);
      FindReplace(q[1..], row, id);
    }
  }

  lemma {:induction false} FindRemove(q: Rows, taskId: Text, id: Text)
    requires Unique(q)
    ensures Unique(Remove(q, taskId))
    ensures Find(Remove(q, taskId), id) == if id == taskId then None else Find(q, id)
  {
    if q != [] && q[0].taskId != taskId {
      FindRemove(q[1..], taskId, q[0].taskId);
      FindRemove(q[1..], taskId, id);
    }
  }

  lemma {:induction false} FindAppend(q: Rows, row: Row, id: Text)
    requires Unique(q) && Find(q, row.taskId).None?
    ensures Unique(q + [row])
    ensures Find(q + [row], id) == if id == row.taskId then Some(row) else Find(q, id)
  {
    if q != [] {
      assert (q + [row])[1..] == q[1..] + [row];
      FindAppend(q[1..], row, q[0].taskId);
      FindAppend(q[1..], row, id);
    }
  }

  function Recovery(r: Option<Row>, now: Time): Option<Row> {
    if r.None? || !Expired(r.value, now) then r
    else if r.value.attempt >= MAX_ATTEMPTS then None
    else Some(Released(r.value, now))
  }

  lemma {:induction false} FindRecover(q: Rows, now: Time, id: Text)
    requires Unique(q)
    ensures Unique(RecoverRows(q, now))
    ensures Find(RecoverRows(q, now), id) == Recovery(Find(q, id), now)
  {
    if q != [] {
      FindRecover(q[1..], now, q[0].taskId);
      FindRecover(q[1..], now, id);
    }
  }

  lemma {:induction false} FirstFound(q: Rows, now: Time)
    requires Unique(q) && First(q, now).Some?
    ensures Candidate(First(q, now).value, now)
    ensures Find(q, First(q, now).value.taskId) == First(q, now)
  {
    if First(q[1..], now).Some? { FirstFound(q[1..], now); }
  }

  // What one command does to one row.
  function Effect(q: Rows, c: Command, id: Text): Option<Row> {
    var r := Find(q, id);
    match c
    case EnqueueRow(t, p, at, key) => if t == id && r.None? then Some(Row(t, p, at, key, None, None, 0)) else r
    case ClaimRow(w, now, d) => if r.Some? && First(q, now) == r then Some(Claimed(r.value, w, now + d)) else r
    case RecoverExpired(now) => Recovery(r, now)
    case HeartbeatRow(t, w, now, d) =>
      if t == id && Holds(q, t, w, now) then Some(r.value.(leaseExpiresAt := Some(now + d))) else r
    case CompleteRow(t, w, now) => if t == id && Holds(q, t, w, now) then None else r
    case FailRow(t, w, now, _) =>
      if !(t == id && Holds(q, t, w, now)) then r
      else if r.value.attempt >= MAX_ATTEMPTS then None
      else Some(Released(r.value, now + Backoff(r.value.attempt)))
  }

  lemma EnqueueRowEffect(q: Rows, t: Text, p: int, at: Time, key: Text, id: Text)
    requires Unique(q)
    ensures Unique(Enqueue(q, t, p, at, key).rows)
    ensures Find(Enqueue(q, t, p, at, key).rows, id) == Effect(q, EnqueueRow(t, p, at, key), id)
  {
    if Find(q, t).None? { FindAppend(q, Row(t, p, at, key, None, None, 0), id); }
  }

  lemma ClaimRowEffect(q: Rows, w: Text, now: Time, d: int, id: Text)
    requires Unique(q)
    ensures Unique(Claim(q, w, now, d).rows)
    ensures Find(Claim(q, w, now, d).rows, id) == Effect(q, ClaimRow(w, now, d), id)
  {
    FindId(q, id);
    if First(q, now).Some? {
      FirstFound(q, now);
      FindReplace(q, Claimed(First(q, now).value, w, now + d), id);
    }
  }

  lemma HeartbeatRowEffect(q: Rows, t: Text, w: Text, now: Time, d: int, id: Text)
    requires Unique(q)
    ensures Unique(Heartbeat(q, t, w, now, d).rows)
    ensures Find(Heartbeat(q, t, w, now, d).rows, id) == Effect(q, HeartbeatRow(t, w, now, d), id)
  {
    if Holds(q, t, w, now) {
      FindId(q, t);
      FindReplace(q, Find(q, t).value.(leaseExpiresAt := Some(now + d)), id);
    }
  }

  lemma FailRowEffect(q: Rows, t: Text, w: Text, now: Time, e: Text, id: Text)
    requires Unique(q)
    ensures Unique(Fail(q, t, w, now).rows)
    ensures Find(Fail(q, t, w, now).rows, id) == Effect(q, FailRow(t, w, now, e), id)
  {
    if Holds(q, t, w, now) {
      FindId(q, t);
      var r := Find(q, t).value;
      FindRemove(q, t, id);
      FindReplace(q, Released(r, now + Backoff(r.attempt)), id);
    }
  }

  // Every command touches one row at most, except recovery, which treats each
  // expired row by itself.
  lemma ExecuteRow(q: Rows, c: Command, id: Text)
    requires Unique(q)
    ensures Unique(Execute(q, c).0)
    ensures Find(Execute(q, c).0, id) == Effect(q, c, id)
  {
    match c
    case EnqueueRow(t, p, at, key) => EnqueueRowEffect(q, t, p, at, key, id);
    case ClaimRow(w, now, d) => ClaimRowEffect(q, w, now, d, id);
    case RecoverExpired(now) => FindRecover(q, now, id);
    case HeartbeatRow(t, w, now, d) => HeartbeatRowEffect(q, t, w, now, d, id);
    case CompleteRow(t, w, now) => FindRemove(q, t, id);
    case FailRow(t, w, now, e) => FailRowEffect(q, t, w, now, e, id);
  }

  lemma EffectOk(q: Rows, c: Command, id: Text)
    requires QueueOk(q) && Effect(q, c, id).Some?
    ensures RowOk(Effect(q, c, id).value)
  {
    if c.ClaimRow? && First(q, c.now).Some? { FirstFound(q, c.now); }
  }

  lemma ExecuteKeeps(q: Rows, c: Command)
    requires QueueOk(q)
    ensures QueueOk(Execute(q, c).0)
  {
    ExecuteRow(q, c, []);
    forall id | Find(Execute(q, c).0, id).Some? ensures RowOk(Find(Execute(q, c).0, id).value) {
      ExecuteRow(q, c, id);
      EffectOk(q, c, id);
    }
  }

  // From the empty queue, by any commands: an unclaimed row has made at most two
  // attempts and a claimed one between one and three.
  lemma {:induction false} RunKeeps(cs: seq<Command>)
    ensures QueueOk(Run([], cs))
  {
    if cs != [] {
      RunKeeps(cs[..|cs| - 1]);
      ExecuteKeeps(Run([], cs[..|cs| - 1]), cs[|cs| - 1]);
    }
  }
}

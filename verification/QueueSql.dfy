// The SQL queue as the specification of the in-memory one: every command sequence
// on the dictionary is a command sequence the SQL statements permit.

module QueueSql {
  import opened Json
  import opened Domain
  import opened Queue

  datatype SqlState = READY | LEASED

  datatype SqlRow = SqlRow(
    state: SqlState,
    priority: int,
    availableAt: Time,
    claimedBy: Option<Text>,
    claimedAt: Option<Time>,
    leaseExpiresAt: Option<Time>,
    attempt: nat,
    maxAttempts: nat,
    lastError: Option<Text>,
    idempotencyKey: Text)

  type Table = map<Text, SqlRow>

  /******* The statements *******/

  predicate Ready(r: SqlRow, now: Time) { r.state == READY && r.availableAt <= now && r.attempt < r.maxAttempts }

  // ORDER BY priority DESC, available_at ASC
  predicate Precedes(a: SqlRow, b: SqlRow) {
    a.priority > b.priority || (a.priority == b.priority && a.availableAt < b.availableAt)
  }

  // WHERE task_id = .. AND state = 'leased' AND claimed_by = .. AND lease_expires_at > now
  predicate Owned(t: Table, id: Text, w: Text, now: Time) {
    && id in t && t[id].state == LEASED && t[id].claimedBy == Some(w)
    && t[id].leaseExpiresAt.Some? && t[id].leaseExpiresAt.value > now
  }

  predicate Overdue(r: SqlRow, now: Time) {
    r.state == LEASED && r.leaseExpiresAt.Some? && r.leaseExpiresAt.value <= now
  }

  function Lease1(r: SqlRow, w: Text, now: Time, expires: Time): SqlRow {
    r.(state := LEASED, claimedBy := Some(w), claimedAt := Some(now), leaseExpiresAt := Some(expires),
       attempt := r.attempt + 1)
  }

  function Free(r: SqlRow, availableAt: Time): SqlRow {
    r.(state := READY, claimedBy := None, claimedAt := None, leaseExpiresAt := None, availableAt := availableAt)
  }

  function RecoverTable(t: Table, now: Time): Table {
    map id | id in t && !(Overdue(t[id], now) && t[id].attempt >= t[id].maxAttempts) ::
      if Overdue(t[id], now) then Free(t[id], now) else t[id]
  }

  function Recovery1(t: Table, id: Text, now: Time): FailureResult
    requires id in t
  {
    if t[id].attempt >= t[id].maxAttempts then FailureResult(id, None, true) else FailureResult(id, Some(now), false)
  }

  ghost predicate NoRepeats<T>(s: seq<T>) { forall i, j | 0 <= i < j < |s| :: s[i] != s[j] }

  // The rows RETURNING reports, in whatever order.
  ghost predicate Returns(t: Table, now: Time, results: seq<FailureResult>) {
    && NoRepeats(results)
    && forall r :: r in results <==> r.taskId in t && Overdue(t[r.taskId], now) && r == Recovery1(t, r.taskId, now)
  }

  // One command on the table. The statement of claim leaves ties open.
  ghost predicate SqlStep(t: Table, c: Command, t': Table, reply: Reply) {
    match c
    case EnqueueRow(id, p, at, key) =>
      if id in t then
        && t' == t
        && reply == if t[id].idempotencyKey == key && t[id].priority == p && t[id].availableAt == at
                    then Enqueued(false) else Raised(IdempotencyConflict)
      else t' == t[id := SqlRow(READY, p, at, None, None, None, 0, 3, None, key)] && reply == Enqueued(true)
    case ClaimRow(w, now, d) =>
      || (t' == t && reply == Leased(None) && forall id | id in t :: !Ready(t[id], now))
      || exists id | id in t ::
           && Ready(t[id], now)
           && (forall o | o in t && Ready(t[o], now) :: !Precedes(t[o], t[id]))
           && t' == t[id := Lease1(t[id], w, now, now + d)]
           && reply == Leased(Some(Lease(id, w, now + d, t[id].attempt + 1)))
    case RecoverExpired(now) =>
      t' == RecoverTable(t, now) && reply.Recovered? && Returns(t, now, reply.results)
    case HeartbeatRow(id, w, now, d) =>
      if Owned(t, id, w, now) then
        && t' == t[id := t[id].(leaseExpiresAt := Some(now + d))]
        && reply == Beaten(Lease(id, w, now + d, t[id].attempt))
      else t' == t && reply == Raised(LeaseLost)
    case CompleteRow(id, w, now) =>
      if Owned(t, id, w, now) then t' == t - {id} && reply == Completed
      else t' == t && reply == Raised(LeaseLost)
    case FailRow(id, w, now, e) =>
      if !Owned(t, id, w, now) then t' == t && reply == Raised(LeaseLost)
      else if t[id].attempt >= t[id].maxAttempts then
        t' == t - {id} && reply == Failed(FailureResult(id, None, true))
      else
        var retryAt := now + Backoff(t[id].attempt);
        && t' == t[id := Free(t[id], retryAt).(lastError := Some(e))]
        && reply == Failed(FailureResult(id, Some(retryAt), false))
  }

  /******* The abstraction *******/

  // claimed_at and last_error have no counterpart in memory.
  ghost predicate Matches(r: Row, s: SqlRow) {
    && s.priority == r.priority && s.availableAt == r.availableAt && s.idempotencyKey == r.idempotencyKey
    && s.claimedBy == r.claimedBy && s.leaseExpiresAt == r.leaseExpiresAt && s.attempt == r.attempt
    && s.maxAttempts == MAX_ATTEMPTS
    && (s.state == LEASED <==> r.claimedBy.Some?)
  }

  ghost predicate RowMatches(o: Option<Row>, t: Table, id: Text) {
    && (o.Some? <==> id in t)
    && (o.Some? ==> Matches(o.value, t[id]))
  }

  ghost predicate Represents(q: Rows, t: Table) {
    forall id :: RowMatches(Find(q, id), t, id)
  }

  // Equal replies; recovery reports are compared as sets.
  ghost predicate SameReply(a: Reply, b: Reply) {
    if a.Recovered? && b.Recovered?
    then NoRepeats(a.results) && NoRepeats(b.results) && forall r :: r in a.results <==> r in b.results
    else a == b
  }

  /******* Simulation *******/

  lemma {:induction false} FirstNone(q: Rows, now: Time, id: Text)
    requires First(q, now).None? && Find(q, id).Some?
    ensures !Candidate(Find(q, id).value, now)
  {
    if q[0].taskId != id { FirstNone(q[1..], now, id); }
  }

  lemma {:induction false} FirstBeats(q: Rows, now: Time, id: Text)
    requires First(q, now).Some? && Find(q, id).Some? && Candidate(Find(q, id).value, now)
    ensures !Before(Find(q, id).value, First(q, now).value)
  {
    if q[0].taskId != id {
      if First(q[1..], now).None? { FirstNone(q[1..], now, id); } else { FirstBeats(q[1..], now, id); }
    } else if First(q[1..], now).Some? {
      FirstIsCandidate(q[1..], now);
    }
  }

  lemma {:induction false} FirstIsCandidate(q: Rows, now: Time)
    requires First(q, now).Some?
    ensures Candidate(First(q, now).value, now)
  {
    if First(q[1..], now).Some? { FirstIsCandidate(q[1..], now); }
  }

  lemma {:induction false} RecoveredIds(q: Rows, now: Time, r: FailureResult)
    requires Unique(q)
    ensures r in RecoverResults(q, now)
       <==> Find(q, r.taskId).Some? && Expired(Find(q, r.taskId).value, now)
            && r == RecoverResult(Find(q, r.taskId).value, now)
  {
    if q != [] {
      RecoveredIds(q[1..], now, r);
      FindId(q[1..], r.taskId);
    }
  }

  lemma {:induction false} RecoveredOnce(q: Rows, now: Time)
    requires Unique(q)
    ensures NoRepeats(RecoverResults(q, now))
  {
    if q != [] {
      RecoveredOnce(q[1..], now);
      RecoveredIds(q[1..], now, RecoverResult(q[0], now));
      NoRepeatsPrepend(RecoverResult(q[0], now), RecoverResults(q[1..], now));
    }
  }

  lemma NoRepeatsPrepend<T>(x: T, s: seq<T>)
    requires NoRepeats(s) && x !in s
    ensures NoRepeats([x] + s)
  {
    var u := [x] + s;
    forall i, j | 0 <= i < j < |u| ensures u[i] != u[j] {
      assert u[j] == s[j - 1];
    }
  }

  // The table the SQL queue moves to, taking the row the in-memory claim takes.
  function SqlAfter(q: Rows, t: Table, c: Command): Table {
    match c
    case EnqueueRow(id, p, at, key) =>
      if id in t then t else t[id := SqlRow(READY, p, at, None, None, None, 0, 3, None, key)]
    case ClaimRow(w, now, d) =>
      if First(q, now).None? || First(q, now).value.taskId !in t then t
      else var id := First(q, now).value.taskId; t[id := Lease1(t[id], w, now, now + d)]
    case RecoverExpired(now) => RecoverTable(t, now)
    case HeartbeatRow(id, w, now, d) =>
      if Owned(t, id, w, now) then t[id := t[id].(leaseExpiresAt := Some(now + d))] else t
    case CompleteRow(id, w, now) => if Owned(t, id, w, now) then t - {id} else t
    case FailRow(id, w, now, e) =>
      if !Owned(t, id, w, now) then t
      else if t[id].attempt >= t[id].maxAttempts then t - {id}
      else t[id := Free(t[id], now + Backoff(t[id].attempt)).(lastError := Some(e))]
  }

  lemma OwnershipAgrees(q: Rows, t: Table, id: Text, w: Text, now: Time)
    requires Represents(q, t)
    ensures Owned(t, id, w, now) <==> Holds(q, id, w, now)
  {
    assert RowMatches(Find(q, id), t, id);
  }

  lemma RowsAgree(q: Rows, t: Table, c: Command, id: Text)
    requires QueueOk(q) && Represents(q, t)
    ensures RowMatches(Effect(q, c, id), SqlAfter(q, t, c), id)
  {
    assert RowMatches(Find(q, id), t, id);
    if Find(q, id).Some? { assert RowOk(Find(q, id).value); }
    FindId(q, id);
    match c
    case EnqueueRow(i, _, _, _) =>
    case ClaimRow(_, now, _) =>
      if First(q, now).Some? {
        FirstFound(q, now);
        assert RowMatches(Find(q, First(q, now).value.taskId), t, First(q, now).value.taskId);
      }
    case RecoverExpired(_) =>
    case HeartbeatRow(i, w, now, _) => OwnershipAgrees(q, t, i, w, now);
    case CompleteRow(i, w, now) => OwnershipAgrees(q, t, i, w, now);
    case FailRow(i, w, now, _) => OwnershipAgrees(q, t, i, w, now);
  }

  lemma ClaimPermitted(q: Rows, t: Table, c: Command)
    requires QueueOk(q) && Represents(q, t) && c.ClaimRow?
    ensures SqlStep(t, c, SqlAfter(q, t, c), Execute(q, c).1)
  {
    var now := c.now;
    forall id | id in t
      ensures RowMatches(Find(q, id), t, id) && (Ready(t[id], now) <==> Candidate(Find(q, id).value, now))
    {
      assert RowMatches(Find(q, id), t, id);
      assert RowOk(Find(q, id).value);
    }
    if First(q, now).None? {
      forall id | id in t ensures !Ready(t[id], now) { FirstNone(q, now, id); }
    } else {
      FirstFound(q, now);
      var id := First(q, now).value.taskId;
      assert RowMatches(Find(q, id), t, id);
      forall o | o in t && Ready(t[o], now) ensures !Precedes(t[o], t[id]) { FirstBeats(q, now, o); }
    }
  }

  lemma RecoverPermitted(q: Rows, t: Table, now: Time)
    requires QueueOk(q) && Represents(q, t)
    ensures Returns(t, now, RecoverResults(q, now))
  {
    RecoveredOnce(q, now);
    forall r
      ensures r in RecoverResults(q, now)
         <==> r.taskId in t && Overdue(t[r.taskId], now) && r == Recovery1(t, r.taskId, now)
    {
      RecoveredIds(q, now, r);
      FindId(q, r.taskId);
      assert RowMatches(Find(q, r.taskId), t, r.taskId);
      if Find(q, r.taskId).Some? { assert RowOk(Find(q, r.taskId).value); }
    }
  }

  lemma StepPermitted(q: Rows, t: Table, c: Command)
    requires QueueOk(q) && Represents(q, t)
    ensures SqlStep(t, c, SqlAfter(q, t, c), Execute(q, c).1)
  {
    match c
    case EnqueueRow(i, _, _, _) => assert RowMatches(Find(q, i), t, i);
    case ClaimRow(_, _, _) => ClaimPermitted(q, t, c);
    case RecoverExpired(now) => RecoverPermitted(q, t, now);
    case HeartbeatRow(i, w, now, _) => OwnershipAgrees(q, t, i, w, now); assert RowMatches(Find(q, i), t, i);
    case CompleteRow(i, w, now) => OwnershipAgrees(q, t, i, w, now);
    case FailRow(i, w, now, _) => OwnershipAgrees(q, t, i, w, now); assert RowMatches(Find(q, i), t, i);
  }

  lemma StepRepresents(q: Rows, t: Table, c: Command)
    requires QueueOk(q) && Represents(q, t)
    ensures Represents(Execute(q, c).0, SqlAfter(q, t, c))
  {
    forall id ensures RowMatches(Find(Execute(q, c).0, id), SqlAfter(q, t, c), id) {
      ExecuteRow(q, c, id);
      RowsAgree(q, t, c, id);
    }
  }

  /******* Runs *******/

  function Replies(cs: seq<Command>): seq<Reply> {
    if cs == [] then []
    else var n := |cs| - 1; Replies(cs[..n]) + [Execute(Run([], cs[..n]), cs[n]).1]
  }

  // The tables of a run of the statements from the empty table.
  ghost predicate SqlRun(cs: seq<Command>, replies: seq<Reply>, ts: seq<Table>) {
    && |replies| == |cs| && |ts| == |cs| + 1 && ts[0] == map[]
    && forall i | 0 <= i < |cs| :: SqlStep(ts[i], cs[i], ts[i + 1], replies[i])
  }

  // Refinement: for every command sequence there is an SQL run with the same replies
  // that ends with the same rows.
  lemma {:induction false} MemoryRefinesSql(cs: seq<Command>) returns (ts: seq<Table>)
    ensures SqlRun(cs, Replies(cs), ts) && Represents(Run([], cs), ts[|cs|])
  {
    RepliesLength(cs);
    if cs == [] {
      ts := [map[]];
    } else {
      var n := |cs| - 1;
      ts := MemoryRefinesSql(cs[..n]);
      var q := Run([], cs[..n]);
      RunKeeps(cs[..n]);
      RepliesLength(cs[..n]);
      StepPermitted(q, ts[n], cs[n]);
      StepRepresents(q, ts[n], cs[n]);
      ExtendRun(cs, Replies(cs[..n]), ts, Execute(q, cs[n]).1, SqlAfter(q, ts[n], cs[n]));
      ts := ts + [SqlAfter(q, ts[n], cs[n])];
    }
  }

  lemma ExtendRun(cs: seq<Command>, replies: seq<Reply>, ts: seq<Table>, r: Reply, t: Table)
    requires cs != [] && SqlRun(cs[..|cs| - 1], replies, ts)
    requires SqlStep(ts[|cs| - 1], cs[|cs| - 1], t, r)
    ensures SqlRun(cs, replies + [r], ts + [t])
  {
    var n := |cs| - 1;
    forall i | 0 <= i < |cs| ensures SqlStep((ts + [t])[i], cs[i], (ts + [t])[i + 1], (replies + [r])[i]) {
      if i < n { assert SqlStep(ts[i], cs[..n][i], ts[i + 1], replies[i]); }
    }
  }

  lemma {:induction false} RepliesLength(cs: seq<Command>)
    ensures |Replies(cs)| == |cs|
  {
    if cs != [] { RepliesLength(cs[..|cs| - 1]); }
  }

  // Conversely the statements decide everything but the choice among tied claims and
  // the order of recovery reports: any SQL step on the same rows gives the same reply
  // and the same rows, unless it claims another row of equal rank.
  lemma SqlDecides(q: Rows, t: Table, c: Command, t': Table, reply: Reply)
    requires QueueOk(q) && Represents(q, t) && SqlStep(t, c, t', reply)
    ensures !c.ClaimRow? ==> SameReply(Execute(q, c).1, reply) && Represents(Execute(q, c).0, t')
    ensures c.ClaimRow? ==> (reply == Leased(None) <==> Execute(q, c).1 == Leased(None))
    ensures c.ClaimRow? && First(q, c.now).Some? && reply.Leased? && reply.lease.Some? ==>
              var id := reply.lease.value.taskId;
              && Find(q, id).Some? && Candidate(Find(q, id).value, c.now)
              && Find(q, id).value.priority == First(q, c.now).value.priority
              && Find(q, id).value.availableAt == First(q, c.now).value.availableAt
  {
    StepPermitted(q, t, c);
    StepRepresents(q, t, c);
    if c.ClaimRow? { ClaimDecided(q, t, c, t', reply); }
  }

  lemma ClaimDecided(q: Rows, t: Table, c: Command, t': Table, reply: Reply)
    requires QueueOk(q) && Represents(q, t) && c.ClaimRow? && SqlStep(t, c, t', reply)
    ensures reply == Leased(None) <==> Execute(q, c).1 == Leased(None)
    ensures First(q, c.now).Some? && reply.Leased? && reply.lease.Some? ==>
              var id := reply.lease.value.taskId;
              && Find(q, id).Some? && Candidate(Find(q, id).value, c.now)
              && Find(q, id).value.priority == First(q, c.now).value.priority
              && Find(q, id).value.availableAt == First(q, c.now).value.availableAt
  {
    if First(q, c.now).Some? {
      FirstFound(q, c.now);
      var best := First(q, c.now).value.taskId;
      assert RowMatches(Find(q, best), t, best);
      assert RowOk(First(q, c.now).value);
      assert Ready(t[best], c.now);
      var id := reply.lease.value.taskId;
      assert RowMatches(Find(q, id), t, id);
      FirstBeats(q, c.now, id);
    } else if reply != Leased(None) {
      var id := reply.lease.value.taskId;
      assert RowMatches(Find(q, id), t, id);
      FirstNone(q, c.now, id);
    }
  }

  // The filter attempt < max_attempts excludes no ready row of a reachable queue, so
  // leaving it out in memory changes nothing.
  lemma AttemptFilterIsRedundant(cs: seq<Command>, t: Table, id: Text)
    requires Represents(Run([], cs), t) && id in t && t[id].state == READY
    ensures t[id].attempt < t[id].maxAttempts
  {
    RunKeeps(cs);
    assert RowMatches(Find(Run([], cs), id), t, id);
    assert RowOk(Find(Run([], cs), id).value);
  }
}

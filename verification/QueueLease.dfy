// Leases over time and the retry budget of the in-memory queue.

module QueueLease {
  import opened Json
  import opened Domain
  import opened Queue

  /******* Exclusivity *******/

  function When(c: Command): Option<Time> {
    match c
    case EnqueueRow(_, _, _, _) => None
    case ClaimRow(_, now, _) => Some(now)
    case RecoverExpired(now) => Some(now)
    case HeartbeatRow(_, _, now, _) => Some(now)
    case CompleteRow(_, _, now) => Some(now)
    case FailRow(_, _, now, _) => Some(now)
  }

  ghost predicate NotBefore(t: Time, cs: seq<Command>) {
    forall i | 0 <= i < |cs| :: When(cs[i]).Some? ==> t <= When(cs[i]).value
  }

  ghost predicate Ordered(cs: seq<Command>) {
    forall i, j | 0 <= i < j < |cs| ::
      When(cs[i]).Some? && When(cs[j]).Some? ==> When(cs[i]).value <= When(cs[j]).value
  }

  predicate Grants(q: Rows, c: Command, id: Text) {
    c.ClaimRow? && First(q, c.now).Some? && First(q, c.now).value.taskId == id
  }

  ghost predicate HeldBy(q: Rows, id: Text, w: Text) {
    Find(q, id).Some? && Find(q, id).value.claimedBy == Some(w)
  }

  // The command takes the row from its holder: the holder itself gave it up before
  // the lease ran out, or recovery found it expired.
  ghost predicate Takes(q: Rows, c: Command, id: Text, w: Text) {
    && HeldBy(q, id, w)
    && match c
       case FailRow(t, v, now, _) => t == id && v == w && Holds(q, id, w, now)
       case CompleteRow(t, v, now) => t == id && v == w && Holds(q, id, w, now)
       case RecoverExpired(now) => Expired(Find(q, id).value, now)
       case _ => false
  }

  lemma HeldUntilTaken(q: Rows, c: Command, id: Text, w: Text)
    requires QueueOk(q) && HeldBy(q, id, w)
    ensures HeldBy(Execute(q, c).0, id, w) || Takes(q, c, id, w)
    ensures !Grants(q, c, id)
  {
    ExecuteRow(q, c, id);
    if c.ClaimRow? && First(q, c.now).Some? { FirstFound(q, c.now); }
  }

  // Between two claims of one row its first holder failed or completed it in time,
  // or recovery ran at or after the (possibly extended) expiry.
  lemma {:induction false} LeasesAreExclusive(q: Rows, cs: seq<Command>, claim: Command, id: Text, w: Text)
    requires QueueOk(q) && HeldBy(q, id, w)
    requires Grants(Run(q, cs), claim, id) && Ordered(cs + [claim])
    ensures exists k | 0 <= k < |cs| ::
              && Takes(Run(q, cs[..k]), cs[k], id, w)
              && (When(cs[k]).Some? ==> When(cs[k]).value <= claim.now)
  {
    var k := FirstTaken(q, cs, id, w);
    if k == |cs| {
      HeldUntilTaken(Run(q, cs), claim, id, w);
    } else {
      assert (cs + [claim])[k] == cs[k] && (cs + [claim])[|cs|] == claim;
    }
  }

  lemma {:induction false} FirstTaken(q: Rows, cs: seq<Command>, id: Text, w: Text) returns (k: nat)
    requires QueueOk(q) && HeldBy(q, id, w)
    ensures k <= |cs|
    ensures k < |cs| ==> Takes(Run(q, cs[..k]), cs[k], id, w)
    ensures k == |cs| ==> QueueOk(Run(q, cs)) && HeldBy(Run(q, cs), id, w)
  {
    k := 0;
    assert cs[..0] == [];
    while k < |cs|
      invariant k <= |cs|
      invariant QueueOk(Run(q, cs[..k])) && HeldBy(Run(q, cs[..k]), id, w)
    {
      var now := Run(q, cs[..k]);
      assert cs[..k + 1][..k] == cs[..k];
      HeldUntilTaken(now, cs[k], id, w);
      if Takes(now, cs[k], id, w) { return; }
      ExecuteKeeps(now, cs[k]);
      k := k + 1;
    }
    assert cs[..k] == cs;
  }

  // At any instant a leased row is usable by its holder or recoverable, never both.
  lemma UsableOrRecoverable(q: Rows, id: Text, now: Time)
    requires QueueOk(q) && Find(q, id).Some? && Find(q, id).value.claimedBy.Some?
    ensures (exists w :: Holds(q, id, w, now)) <==> !Expired(Find(q, id).value, now)
    ensures forall w, v | Holds(q, id, w, now) && Holds(q, id, v, now) :: w == v
  {
    assert RowOk(Find(q, id).value);
    if !Expired(Find(q, id).value, now) {
      assert Holds(q, id, Find(q, id).value.claimedBy.value, now);
    }
  }

  // The worker has no lease on the row that outlives t.
  ghost predicate Lost(q: Rows, id: Text, w: Text, t: Time) {
    HeldBy(q, id, w) && Find(q, id).value.leaseExpiresAt.Some? ==> Find(q, id).value.leaseExpiresAt.value <= t
  }

  predicate UsesLease(c: Command, id: Text, w: Text) {
    match c
    case HeartbeatRow(t, v, _, _) => t == id && v == w
    case CompleteRow(t, v, _) => t == id && v == w
    case FailRow(t, v, _, _) => t == id && v == w
    case _ => false
  }

  lemma LostStays(q: Rows, c: Command, id: Text, w: Text, t: Time)
    requires QueueOk(q) && Lost(q, id, w, t)
    requires When(c).Some? ==> t <= When(c).value
    requires !(Grants(q, c, id) && c.workerId == w)
    ensures Lost(Execute(q, c).0, id, w, t)
    ensures UsesLease(c, id, w) ==> Execute(q, c).1 == Raised(LeaseLost)
  {
    ExecuteRow(q, c, id);
    FindId(q, id);
    if c.ClaimRow? && First(q, c.now).Some? { FirstFound(q, c.now); }
  }

  // No command of the run grants the row to the worker.
  ghost predicate NoGrant(q: Rows, cs: seq<Command>, id: Text, w: Text) {
    cs != [] ==>
      var n := |cs| - 1;
      && NoGrant(q, cs[..n], id, w)
      && !(Grants(Run(q, cs[..n]), cs[n], id) && cs[n].workerId == w)
  }

  lemma {:induction false} LostThroughout(q: Rows, cs: seq<Command>, id: Text, w: Text, t: Time)
    requires QueueOk(q) && Lost(q, id, w, t) && NotBefore(t, cs) && NoGrant(q, cs, id, w)
    ensures QueueOk(Run(q, cs)) && Lost(Run(q, cs), id, w, t)
  {
    if cs != [] {
      var n := |cs| - 1;
      LostThroughout(q, cs[..n], id, w, t);
      ExecuteKeeps(Run(q, cs[..n]), cs[n]);
      LostStays(Run(q, cs[..n]), cs[n], id, w, t);
    }
  }

  // Under a clock that does not go back, a lease found expired at t stays lost: until
  // the worker is granted the row again, no heartbeat, completion or failure of its succeeds.
  lemma ExpiredLeaseNeverRevives(q: Rows, cs: seq<Command>, c: Command, id: Text, w: Text, t: Time)
    requires QueueOk(q) && Lost(q, id, w, t) && NotBefore(t, cs) && NoGrant(q, cs, id, w)
    requires UsesLease(c, id, w) && t <= When(c).value
    ensures Execute(Run(q, cs), c).1 == Raised(LeaseLost)
  {
    LostThroughout(q, cs, id, w, t);
    LostStays(Run(q, cs), c, id, w, t);
  }

  /******* Retry budget of one task *******/

  function Created(cs: seq<Command>, id: Text): nat {
    if cs == [] then 0
    else
      var n := |cs| - 1;
      Created(cs[..n], id)
      + (if cs[n].EnqueueRow? && cs[n].taskId == id && Execute(Run([], cs[..n]), cs[n]).1 == Enqueued(true)
         then 1 else 0)
  }

  function Claims(cs: seq<Command>, id: Text): nat {
    if cs == [] then 0
    else
      var n := |cs| - 1;
      Claims(cs[..n], id) + (if Grants(Run([], cs[..n]), cs[n], id) then 1 else 0)
  }

  // Seconds of delay handed out by the failures of a task.
  function Delays(cs: seq<Command>, id: Text): int {
    if cs == [] then 0
    else
      var n := |cs| - 1;
      Delays(cs[..n], id)
      + (match Execute(Run([], cs[..n]), cs[n]).1
         case Failed(r) =>
           if cs[n].FailRow? && r.taskId == id && r.retryAt.Some? then r.retryAt.value - cs[n].now else 0
         case _ => 0)
  }

  function ClaimsLeft(r: Option<Row>): int {
    if r.None? then 0 else 3 - r.value.attempt
  }

  function DelayLeft(r: Option<Row>): int {
    if r.None? then 0
    else
      var started := if r.value.claimedBy.Some? then r.value.attempt else r.value.attempt + 1;
      if started == 1 then 90 else if started == 2 then 60 else 0
  }

  lemma BackoffValues(attempt: nat)
    requires 1 <= attempt <= 2
    ensures Backoff(attempt) == if attempt == 1 then 30 else 60
  {
    assert Pow2(1) == 2;
  }

  lemma BudgetStep(q: Rows, c: Command, id: Text)
    requires QueueOk(q)
    ensures var r, r' := Find(q, id), Find(Execute(q, c).0, id);
            var created := if c.EnqueueRow? && c.taskId == id && Execute(q, c).1 == Enqueued(true) then 1 else 0;
            var claimed := if Grants(q, c, id) then 1 else 0;
            && claimed + ClaimsLeft(r') <= 3 * created + ClaimsLeft(r)
            && (!Execute(q, c).1.Failed? || !c.FailRow? || c.taskId != id ==>
                  DelayLeft(r') <= 90 * created + DelayLeft(r))
  {
    ExecuteRow(q, c, id);
    FindId(q, id);
    if c.ClaimRow? && First(q, c.now).Some? { FirstFound(q, c.now); }
  }

  lemma DelayStep(q: Rows, c: Command, id: Text)
    requires QueueOk(q) && c.FailRow? && Execute(q, c).1.Failed? && c.taskId == id
    ensures var r := Execute(q, c).1.result;
            && r.taskId == id
            && (r.retryAt.Some? ==> r.retryAt.value - c.now in {30, 60})
            && (if r.retryAt.Some? then r.retryAt.value - c.now else 0)
               + DelayLeft(Find(Execute(q, c).0, id)) <= DelayLeft(Find(q, id))
  {
    ExecuteRow(q, c, id);
    var row := Find(q, id).value;
    assert RowOk(row);
    if row.attempt <= 2 { BackoffValues(row.attempt); }
  }

  lemma {:induction false} Budget(cs: seq<Command>, id: Text)
    ensures QueueOk(Run([], cs))
    ensures Claims(cs, id) + ClaimsLeft(Find(Run([], cs), id)) <= 3 * Created(cs, id)
    ensures Delays(cs, id) + DelayLeft(Find(Run([], cs), id)) <= 90 * Created(cs, id)
  {
    if cs != [] {
      var n := |cs| - 1;
      var q := Run([], cs[..n]);
      Budget(cs[..n], id);
      ExecuteKeeps(q, cs[n]);
      BudgetStep(q, cs[n], id);
      if cs[n].FailRow? && Execute(q, cs[n]).1.Failed? && cs[n].taskId == id { DelayStep(q, cs[n], id); }
    }
  }

  // From the empty queue, by any commands: a row is claimed at most three times and
  // its failures delay it by at most 90 seconds in all.
  lemma BoundedRetries(cs: seq<Command>, id: Text)
    ensures Claims(cs, id) <= 3 * Created(cs, id)
    ensures Delays(cs, id) <= 90 * Created(cs, id)
  {
    Budget(cs, id);
    RunKeeps(cs);
    if Find(Run([], cs), id).Some? { assert RowOk(Find(Run([], cs), id).value); }
  }

  // Every delay a reachable queue hands out is 30 or 60 seconds: the cap of 900 never binds.
  lemma BackoffIs30Or60(cs: seq<Command>, c: Command)
    requires c.FailRow? && Execute(Run([], cs), c).1.Failed?
    ensures var r := Execute(Run([], cs), c).1.result;
            if r.terminal then r.retryAt.None?
            else r.retryAt.Some? && r.retryAt.value in {c.now + 30, c.now + 60}
  {
    RunKeeps(cs);
    DelayStep(Run([], cs), c, c.taskId);
  }

  /******* Total work *******/

  function Weight(r: Row): int {
    2 * (3 - r.attempt) + (if r.claimedBy.Some? then 1 else 0)
  }

  function Total(q: Rows): int {
    if q == [] then 0 else Weight(q[0]) + Total(q[1..])
  }

  ghost predicate AllOk(q: Rows) { forall i | 0 <= i < |q| :: RowOk(q[i]) }

  lemma {:induction false} OkEverywhere(q: Rows)
    requires QueueOk(q)
    ensures AllOk(q)
  {
    if q != [] {
      forall id | Find(q[1..], id).Some? ensures RowOk(Find(q[1..], id).value) {
        FindId(q[1..], id);
        assert Find(q, id) == Find(q[1..], id);
      }
      OkEverywhere(q[1..]);
      assert Find(q, q[0].taskId) == Some(q[0]);
    }
  }

  lemma {:induction false} TotalReplace(q: Rows, row: Row)
    ensures Total(Replace(q, row))
         == Total(q) + (if Find(q, row.taskId).Some? then Weight(row) - Weight(Find(q, row.taskId).value) else 0)
  {
    if q != [] { TotalReplace(q[1..], row); }
  }

  lemma {:induction false} TotalRemove(q: Rows, id: Text)
    ensures Total(Remove(q, id)) == Total(q) - (if Find(q, id).Some? then Weight(Find(q, id).value) else 0)
  {
    if q != [] { TotalRemove(q[1..], id); }
  }

  lemma {:induction false} TotalAppend(q: Rows, row: Row)
    ensures Total(q + [row]) == Total(q) + Weight(row)
  {
    if q != [] {
      assert (q + [row])[1..] == q[1..] + [row];
      TotalAppend(q[1..], row);
    }
  }

  lemma {:induction false} TotalRecover(q: Rows, now: Time)
    requires AllOk(q)
    ensures Total(RecoverRows(q, now)) <= Total(q) - |RecoverResults(q, now)|
  {
    if q != [] {
      assert RowOk(q[0]);
      TotalRecover(q[1..], now);
    }
  }

  lemma {:induction false} TotalNonNegative(q: Rows)
    requires AllOk(q)
    ensures Total(q) >= 0
  {
    if q != [] {
      assert RowOk(q[0]);
      TotalNonNegative(q[1..]);
    }
  }

  // How many rows a reply reports as claimed, released or removed.
  function Progress(r: Reply): nat {
    match r
    case Leased(l) => if l.Some? then 1 else 0
    case Recovered(rs) => |rs|
    case Completed => 1
    case Failed(_) => 1
    case _ => 0
  }

  lemma FailWeight(q: Rows, t: Text, w: Text, now: Time)
    requires QueueOk(q) && Holds(q, t, w, now)
    ensures Total(Fail(q, t, w, now).rows) + 1 <= Total(q)
  {
    FindId(q, t);
    var r := Find(q, t).value;
    assert RowOk(r);
    if r.attempt >= MAX_ATTEMPTS {
      TotalRemove(q, t);
    } else {
      TotalReplace(q, Released(r, now + Backoff(r.attempt)));
    }
  }

  lemma WeightStep(q: Rows, c: Command)
    requires QueueOk(q)
    ensures Total(Execute(q, c).0) + Progress(Execute(q, c).1)
         <= Total(q) + (if Execute(q, c).1 == Enqueued(true) then 6 else 0)
  {
    match c
    case EnqueueRow(t, p, at, key) => TotalAppend(q, Row(t, p, at, key, None, None, 0));
    case ClaimRow(w, now, d) =>
      if First(q, now).Some? {
        FirstFound(q, now);
        TotalReplace(q, Claimed(First(q, now).value, w, now + d));
      }
    case RecoverExpired(now) =>
      OkEverywhere(q);
      TotalRecover(q, now);
    case HeartbeatRow(t, w, now, d) =>
      if Holds(q, t, w, now) {
        FindId(q, t);
        TotalReplace(q, Find(q, t).value.(leaseExpiresAt := Some(now + d)));
      }
    case CompleteRow(t, w, now) => TotalRemove(q, t);
    case FailRow(t, w, now, _) => if Holds(q, t, w, now) { FailWeight(q, t, w, now); }
  }

  function Enqueues(cs: seq<Command>): nat {
    if cs == [] then 0
    else
      var n := |cs| - 1;
      Enqueues(cs[..n]) + (if Execute(Run([], cs[..n]), cs[n]).1 == Enqueued(true) then 1 else 0)
  }

  function Work(cs: seq<Command>): nat {
    if cs == [] then 0
    else
      var n := |cs| - 1;
      Work(cs[..n]) + Progress(Execute(Run([], cs[..n]), cs[n]).1)
  }

  // Every claim, failure, completion and recovered row uses up the weight that an
  // enqueue brings in: six such steps per created row at most.
  lemma {:induction false} BoundedWork(cs: seq<Command>)
    ensures QueueOk(Run([], cs)) && Work(cs) + Total(Run([], cs)) <= 6 * Enqueues(cs)
    ensures Work(cs) <= 6 * Enqueues(cs)
  {
    if cs != [] {
      var n := |cs| - 1;
      BoundedWork(cs[..n]);
      WeightStep(Run([], cs[..n]), cs[n]);
    }
    RunKeeps(cs);
    OkEverywhere(Run([], cs));
    TotalNonNegative(Run([], cs));
  }
}

// What the queue services answer, row by row: which row a claim takes, and what a recovery
// reports.

module QueueGuards {
  import opened Json
  import opened Domain
  import opened Records
  import opened Database
  import opened LedgerInvariants
  import opened Services
  import opened Coupling
  import opened ServiceGuards
  import Queue

  /******* Claims *******/

  ghost predicate Ready(r: Queue.Row, now: Time) { r.availableAt <= now && r.claimedBy == None }

  // Higher priority first, then the earlier time, then the earlier insertion.
  ghost predicate Precedes(q: Queue.Rows, i: nat, j: nat)
    requires i < |q| && j < |q|
  {
    || q[i].priority > q[j].priority
    || (q[i].priority == q[j].priority
        && (q[i].availableAt < q[j].availableAt || (q[i].availableAt == q[j].availableAt && i <= j)))
  }

  ghost predicate Served(q: Queue.Rows, now: Time, i: nat) {
    && i < |q| && Ready(q[i], now)
    && forall j: nat | j < |q| && Ready(q[j], now) :: Precedes(q, i, j)
  }

  lemma {:induction false} FirstServed(q: Queue.Rows, now: Time) returns (i: nat)
    ensures Queue.First(q, now).None? <==> forall j | 0 <= j < |q| :: !Ready(q[j], now)
    ensures Queue.First(q, now).Some? ==> Served(q, now, i) && Queue.First(q, now).value == q[i]
  {
    i := 0;
    if q != [] {
      var k := FirstServed(q[1..], now);
      var f := Queue.First(q[1..], now);
      assert forall j: nat | 0 < j < |q| :: q[j] == q[1..][j - 1];
      if f.Some? && !(Ready(q[0], now) && !Queue.Before(f.value, q[0])) { i := k + 1; }
      forall j: nat | j < |q| && Ready(q[j], now) && Queue.First(q, now).Some? ensures Precedes(q, i, j) {
        if j > 0 { assert Precedes(q[1..], k, j - 1); }
      }
    }
  }

  lemma {:induction false} ReplaceAt(q: Queue.Rows, i: nat, r: Queue.Row)
    requires Queue.Unique(q) && i < |q| && q[i].taskId == r.taskId
    ensures Queue.Replace(q, r) == q[i := r]
  {
    if i > 0 {
      FoundAt(q[1..], i - 1);
      ReplaceAt(q[1..], i - 1, r);
    }
  }

  lemma {:induction false} FoundAt(q: Queue.Rows, i: nat)
    requires Queue.Unique(q) && i < |q|
    ensures Queue.Find(q, q[i].taskId) == Some(q[i])
  {
    if i > 0 { FoundAt(q[1..], i - 1); }
  }

  // A claim returns exactly while the fuse is off. It is answered with nothing if no row is
  // ready; otherwise with a lease on the first of the ready rows, one attempt further.
  lemma ClaimExactly(db: Db, w: Text, now: Time, lease: int) returns (i: nat)
    requires Queue.QueueOk(db.queue)
    ensures var c := ClaimNext(db, w, now, lease);
            && (c.out.Ok? <==> !db.fuse.engaged)
            && (c.out.Ok? ==> (c.out.value == None <==> forall j | 0 <= j < |db.queue| :: !Ready(db.queue[j], now)))
            && (c.out.Ok? && c.out.value == None ==> c.db == db)
            && (c.out.Ok? && c.out.value != None ==>
                  && Served(db.queue, now, i)
                  && var r := db.queue[i];
                  && c.out.value == Some(Queue.Lease(r.taskId, w, now + lease, r.attempt + 1))
                  && c.db == db.(queue := db.queue[i := Queue.Row(r.taskId, r.priority, r.availableAt, r.idempotencyKey,
                                                                  Some(w), Some(now + lease), r.attempt + 1)]))
  {
    hide Queue.QueueOk, Queue.Unique, Queue.First, Queue.Replace;
    UniqueRows(db.queue);
    i := FirstServed(db.queue, now);
    var f := Queue.First(db.queue, now);
    if f.Some? { ReplaceAt(db.queue, i, Queue.Claimed(f.value, w, now + lease)); }
  }

  /******* Recovery *******/

  // The lease has run out.
  ghost predicate Lapsed(db: Db, id: Text, now: Time) {
    && Queue.Find(db.queue, id).Some?
    && Queue.Find(db.queue, id).value.leaseExpiresAt.Some?
    && Queue.Find(db.queue, id).value.leaseExpiresAt.value <= now
  }

  ghost predicate Spent(db: Db, id: Text, now: Time) {
    Lapsed(db, id, now) && Queue.Find(db.queue, id).value.attempt >= 3
  }

  // The task can fail: it lives, and the event brought for it comes next in its history.
  ghost predicate Failable(db: Db, events: TerminalEvents, id: Text) {
    && id in db.tasks && Live(db.tasks[id]) && id in events
    && Stands(db, id, db.tasks[id].version, events[id].1) && events[id].0.sequence == events[id].1 + 1
  }

  ghost predicate Distinct(results: seq<Queue.FailureResult>) {
    forall i, j | 0 <= i < j < |results| :: results[i].taskId != results[j].taskId
  }

  ghost predicate AllFailable(db: Db, results: seq<Queue.FailureResult>, events: TerminalEvents) {
    forall i | 0 <= i < |results| && results[i].terminal :: Failable(db, events, results[i].taskId)
  }

  lemma {:induction false} SettlesExactly(db: Db, results: seq<Queue.FailureResult>, events: TerminalEvents)
    requires TasksOk(db.tasks) && EventsFor(db, events) && Distinct(results)
    ensures SettleRecovered(db, results, events).out.Ok? <==> AllFailable(db, results, events)
    decreases |results|
  {
    hide FailTask, EventsFor, Failable;
    if results != [] {
      var first, rest := results[0].taskId, results[1..];
      AllFailableSplit(db, results, events);
      if !results[0].terminal {
        SettlesExactly(db, rest, events);
      } else {
        FailsFirst(db, first, events);
        if Failable(db, events, first) {
          var d := Changed(db, db.tasks[first].Move(FAILED), events[first].0);
          EventsStayFor(db, first, events);
          SettlesExactly(d, rest, events);
          forall i | 0 <= i < |rest| ensures Failable(d, events, rest[i].taskId) <==>
            Failable(db, events, rest[i].taskId)
          {
            assert rest[i] == results[i + 1];
            StaysFailable(db, events, first, rest[i].taskId);
          }
        }
      }
    }
  }

  lemma AllFailableSplit(db: Db, results: seq<Queue.FailureResult>, events: TerminalEvents)
    requires results != []
    ensures AllFailable(db, results, events)
       <==> (results[0].terminal ==> Failable(db, events, results[0].taskId)) && AllFailable(db, results[1..], events)
  {
    hide Failable;
    assert forall i | 0 < i < |results| :: results[i] == results[1..][i - 1];
    if AllFailable(db, results[1..], events) && (results[0].terminal ==> Failable(db, events, results[0].taskId)) {
      forall i | 0 <= i < |results| && results[i].terminal ensures Failable(db, events, results[i].taskId) {
        if i > 0 { assert results[1..][i - 1].terminal; }
      }
    }
  }

  // The first exhausted row: its task fails exactly if it can.
  lemma FailsFirst(db: Db, id: Text, events: TerminalEvents)
    requires TasksOk(db.tasks) && EventsFor(db, events)
    ensures Failable(db, events, id) ==>
      && id in db.tasks && id in events && TasksOk(Changed(db, db.tasks[id].Move(FAILED), events[id].0).tasks)
      && FailTask(db, db.tasks[id], events[id].0, events[id].1)
         == Step(Changed(db, db.tasks[id].Move(FAILED), events[id].0), Ok(db.tasks[id].Move(FAILED)))
    ensures id in db.tasks && id in events && FailTask(db, db.tasks[id], events[id].0, events[id].1).out.Ok? ==>
      Failable(db, events, id)
  {
    hide Advance;
    if id in db.tasks && id in events && Live(db.tasks[id]) {
      AdvanceShape(db, db.tasks[id].Move(FAILED), db.tasks[id].version, events[id].0, events[id].1);
    }
  }

  lemma StaysFailable(db: Db, events: TerminalEvents, id: Text, other: Text)
    requires id != other && id in db.tasks && id in events && EventsFor(db, events) && TasksOk(db.tasks)
    ensures Failable(Changed(db, db.tasks[id].Move(FAILED), events[id].0), events, other)
       <==> Failable(db, events, other)
  {
  }

  // The report on a row whose lease has run out.
  ghost predicate ReportOf(q: Queue.Rows, now: Time, x: Queue.FailureResult) {
    && Queue.Find(q, x.taskId).Some?
    && Queue.Find(q, x.taskId).value.leaseExpiresAt.Some?
    && Queue.Find(q, x.taskId).value.leaseExpiresAt.value <= now
    && (if Queue.Find(q, x.taskId).value.attempt >= 3 then x.terminal && x.retryAt == None
        else !x.terminal && x.retryAt == Some(now))
  }

  lemma {:induction false} ReportsEach(q: Queue.Rows, now: Time, x: Queue.FailureResult)
    requires Queue.Unique(q)
    ensures x in Queue.RecoverResults(q, now) <==> ReportOf(q, now, x)
  {
    if q != [] {
      ReportsEach(q[1..], now, x);
      Queue.FindId(q[1..], x.taskId);
    }
  }

  lemma {:induction false} ReportsDiffer(q: Queue.Rows, now: Time)
    requires Queue.Unique(q)
    ensures Distinct(Queue.RecoverResults(q, now))
  {
    if q != [] {
      ReportsDiffer(q[1..], now);
      var rest := Queue.RecoverResults(q[1..], now);
      forall i | 0 <= i < |rest| ensures rest[i].taskId != q[0].taskId { ReportsEach(q[1..], now, rest[i]); }
    }
  }

  // A recovery returns exactly if the task of every exhausted row can fail; it reports on
  // exactly the rows whose lease has run out, and what it then leaves is
  // ServiceOutcomes.RecoveryReport.
  lemma RecoverExactly(db: Db, now: Time, events: TerminalEvents, x: Queue.FailureResult)
    requires TasksOk(db.tasks) && Queue.QueueOk(db.queue) && EventsFor(db, events)
    ensures var r := Recover(db, now, events);
            && (r.out.Ok? <==> forall id | Spent(db, id, now) :: Failable(db, events, id))
            && (r.out.Ok? ==> (x in r.out.value <==> ReportOf(db.queue, now, x)))
  {
    hide SettleRecovered, EventsFor, Failable, Queue.QueueOk, Queue.Unique, Queue.RecoverRows, Queue.RecoverResults;
    UniqueRows(db.queue);
    var results := Queue.RecoverResults(db.queue, now);
    var d := db.(queue := Queue.RecoverRows(db.queue, now));
    ReportsDiffer(db.queue, now);
    EventsForQueue(db, d, events);
    SettlesExactly(d, results, events);
    ReportsEach(db.queue, now, x);
    forall id ensures Failable(d, events, id) <==> Failable(db, events, id) { SameFailable(db, d, events, id); }
    forall i | 0 <= i < |results| ensures results[i].terminal <==> Spent(db, results[i].taskId, now) {
      ReportsEach(db.queue, now, results[i]);
    }
    forall id | Spent(db, id, now) ensures Queue.FailureResult(id, None, true) in results {
      ReportsEach(db.queue, now, Queue.FailureResult(id, None, true));
    }
  }

  lemma SameFailable(db: Db, d: Db, events: TerminalEvents, id: Text)
    requires d.tasks == db.tasks && d.events == db.events
    ensures Failable(d, events, id) <==> Failable(db, events, id)
  {
  }
}

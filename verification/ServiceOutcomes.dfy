// What single calls do to the task they are about: exhausted leases and published worker
// results.

module ServiceOutcomes {
  import opened Json
  import opened Domain
  import opened Records
  import opened Ledgers
  import opened Database
  import opened LedgerInvariants
  import opened Services
  import opened Coupling
  import opened ServiceRuns
  import Queue

  /******* Exhausted rows fail their task, with an event, in the same unit *******/

  ghost predicate FailedWith(db: Db, db': Db, id: Text, e: Event) {
    && id in db.tasks && db.tasks[id].status != FAILED
    && id in db'.tasks && db'.tasks[id] == db.tasks[id].Move(FAILED)
    && History(db'.events, id) == History(db.events, id) + [e]
    && Queue.Find(db'.queue, id).None?
  }

  ghost predicate Untouched(db: Db, db': Db, id: Text) {
    && (id in db.tasks <==> id in db'.tasks)
    && (id in db.tasks ==> db'.tasks[id] == db.tasks[id])
    && History(db'.events, id) == History(db.events, id)
  }

  lemma TerminalReport(db: Db, rows: Queue.Rows, id: Text, e: Event, n: nat)
    requires TasksOk(db.tasks) && Coupled(db.(queue := rows)) && IsFresh(db, e) && e.taskId == id && id in db.tasks
    requires Queue.Find(rows, id).None? && FailTask(db.(queue := rows), db.tasks[id], e, n).out.Ok?
    ensures FailedWith(db, FailTask(db.(queue := rows), db.tasks[id], e, n).db, id, e)
  {
    hide FailTask, Coupled;
    FailTaskNext(db.(queue := rows), id, e, n);
  }

  // A failure report that returns: the third attempt fails the task; an earlier one puts
  // the row back, unclaimed, after the backoff.
  lemma FailureReport(db: Db, id: Text, w: Text, now: Time, e: Event, n: nat)
    requires TasksOk(db.tasks) && Queue.QueueOk(db.queue) && Coupled(db) && IsFresh(db, e) && e.taskId == id
    requires QueueFail(db, id, w, now, e, n).out.Ok?
    ensures var db' := QueueFail(db, id, w, now, e, n).db;
            var r := Queue.Find(db.queue, id);
            && r.Some? && Queue.Current(r.value, w, now)
            && (if r.value.attempt >= Queue.MAX_ATTEMPTS then FailedWith(db, db', id, e)
                else Queue.Find(db'.queue, id) == Some(Queue.Released(r.value, now + Queue.Backoff(r.value.attempt))))
  {
    hide FailTask, Coupled, EventAppend, TasksOk, Queue.QueueOk, Queue.Fail, Queue.Released, Queue.Current,
         Queue.Backoff;
    hide FailedWith;
    assert Queue.Unique(db.queue) by { UniqueRows(db.queue); }
    FailDecides(db.queue, id, w, now);
    var f := Queue.Fail(db.queue, id, w, now);
    if f.out.value.terminal {
      CoupledAfterFail(db, id, w, now);
      TerminalReport(db, f.rows, id, e, n);
    } else {
      AppendShape(db.(queue := f.rows), e, n);
    }
  }

  lemma FailDecides(q: Queue.Rows, id: Text, w: Text, now: Time)
    requires Queue.Unique(q) && Queue.Fail(q, id, w, now).out.Ok?
    ensures var r := Queue.Find(q, id);
            var f := Queue.Fail(q, id, w, now);
            && r.Some? && Queue.Current(r.value, w, now)
            && (f.out.value.terminal <==> r.value.attempt >= Queue.MAX_ATTEMPTS)
            && Queue.Find(f.rows, id)
               == if f.out.value.terminal then None
                  else Some(Queue.Released(r.value, now + Queue.Backoff(r.value.attempt)))
  {
    hide Queue.Backoff, Queue.Find, Queue.Remove, Queue.Replace, Queue.Unique;
    var r := Queue.Find(q, id).value;
    Queue.FindId(q, id);
    Queue.FindRemove(q, id, id);
    Queue.FindReplace(q, Queue.Released(r, now + Queue.Backoff(r.attempt)), id);
  }

  lemma CoupledAfterFail(db: Db, id: Text, w: Text, now: Time)
    requires Coupled(db) && Queue.QueueOk(db.queue)
    ensures Coupled(db.UseQueue(Queue.Fail(db.queue, id, w, now)).db)
  {
    hide Coupled, Queue.QueueOk;
    var q := db.UseQueue(Queue.Fail(db.queue, id, w, now)).db;
    assert q == db.(queue := Queue.Execute(db.queue, Queue.FailRow(id, w, now, [])).0);
    QueueNext(db, Queue.FailRow(id, w, now, []));
    NextCoupled(db, q);
  }

  function Exhausted(id: Text): Queue.FailureResult { Queue.FailureResult(id, None, true) }

  ghost predicate TerminalShape(results: seq<Queue.FailureResult>) {
    forall i | 0 <= i < |results| && results[i].terminal :: results[i] == Exhausted(results[i].taskId)
  }

  lemma {:induction false} SettledEach(db: Db, results: seq<Queue.FailureResult>, events: TerminalEvents, id: Text)
    requires TasksOk(db.tasks) && Coupled(db) && EventsFor(db, events) && TerminalShape(results)
    requires forall i | 0 <= i < |results| && results[i].terminal :: Queue.Find(db.queue, results[i].taskId).None?
    requires SettleRecovered(db, results, events).out.Ok?
    ensures var db' := SettleRecovered(db, results, events).db;
            && db'.queue == db.queue
            && (if Exhausted(id) in results then id in events && FailedWith(db, db', id, events[id].0)
                else Untouched(db, db', id))
    decreases |results|
  {
    hide FailTask, Coupled;
    if results != [] {
      var first := results[0].taskId;
      if results[0].terminal {
        var f := FailTask(db, db.tasks[first], events[first].0, events[first].1);
        FailedFirst(db, first, events);
        FailTaskNext(db, first, events[first].0, events[first].1);
        NextCoupled(db, f.db);
        EventsStayFor(db, first, events);
        SettledEach(f.db, results[1..], events, id);
        assert Exhausted(id) in results <==> id == first || Exhausted(id) in results[1..];
      } else {
        SettledEach(db, results[1..], events, id);
        assert Exhausted(id) in results <==> Exhausted(id) in results[1..];
      }
    }
  }

  lemma {:induction false} RecoveredShape(q: Queue.Rows, now: Time, id: Text)
    requires Queue.Unique(q)
    ensures TerminalShape(Queue.RecoverResults(q, now))
    ensures Exhausted(id) in Queue.RecoverResults(q, now)
       <==> Queue.Find(q, id).Some? && Queue.Expired(Queue.Find(q, id).value, now)
            && Queue.Find(q, id).value.attempt >= Queue.MAX_ATTEMPTS
  {
    if q != [] {
      RecoveredShape(q[1..], now, id);
      Queue.FindId(q[1..], id);
    }
  }

  // A recovery that returns: exactly the expired rows on their third attempt fail their
  // tasks, each with its own event; every other task and history is untouched.
  lemma RecoveryReport(db: Db, now: Time, events: TerminalEvents, id: Text)
    requires TasksOk(db.tasks) && Queue.QueueOk(db.queue) && Coupled(db) && EventsFor(db, events)
    requires Recover(db, now, events).out.Ok?
    ensures var db' := Recover(db, now, events).db;
            var r := Queue.Find(db.queue, id);
            && Queue.Find(db'.queue, id) == Queue.Recovery(r, now)
            && (if r.Some? && Queue.Expired(r.value, now) && r.value.attempt >= Queue.MAX_ATTEMPTS
                then id in events && FailedWith(db, db', id, events[id].0)
                else Untouched(db, db', id))
  {
    hide SettleRecovered, Coupled, EventsFor, TasksOk, Queue.QueueOk;
    assert Queue.Unique(db.queue) by { UniqueRows(db.queue); }
    var c := Queue.RecoverExpired(now);
    var q := db.(queue := Queue.RecoverRows(db.queue, now));
    var results := Queue.RecoverResults(db.queue, now);
    QueueNext(db, c);
    assert q == db.(queue := Queue.Execute(db.queue, c).0);
    NextCoupled(db, q);
    EventsForQueue(db, q, events);
    RecoveredShape(db.queue, now, id);
    Queue.FindRecover(db.queue, now, id);
    forall i | 0 <= i < |results| && results[i].terminal ensures Queue.Find(q.queue, results[i].taskId).None? {
      RecoveredIsGone(db.queue, now, i);
    }
    SettledEach(q, results, events, id);
  }

  /******* Publishing a worker result *******/

  // The task a result moves: with the artifact attached, without governance authority.
  function ResultTask(db: Db, result: WorkerResult, a: CatalogedArtifact): Outcome<Task>
    requires result.taskId in db.tasks
  {
    Target(db.tasks[result.taskId].AttachArtifact(a.reference), result.target, result.worker.role, false)
  }

  ghost predicate Compatible(db: Db, a: CatalogedArtifact) {
    a.reference.digest in db.artifacts ==> db.artifacts[a.reference.digest] == a
  }

  // Everything a filed result writes: the artifact, both events, the task, the queue row,
  // the result.
  function FiledResult(db: Db, result: WorkerResult, a: CatalogedArtifact, attached: Stamp, moved: Stamp): Db
    requires result.taskId in db.tasks && ResultTask(db, result, a).Ok?
  {
    var e := ArtifactEvent(result.taskId, a.reference, attached, result.expectedSequence);
    Changed(Attached(db, result.taskId, a, e), ResultTask(db, result, a).value, ResultEvent(result, a.reference, moved))
    .(queue := Queue.Remove(db.queue, result.taskId), results := db.results[result.resultId := result])
  }

  // Once the staleness guard has passed, a result is refused for its artifact, its target
  // or its lease, and for nothing else: neither of the two task updates, neither of the
  // two event appends and not the result ledger can conflict.
  lemma ResultRefusals(db: Db, result: WorkerResult, blob: Blob, request: ArtifactRequest, now: Time, attached: Stamp,
                       moved: Stamp)
    requires TasksOk(db.tasks) && result.resultId !in db.results
    requires attached.eventId !in db.eventIds && moved.eventId !in db.eventIds && attached.eventId != moved.eventId
    requires Fresh(db, result.taskId, result.expectedTaskVersion, result.expectedSequence)
    ensures var f := FileResult(db, result, blob, request, now, attached, moved);
            var a := Catalogued(blob, request);
            && (f.out.Ok? <==>
                  && !request.containsSecrets
                  && Compatible(db, a)
                  && ResultTask(db, result, a).Ok?
                  && Queue.Holds(db.queue, result.taskId, result.worker.workerId, now))
            && (f.out.Err? ==> f.out.error in {Validation, IdempotencyConflict, InvalidTransition, LeaseLost})
            && (f.out.Ok? ==>
                  && f.out.value && f.db.tasks == db.tasks[result.taskId := ResultTask(db, result, a).value]
                  && Sequence(f.db, result.taskId) == Sequence(db, result.taskId) + 2
                  && f.db == FiledResult(db, result, a, attached, moved))
  {
    hide Register, Transition, Queue.Holds, Queue.Complete, ResultRecordOnce, Compatible, ArtifactJson, Target;
    hide Attached, Changed, ResultEvent, ArtifactEvent;
    var id := result.taskId;
    var a := Catalogued(blob, request);
    var r := Register(db, id, blob, request, result.expectedTaskVersion, result.expectedSequence, attached);
    RegisterDecides(db, id, blob, request, result.expectedTaskVersion, result.expectedSequence, attached);
    if r.out.Ok? {
      RegisterShape(db, id, blob, request, result.expectedTaskVersion, result.expectedSequence, attached);
      AttachedParts(db, result, a, attached);
      MovedEvent(result, a, moved);
      var t := db.tasks[id].AttachArtifact(a.reference);
      var e := ResultEvent(result, r.out.value, moved);
      var n := result.expectedSequence + 1;
      TransitionDecides(r.db, id, result.target, result.worker.role, e, n, false);
      var m := Transition(r.db, id, result.target, result.worker.role, e, t.version, n, true, false);
      if m.out.Ok? {
        ChangedParts(db, result, a, attached, moved);
        CompleteDecides(m.db, id, result.worker.workerId, now);
        RecordDecides(m.db.UseQueue(Queue.Complete(m.db.queue, id, result.worker.workerId, now)).db, result);
      }
    }
  }

  lemma MovedEvent(result: WorkerResult, a: CatalogedArtifact, moved: Stamp)
    ensures var e := ResultEvent(result, a.reference, moved);
            e.eventId == moved.eventId && e.taskId == result.taskId && e.sequence == result.expectedSequence + 2
  {
  }

  // The database between the two task changes of a result.
  lemma AttachedParts(db: Db, result: WorkerResult, a: CatalogedArtifact, attached: Stamp)
    requires TasksOk(db.tasks) && result.taskId in db.tasks && Sequence(db, result.taskId) == result.expectedSequence
    ensures var id := result.taskId;
            var d := Attached(db, id, a, ArtifactEvent(id, a.reference, attached, result.expectedSequence));
            && TasksOk(d.tasks) && id in d.tasks && d.tasks[id] == db.tasks[id].AttachArtifact(a.reference)
            && Sequence(d, id) == result.expectedSequence + 1
            && (forall k | k in d.eventIds :: k in db.eventIds || k == attached.eventId)
  {
    hide ArtifactJson;
  }

  lemma ChangedParts(db: Db, result: WorkerResult, a: CatalogedArtifact, attached: Stamp, moved: Stamp)
    requires TasksOk(db.tasks) && result.taskId in db.tasks && Sequence(db, result.taskId) == result.expectedSequence
    requires ResultTask(db, result, a).Ok?
    ensures var id := result.taskId;
            var x := ResultTask(db, result, a).value;
            var d := Attached(db, id, a, ArtifactEvent(id, a.reference, attached, result.expectedSequence));
            var c := Changed(d, x, ResultEvent(result, a.reference, moved));
            && c.tasks == db.tasks[id := x] && c.queue == db.queue && c.results == db.results
            && Sequence(c, id) == Sequence(db, id) + 2
  {
    hide Target, ArtifactJson;
    TargetKeeps(db.tasks[result.taskId].AttachArtifact(a.reference), result.target, result.worker.role, false);
    Overwritten(db.tasks, result.taskId, db.tasks[result.taskId].AttachArtifact(a.reference),
                ResultTask(db, result, a).value);
  }

  lemma Overwritten(tasks: Tasks, id: Text, t: Task, x: Task)
    ensures tasks[id := t][id := x] == tasks[id := x]
  {
  }

  lemma RegisterDecides(db: Db, id: Text, blob: Blob, request: ArtifactRequest, v: nat, n: nat, stamp: Stamp)
    requires TasksOk(db.tasks) && stamp.eventId !in db.eventIds && Fresh(db, id, v, n)
    ensures var r := Register(db, id, blob, request, v, n, stamp);
            && (r.out.Ok? <==> !request.containsSecrets && Compatible(db, Catalogued(blob, request)))
            && (r.out.Err? ==> r.out.error in {Validation, IdempotencyConflict})
  {
    hide EventAppend, TaskUpdate, ArtifactJson;
    var a := Catalogued(blob, request);
    var d := db.(artifacts := db.artifacts[blob.digest := a]);
    var t := db.tasks[id].AttachArtifact(a.reference);
    UpdateShape(d, t, v);
    AppendShape(d, ArtifactEvent(id, a.reference, stamp, n), n);
    AppendShape(d.(tasks := d.tasks[id := t]), ArtifactEvent(id, a.reference, stamp, n), n);
  }

  lemma TargetErrors(task: Task, target: TaskStatus, actor: Role, granted: bool)
    ensures Target(task, target, actor, granted).Err? ==>
      Target(task, target, actor, granted).error == InvalidTransition
  {
  }

  lemma TransitionDecides(db: Db, id: Text, target: TaskStatus, actor: Role, e: Event, n: nat, granted: bool)
    requires TasksOk(db.tasks) && id in db.tasks && IsFresh(db, e) && e.taskId == id
    requires Sequence(db, id) == n && e.sequence == n + 1
    ensures var t := Transition(db, id, target, actor, e, db.tasks[id].version, n, true, granted);
            && (t.out.Ok? <==> Target(db.tasks[id], target, actor, granted).Ok?)
            && (t.out.Ok? ==> t.db == Changed(db, Target(db.tasks[id], target, actor, granted).value, e))
            && (t.out.Err? ==> t.out.error == InvalidTransition)
  {
    hide Advance, Target, EventAppend;
    TargetErrors(db.tasks[id], target, actor, granted);
    var task := Target(db.tasks[id], target, actor, granted);
    if task.Ok? {
      TargetKeeps(db.tasks[id], target, actor, granted);
      AdvanceShape(db, task.value, db.tasks[id].version, e, n);
    }
  }

  lemma CompleteDecides(db: Db, id: Text, w: Text, now: Time)
    ensures var q := db.UseQueue(Queue.Complete(db.queue, id, w, now));
            && (q.out.Ok? <==> Queue.Holds(db.queue, id, w, now))
            && (q.out.Err? ==> q.out.error == LeaseLost)
            && (q.out.Ok? ==> q.db == db.(queue := Queue.Remove(db.queue, id)))
            && q.db.tasks == db.tasks && q.db.events == db.events && q.db.results == db.results
  {
    hide Queue.Holds;
  }

  lemma RecordDecides(db: Db, r: WorkerResult)
    requires r.resultId !in db.results
    ensures var o := db.RecordResult(r);
            && o.out == Ok(true) && o.db == db.(results := db.results[r.resultId := r])
  {
  }
}

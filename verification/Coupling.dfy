// How tasks, histories, queue rows and source records hang together over service calls
// whose events are fresh and name their own task.

module Coupling {
  import opened Json
  import opened Domain
  import opened Records
  import opened Ledgers
  import opened Database
  import opened LedgerInvariants
  import opened Services
  import Queue

  /******* The coupling *******/

  // A queue row belongs to a task that has not failed.
  ghost predicate RowsBacked(q: Queue.Rows, tasks: Tasks) {
    forall id | Queue.Find(q, id).Some? :: id in tasks && tasks[id].status != FAILED
  }

  // Every task change left an event.
  ghost predicate VersionsCovered(tasks: Tasks, events: Events) {
    forall id | id in tasks :: tasks[id].version + 1 <= |History(events, id)|
  }

  ghost predicate HistoriesOwned(events: Events, tasks: Tasks) {
    forall id | id in events && events[id] != [] :: id in tasks
  }

  // Intakes and tasks correspond one to one, by id.
  ghost predicate IntakesOwned(intakes: Intakes, tasks: Tasks) {
    && (forall k | k in intakes :: intakes[k].taskId == k && k in tasks)
    && (forall k | k in tasks :: k in intakes)
  }

  // A source's task is the task named by its key.
  ghost predicate SourcesOwned(sources: Sources, intakes: Intakes) {
    forall k | k in sources :: sources[k].taskId == k && k in intakes
  }

  // A task's artifacts are catalogued as the task names them.
  ghost predicate ArtifactsKnown(tasks: Tasks, artifacts: Artifacts) {
    forall id, i | id in tasks && 0 <= i < |tasks[id].artifacts| ::
      && tasks[id].artifacts[i].digest in artifacts
      && artifacts[tasks[id].artifacts[i].digest].reference == tasks[id].artifacts[i]
  }

  ghost predicate WorkspacesOwned(workspaces: Workspaces, tasks: Tasks) {
    forall k | k in workspaces :: workspaces[k].request.taskId in tasks
  }

  ghost predicate Coupled(db: Db) {
    && RowsBacked(db.queue, db.tasks)
    && VersionsCovered(db.tasks, db.events)
    && HistoriesOwned(db.events, db.tasks)
    && IntakesOwned(db.intakes, db.tasks)
    && SourcesOwned(db.sources, db.intakes)
    && ArtifactsKnown(db.tasks, db.artifacts)
    && WorkspacesOwned(db.workspaces, db.tasks)
  }

  // FAILED is absorbing, and a row appears only together with its task.
  ghost predicate Kept(db: Db, db': Db) {
    && (forall id | id in db.tasks :: id in db'.tasks && (db.tasks[id].status == FAILED ==>
          db'.tasks[id].status == FAILED))
    && (forall id | Queue.Find(db'.queue, id).Some? && Queue.Find(db.queue, id).None? :: id !in db.tasks)
  }

  ghost predicate Next(db: Db, db': Db) { Coupled(db') && Kept(db, db') }

  lemma NextSelf(db: Db)
    requires Coupled(db)
    ensures Next(db, db)
  {
    hide Coupled;
  }

  lemma NextThen(a: Db, b: Db, c: Db)
    requires Next(a, b) && Next(b, c)
    ensures Next(a, c)
  {
  }

  // Calls that leave the coupled ledgers alone.
  ghost predicate SameWork(db: Db, db': Db) {
    && db'.tasks == db.tasks && db'.events == db.events && db'.queue == db.queue && db'.intakes == db.intakes
    && db'.sources == db.sources && db'.artifacts == db.artifacts && db'.workspaces == db.workspaces
  }

  lemma SameWorkNext(db: Db, db': Db)
    requires Coupled(db) && SameWork(db, db')
    ensures Next(db, db')
  {
  }

  /******* Events and tasks *******/

  ghost predicate IsFresh(db: Db, e: Event) { e.eventId !in db.eventIds }

  function Appended(db: Db, e: Event): Db {
    db.(events := db.events[e.taskId := History(db.events, e.taskId) + [e]], eventIds := db.eventIds[e.eventId := e])
  }

  lemma AppendShape(db: Db, e: Event, n: nat)
    requires IsFresh(db, e)
    ensures var a := db.AppendEvent(e, n);
            && (a.out.Ok? <==> Sequence(db, e.taskId) == n && e.sequence == n + 1)
            && (a.out.Ok? ==> a.db == Appended(db, e) && a.out.value == e)
            && (a.out.Err? ==> a.out.error == SequenceConflict)
  {
  }

  lemma AppendedNext(db: Db, e: Event)
    requires Coupled(db) && e.taskId in db.tasks
    ensures Next(db, Appended(db, e))
  {
    var d := Appended(db, e);
    assert VersionsCovered(d.tasks, d.events) by {
      forall id | id in d.tasks ensures d.tasks[id].version + 1 <= |History(d.events, id)| {
        assert |History(db.events, id)| <= |History(d.events, id)|;
      }
    }
    assert HistoriesOwned(d.events, d.tasks);
  }

  lemma AppendNext(db: Db, e: Event, n: nat)
    requires Coupled(db) && IsFresh(db, e) && e.taskId in db.tasks && db.AppendEvent(e, n).out.Ok?
    ensures Next(db, db.AppendEvent(e, n).db)
  {
    hide Coupled, Next;
    AppendShape(db, e, n);
    AppendedNext(db, e);
  }

  function Changed(db: Db, task: Task, e: Event): Db {
    Appended(db.(tasks := db.tasks[task.taskId := task]), e)
  }

  lemma AdvanceShape(db: Db, task: Task, v: nat, e: Event, n: nat)
    requires IsFresh(db, e)
    ensures var a := Advance(db, task, v, e, n);
            && (a.out.Ok? <==>
                  && task.taskId in db.tasks && db.tasks[task.taskId].version == v && task.version == v + 1
                  && Sequence(db, e.taskId) == n && e.sequence == n + 1)
            && (a.out.Ok? ==> a.db == Changed(db, task, e) && a.out.value == task)
            && (a.out.Err? ==> a.out.error in {OptimisticConflict, SequenceConflict})
  {
  }

  // A task change that takes one version and leaves one event.
  ghost predicate Takes(db: Db, task: Task, e: Event) {
    && task.taskId in db.tasks && e.taskId == task.taskId
    && task.version == db.tasks[task.taskId].version + 1
    && (db.tasks[task.taskId].status == FAILED ==> task.status == FAILED)
    && (task.status == FAILED ==> Queue.Find(db.queue, task.taskId).None?)
    && (forall i | 0 <= i < |task.artifacts| ::
          && task.artifacts[i].digest in db.artifacts
          && db.artifacts[task.artifacts[i].digest].reference == task.artifacts[i])
  }

  lemma ChangedNext(db: Db, task: Task, e: Event)
    requires Coupled(db) && Takes(db, task, e)
    ensures Next(db, Changed(db, task, e))
  {
    var d := Changed(db, task, e);
    assert VersionsCovered(d.tasks, d.events) by {
      forall id | id in d.tasks ensures d.tasks[id].version + 1 <= |History(d.events, id)| {
        assert id in db.tasks && db.tasks[id].version + 1 <= |History(db.events, id)|;
      }
    }
    assert HistoriesOwned(d.events, d.tasks);
    assert RowsBacked(d.queue, d.tasks);
    assert ArtifactsKnown(d.tasks, d.artifacts);
  }

  lemma AdvanceNext(db: Db, task: Task, v: nat, e: Event, n: nat)
    requires Coupled(db) && IsFresh(db, e) && Advance(db, task, v, e, n).out.Ok?
    requires task.taskId in db.tasks ==> Takes(db, task, e) || task.version != db.tasks[task.taskId].version + 1
    ensures Next(db, Advance(db, task, v, e, n).db)
  {
    hide Coupled, Next, Advance;
    AdvanceShape(db, task, v, e, n);
    ChangedNext(db, task, e);
  }

  /******* services.py *******/

  lemma TargetKeeps(task: Task, target: TaskStatus, actor: Role, granted: bool)
    requires Target(task, target, actor, granted).Ok?
    ensures var t := Target(task, target, actor, granted).value;
            && t.taskId == task.taskId && t.artifacts == task.artifacts && t.version == task.version + 1
            && t.status != FAILED && task.status != FAILED
  {
  }

  lemma TransitionNext(db: Db, id: Text, target: TaskStatus, actor: Role, e: Event, v: nat, n: nat, evidence: bool,
                       granted: bool)
    requires TasksOk(db.tasks) && Coupled(db) && IsFresh(db, e) && e.taskId == id
    requires Transition(db, id, target, actor, e, v, n, evidence, granted).out.Ok?
    ensures Next(db, Transition(db, id, target, actor, e, v, n, evidence, granted).db)
  {
    hide Next, Advance;
    var task := db.tasks[id];
    TargetKeeps(task, target, actor, granted);
    var t := Target(task, target, actor, granted).value;
    assert Takes(db, t, e);
    AdvanceNext(db, t, v, e, n);
  }

  lemma FailTaskNext(db: Db, id: Text, e: Event, n: nat)
    requires TasksOk(db.tasks) && Coupled(db) && IsFresh(db, e) && e.taskId == id && id in db.tasks
    requires Queue.Find(db.queue, id).None? && FailTask(db, db.tasks[id], e, n).out.Ok?
    ensures Next(db, FailTask(db, db.tasks[id], e, n).db)
    ensures FailTask(db, db.tasks[id], e, n).db == Changed(db, db.tasks[id].Move(FAILED), e)
    ensures db.tasks[id].status != FAILED
  {
    hide Next, Advance;
    var failed := db.tasks[id].Fail(SYSTEM).value;
    assert Takes(db, failed, e);
    AdvanceNext(db, failed, db.tasks[id].version, e, n);
    AdvanceShape(db, failed, db.tasks[id].version, e, n);
  }

  // No command but an enqueue adds a row.
  lemma RowsShrink(q: Queue.Rows, c: Queue.Command, id: Text)
    requires Queue.QueueOk(q) && !c.EnqueueRow? && Queue.Find(Queue.Execute(q, c).0, id).Some?
    ensures Queue.Find(q, id).Some?
  {
    Queue.ExecuteRow(q, c, id);
  }

  lemma QueueNext(db: Db, c: Queue.Command)
    requires Coupled(db) && Queue.QueueOk(db.queue) && !c.EnqueueRow?
    ensures Next(db, db.(queue := Queue.Execute(db.queue, c).0))
  {
    hide Queue.Execute;
    forall id | Queue.Find(Queue.Execute(db.queue, c).0, id).Some? ensures Queue.Find(db.queue, id).Some? {
      RowsShrink(db.queue, c, id);
    }
  }

  lemma ExhaustedRowGone(q: Queue.Rows, id: Text, w: Text, now: Time)
    requires Queue.QueueOk(q) && Queue.Fail(q, id, w, now).out.Ok? && Queue.Fail(q, id, w, now).out.value.terminal
    ensures Queue.Find(Queue.Fail(q, id, w, now).rows, id).None?
  {
    Queue.FindRemove(q, id, id);
  }

  lemma QueueFailNext(db: Db, id: Text, w: Text, now: Time, e: Event, n: nat)
    requires TasksOk(db.tasks) && Queue.QueueOk(db.queue) && Coupled(db) && IsFresh(db, e) && e.taskId == id
    requires QueueFail(db, id, w, now, e, n).out.Ok?
    ensures Next(db, QueueFail(db, id, w, now, e, n).db)
  {
    hide Next, FailTask, Coupled;
    var c := Queue.FailRow(id, w, now, []);
    var q := db.(queue := Queue.Execute(db.queue, c).0);
    QueueNext(db, c);
    assert Coupled(q) by { NextCoupled(db, q); }
    assert q == db.UseQueue(Queue.Fail(db.queue, id, w, now)).db;
    if Queue.Fail(db.queue, id, w, now).out.value.terminal {
      ExhaustedRowGone(db.queue, id, w, now);
      FailTaskNext(q, id, e, n);
      NextThen(db, q, FailTask(q, q.tasks[id], e, n).db);
    } else {
      AppendNext(q, e, n);
      NextThen(db, q, q.AppendEvent(e, n).db);
    }
  }

  lemma NextCoupled(db: Db, db': Db)
    requires Next(db, db')
    ensures Coupled(db')
  {
  }

  // The events given for recovery name their task and are fresh while it has not failed.
  ghost predicate EventsFor(db: Db, events: TerminalEvents) {
    && (forall id | id in events :: events[id].0.taskId == id)
    && (forall id | id in events && id in db.tasks && db.tasks[id].status != FAILED :: IsFresh(db, events[id].0))
    && (forall i, j | i in events && j in events && events[i].0.eventId == events[j].0.eventId :: i == j)
  }

  lemma EventsStayFor(db: Db, id: Text, events: TerminalEvents)
    requires EventsFor(db, events) && id in events && id in db.tasks && TasksOk(db.tasks)
    ensures EventsFor(Changed(db, db.tasks[id].Move(FAILED), events[id].0), events)
  {
  }

  lemma {:induction false} SettleRecoveredNext(db: Db, results: seq<Queue.FailureResult>, events: TerminalEvents)
    requires TasksOk(db.tasks) && Coupled(db) && EventsFor(db, events)
    requires forall i | 0 <= i < |results| && results[i].terminal :: Queue.Find(db.queue, results[i].taskId).None?
    requires SettleRecovered(db, results, events).out.Ok?
    ensures Next(db, SettleRecovered(db, results, events).db)
    decreases |results|
  {
    hide Next, FailTask, Coupled;
    NextSelf(db);
    if results != [] {
      var id := results[0].taskId;
      if results[0].terminal {
        var f := FailTask(db, db.tasks[id], events[id].0, events[id].1);
        FailedFirst(db, id, events);
        FailTaskNext(db, id, events[id].0, events[id].1);
        NextCoupled(db, f.db);
        EventsStayFor(db, id, events);
        SettleRecoveredNext(f.db, results[1..], events);
        NextThen(db, f.db, SettleRecovered(f.db, results[1..], events).db);
      } else {
        SettleRecoveredNext(db, results[1..], events);
      }
    }
  }

  lemma FailedFirst(db: Db, id: Text, events: TerminalEvents)
    requires EventsFor(db, events) && id in events && id in db.tasks
    requires FailTask(db, db.tasks[id], events[id].0, events[id].1).out.Ok?
    ensures IsFresh(db, events[id].0) && events[id].0.taskId == id
  {
  }

  lemma {:induction false} RecoveredIsGone(q: Queue.Rows, now: Time, i: nat)
    requires Queue.Unique(q) && i < |Queue.RecoverResults(q, now)| && Queue.RecoverResults(q, now)[i].terminal
    ensures Queue.Find(Queue.RecoverRows(q, now), Queue.RecoverResults(q, now)[i].taskId).None?
  {
    var id := Queue.RecoverResults(q, now)[i].taskId;
    Queue.FindRecover(q, now, id);
    TerminalExpired(q, now, i);
  }

  lemma {:induction false} TerminalExpired(q: Queue.Rows, now: Time, i: nat)
    requires Queue.Unique(q) && i < |Queue.RecoverResults(q, now)| && Queue.RecoverResults(q, now)[i].terminal
    ensures var r := Queue.Find(q, Queue.RecoverResults(q, now)[i].taskId);
            r.Some? && Queue.Expired(r.value, now) && r.value.attempt >= Queue.MAX_ATTEMPTS
  {
    if !Queue.Expired(q[0], now) {
      TerminalExpired(q[1..], now, i);
      Queue.FindId(q[1..], Queue.RecoverResults(q, now)[i].taskId);
    } else if i > 0 {
      assert Queue.RecoverResults(q, now)[i] == Queue.RecoverResults(q[1..], now)[i - 1];
      TerminalExpired(q[1..], now, i - 1);
      Queue.FindId(q[1..], Queue.RecoverResults(q, now)[i].taskId);
    }
  }

  lemma EventsForQueue(db: Db, db': Db, events: TerminalEvents)
    requires EventsFor(db, events) && db' == db.(queue := db'.queue)
    ensures EventsFor(db', events)
  {
  }

  lemma UniqueRows(q: Queue.Rows)
    requires Queue.QueueOk(q)
    ensures Queue.Unique(q)
  {
  }

  lemma RecoverNext(db: Db, now: Time, events: TerminalEvents)
    requires TasksOk(db.tasks) && Queue.QueueOk(db.queue) && Coupled(db) && EventsFor(db, events)
    requires Recover(db, now, events).out.Ok?
    ensures Next(db, Recover(db, now, events).db)
  {
    hide Next, SettleRecovered, Coupled, EventsFor, TasksOk, Queue.QueueOk, Queue.RecoverRows, Queue.RecoverResults;
    var c := Queue.RecoverExpired(now);
    var q := db.(queue := Queue.RecoverRows(db.queue, now));
    var results := Queue.RecoverResults(db.queue, now);
    QueueNext(db, c);
    assert q == db.(queue := Queue.Execute(db.queue, c).0);
    NextCoupled(db, q);
    EventsForQueue(db, q, events);
    assert Queue.Unique(db.queue) by { UniqueRows(db.queue); }
    forall i | 0 <= i < |results| && results[i].terminal ensures Queue.Find(q.queue, results[i].taskId).None? {
      RecoveredIsGone(db.queue, now, i);
    }
    SettleRecoveredNext(q, results, events);
    NextThen(db, q, SettleRecovered(q, results, events).db);
  }

  /******* artifacts.py *******/

  function Attached(db: Db, id: Text, artifact: CatalogedArtifact, e: Event): Db
    requires id in db.tasks
  {
    var t := db.tasks[id].AttachArtifact(artifact.reference);
    Appended(db.(artifacts := db.artifacts[artifact.reference.digest := artifact],
                 tasks := if t == db.tasks[id] then db.tasks else db.tasks[t.taskId := t]), e)
  }

  function Catalogued(blob: Blob, request: ArtifactRequest): CatalogedArtifact {
    CatalogedArtifact(ArtifactRef(blob.digest, request.logicalName, request.mediaType), request.classification,
                      request.sourceKind, blob.size)
  }

  lemma UpdateShape(db: Db, t: Task, v: nat)
    ensures var u := db.UpdateTask(t, v);
            && (u.out.Ok? <==> t.taskId in db.tasks && db.tasks[t.taskId].version == v && t.version == v + 1)
            && (u.out.Ok? ==> u.db == db.(tasks := db.tasks[t.taskId := t]))
            && (u.out.Err? ==> u.out.error == OptimisticConflict)
  {
  }

  lemma CatalogueShape(db: Db, a: CatalogedArtifact)
    ensures var r := db.RegisterArtifact(a);
            && (r.out.Ok? ==> a.reference.digest in db.artifacts ==> db.artifacts[a.reference.digest] == a)
            && (r.out.Ok? ==> r.db == db.(artifacts := db.artifacts[a.reference.digest := a]))
            && (r.out.Err? ==> r.out.error == IdempotencyConflict)
  {
  }

  // A registration that returns did exactly this.
  lemma RegisterShape(db: Db, id: Text, blob: Blob, request: ArtifactRequest, v: nat, n: nat, stamp: Stamp)
    requires TasksOk(db.tasks) && stamp.eventId !in db.eventIds
    requires Register(db, id, blob, request, v, n, stamp).out.Ok?
    ensures var r := Register(db, id, blob, request, v, n, stamp);
            var a := Catalogued(blob, request);
            && id in db.tasks && Sequence(db, id) == n
            && (blob.digest in db.artifacts ==> db.artifacts[blob.digest] == a)
            && r.db == Attached(db, id, a, ArtifactEvent(id, a.reference, stamp, n)) && r.out.value == a.reference
  {
    hide EventAppend, TaskUpdate, ArtifactRegister, ArtifactJson;
    var a := Catalogued(blob, request);
    CatalogueShape(db, a);
    var d := db.(artifacts := db.artifacts[blob.digest := a]);
    var t := db.tasks[id].AttachArtifact(a.reference);
    UpdateShape(d, t, v);
    AppendShape(d, ArtifactEvent(id, a.reference, stamp, n), n);
    AppendShape(d.(tasks := d.tasks[id := t]), ArtifactEvent(id, a.reference, stamp, n), n);
  }

  // With the current version and sequence it cannot conflict with the task or its history.
  lemma RegisterErrors(db: Db, id: Text, blob: Blob, request: ArtifactRequest, v: nat, n: nat, stamp: Stamp)
    requires TasksOk(db.tasks) && stamp.eventId !in db.eventIds && Fresh(db, id, v, n)
    requires Register(db, id, blob, request, v, n, stamp).out.Err?
    ensures Register(db, id, blob, request, v, n, stamp).out.error in {Validation, IdempotencyConflict}
  {
    hide EventAppend, TaskUpdate, ArtifactRegister, ArtifactJson;
    var a := Catalogued(blob, request);
    CatalogueShape(db, a);
    var d := db.(artifacts := db.artifacts[blob.digest := a]);
    var t := db.tasks[id].AttachArtifact(a.reference);
    UpdateShape(d, t, v);
    AppendShape(d, ArtifactEvent(id, a.reference, stamp, n), n);
    AppendShape(d.(tasks := d.tasks[id := t]), ArtifactEvent(id, a.reference, stamp, n), n);
  }

  lemma AttachedNext(db: Db, id: Text, a: CatalogedArtifact, e: Event)
    requires Coupled(db) && id in db.tasks && db.tasks[id].taskId == id && e.taskId == id
    requires a.reference.digest in db.artifacts ==> db.artifacts[a.reference.digest] == a
    ensures Next(db, Attached(db, id, a, e))
  {
    var d := db.(artifacts := db.artifacts[a.reference.digest := a]);
    assert ArtifactsKnown(d.tasks, d.artifacts);
    assert Next(db, d);
    var t := db.tasks[id].AttachArtifact(a.reference);
    if t == db.tasks[id] {
      AppendedNext(d, e);
    } else {
      if db.tasks[id].status == FAILED { FailedHasNoRow(db, id); }
      assert Takes(d, t, e);
      ChangedNext(d, t, e);
    }
    NextThen(db, d, Attached(db, id, a, e));
  }

  lemma FailedHasNoRow(db: Db, id: Text)
    requires Coupled(db) && (id in db.tasks ==> db.tasks[id].status == FAILED)
    ensures Queue.Find(db.queue, id).None?
  {
  }

  lemma RegisterNext(db: Db, id: Text, blob: Blob, request: ArtifactRequest, v: nat, n: nat, stamp: Stamp)
    requires TasksOk(db.tasks) && Coupled(db) && stamp.eventId !in db.eventIds
    requires Register(db, id, blob, request, v, n, stamp).out.Ok?
    ensures Next(db, Register(db, id, blob, request, v, n, stamp).db)
  {
    hide Next, Coupled, Register;
    RegisterShape(db, id, blob, request, v, n, stamp);
    var a := Catalogued(blob, request);
    AttachedNext(db, id, a, ArtifactEvent(id, a.reference, stamp, n));
  }

  /******* controller.py *******/

  function NewRow(request: IntakeRequest, at: Time): Queue.Row {
    Queue.Row(request.requestId, request.priority, at, request.requestId, None, None, 0)
  }

  function IntakeFiled(db: Db, request: IntakeRequest, task: Task, stamp: Stamp): Db {
    Appended(db.(tasks := db.tasks[request.requestId := task],
                 intakes := db.intakes[request.requestId :=
                                         IntakeRecord(request.requestId, request.Canonical(), request.requestId)],
                 queue := if request.enqueue then db.queue + [NewRow(request, stamp.at)] else db.queue),
             ReceivedEvent(request, stamp))
  }

  // An intake with a new request id fails only when a task already has that id.
  lemma FileIntakeShape(db: Db, request: IntakeRequest, task: Task, stamp: Stamp)
    requires Coupled(db) && stamp.eventId !in db.eventIds && request.requestId !in db.intakes
    requires task.taskId == request.requestId && task.version == 0
    ensures var f := FileIntake(db, request, task, stamp);
            && (f.out.Ok? <==> request.requestId !in db.tasks)
            && (f.out.Ok? ==> f.db == IntakeFiled(db, request, task, stamp) && f.out.value == task)
            && (f.out.Err? ==> f.out.error == CreateConflict)
  {
    if request.requestId !in db.tasks { FailedHasNoRow(db, request.requestId); }
  }

  lemma FiledRows(db: Db, request: IntakeRequest, at: Time, id: Text)
    requires Queue.Unique(db.queue) && Queue.Find(db.queue, request.requestId).None?
    ensures Queue.Find(db.queue + [NewRow(request, at)], id)
         == if id == request.requestId then Some(NewRow(request, at)) else Queue.Find(db.queue, id)
  {
    Queue.FindAppend(db.queue, NewRow(request, at), id);
  }

  lemma FiledBacked(db: Db, request: IntakeRequest, task: Task, stamp: Stamp)
    requires Queue.Unique(db.queue) && RowsBacked(db.queue, db.tasks) && request.requestId !in db.tasks
    requires task.status == RECEIVED
    ensures var d := IntakeFiled(db, request, task, stamp);
            && RowsBacked(d.queue, d.tasks)
            && forall id | Queue.Find(d.queue, id).Some? :: id == request.requestId || Queue.Find(db.queue, id).Some?
  {
    var d := IntakeFiled(db, request, task, stamp);
    forall id
      ensures Queue.Find(d.queue, id).Some? ==> id == request.requestId || Queue.Find(db.queue, id).Some?
    {
      FiledRows(db, request, stamp.at, id);
    }
  }

  lemma FiledHistories(db: Db, request: IntakeRequest, task: Task, stamp: Stamp)
    requires VersionsCovered(db.tasks, db.events) && HistoriesOwned(db.events, db.tasks)
    requires task.taskId == request.requestId && task.version == 0
    ensures var d := IntakeFiled(db, request, task, stamp);
            VersionsCovered(d.tasks, d.events) && HistoriesOwned(d.events, d.tasks)
  {
    hide IntakeRequest.Canonical;
    var d := IntakeFiled(db, request, task, stamp);
    forall id | id in d.tasks ensures d.tasks[id].version + 1 <= |History(d.events, id)| {
      if id != request.requestId { assert id in db.tasks; }
    }
  }

  lemma FiledOwners(db: Db, request: IntakeRequest, task: Task, stamp: Stamp)
    requires IntakesOwned(db.intakes, db.tasks) && SourcesOwned(db.sources, db.intakes)
    requires ArtifactsKnown(db.tasks, db.artifacts) && WorkspacesOwned(db.workspaces, db.tasks)
    requires request.requestId !in db.tasks && task.artifacts == []
    ensures var d := IntakeFiled(db, request, task, stamp);
            && IntakesOwned(d.intakes, d.tasks) && SourcesOwned(d.sources, d.intakes)
            && ArtifactsKnown(d.tasks, d.artifacts) && WorkspacesOwned(d.workspaces, d.tasks)
  {
    hide IntakeRequest.Canonical, ReceivedEvent;
  }

  lemma FiledNext(db: Db, request: IntakeRequest, task: Task, stamp: Stamp)
    requires Queue.Unique(db.queue) && Coupled(db) && request.requestId !in db.tasks
    requires task.taskId == request.requestId && task.version == 0 && task.status == RECEIVED && task.artifacts == []
    ensures Next(db, IntakeFiled(db, request, task, stamp))
  {
    hide IntakeRequest.Canonical, RowsBacked, VersionsCovered, HistoriesOwned, ReceivedEvent, IntakesOwned,
         SourcesOwned,
         ArtifactsKnown, WorkspacesOwned;
    FiledBacked(db, request, task, stamp);
    FiledHistories(db, request, task, stamp);
    FiledOwners(db, request, task, stamp);
  }

  lemma StartNext(db: Db, request: IntakeRequest, stamp: Stamp)
    requires Queue.QueueOk(db.queue) && Coupled(db) && stamp.eventId !in db.eventIds
    requires Start(db, request, stamp).out.Ok?
    ensures Next(db, Start(db, request, stamp).db)
  {
    hide Next, FileIntake;
    NextSelf(db);
    if request.requestId !in db.intakes {
      var task := IntakeTask(request, stamp.at).value;
      FileIntakeShape(db, request, task, stamp);
      FiledNext(db, request, task, stamp);
    }
  }

  lemma ClaimNextNext(db: Db, w: Text, now: Time, lease: int)
    requires Queue.QueueOk(db.queue) && Coupled(db)
    ensures Next(db, ClaimNext(db, w, now, lease).db)
  {
    hide Next, Coupled;
    NextSelf(db);
    QueueNext(db, Queue.ClaimRow(w, now, lease));
    assert Queue.Execute(db.queue, Queue.ClaimRow(w, now, lease)).0 == Queue.Claim(db.queue, w, now, lease).rows;
  }

  lemma FuseNext(db: Db, now: Time, granted: bool, revision: Option<Text>)
    requires Coupled(db)
    ensures Next(db, Engage(db, now).db)
    ensures Next(db, Release(db, now, granted, revision).db)
  {
    hide Next, Coupled;
    SameWorkNext(db, Engage(db, now).db);
    SameWorkNext(db, Release(db, now, granted, revision).db);
  }

  /******* ingestion.py *******/

  ghost predicate FreshDraws(db: Db, d: IngestDraws) {
    && d.received.eventId !in db.eventIds && d.attached.eventId !in db.eventIds && d.ingested.eventId !in db.eventIds
    && d.received.eventId != d.attached.eventId && d.received.eventId != d.ingested.eventId
    && d.attached.eventId != d.ingested.eventId
  }

  // Only the event's own id leaves the fresh ones.
  ghost predicate Uses(db: Db, db': Db, eventId: Text) {
    forall id | id in db'.eventIds :: id in db.eventIds || id == eventId
  }

  lemma StartNames(db: Db, request: IntakeRequest, stamp: Stamp)
    requires TasksOk(db.tasks) && Coupled(db) && stamp.eventId !in db.eventIds && Start(db, request, stamp).out.Ok?
    ensures var s := Start(db, request, stamp);
            && s.out.value.taskId == request.requestId && request.requestId in s.db.intakes
            && Uses(db, s.db, stamp.eventId) && TasksOk(s.db.tasks) && s.db.sources == db.sources
  {
    hide FileIntake;
    if request.requestId !in db.intakes {
      FileIntakeShape(db, request, IntakeTask(request, stamp.at).value, stamp);
    }
  }

  lemma RegisterUses(db: Db, id: Text, blob: Blob, request: ArtifactRequest, v: nat, n: nat, stamp: Stamp)
    requires TasksOk(db.tasks) && stamp.eventId !in db.eventIds && Register(db, id, blob, request, v, n, stamp).out.Ok?
    ensures var r := Register(db, id, blob, request, v, n, stamp).db;
            && Uses(db, r, stamp.eventId) && TasksOk(r.tasks) && r.sources == db.sources && r.intakes == db.intakes
            && r.queue == db.queue
  {
    hide Register;
    RegisterShape(db, id, blob, request, v, n, stamp);
  }

  function SourceFiled(db: Db, record: IssueIngestionRecord): Db {
    db.(sources := db.sources[record.sourceKey := record])
  }

  lemma SourceFiledNext(db: Db, record: IssueIngestionRecord)
    requires Coupled(db) && record.taskId == record.sourceKey && record.sourceKey in db.intakes
    ensures Next(db, SourceFiled(db, record))
  {
  }

  lemma FileSourceNext(db: Db, c: IssueCandidate, revision: Option<Text>, draws: IngestDraws)
    requires TasksOk(db.tasks) && Queue.QueueOk(db.queue) && Coupled(db) && FreshDraws(db, draws)
    requires c.sourceKey !in db.sources && FileSource(db, c, revision, draws).out.Ok?
    ensures Next(db, FileSource(db, c, revision, draws).db)
  {
    hide Next, Coupled, Start, Register;
    var request := IngestRequest(c, revision);
    var s := Start(db, request, draws.received);
    StartNext(db, request, draws.received);
    NextCoupled(db, s.db);
    StartNames(db, request, draws.received);
    var task := s.out.value;
    var m := Sequence(s.db, task.taskId);
    var r := Register(s.db, task.taskId, draws.blob, ISSUE_ARTIFACT, task.version, m, draws.attached);
    RegisterNext(s.db, task.taskId, draws.blob, ISSUE_ARTIFACT, task.version, m, draws.attached);
    RegisterUses(s.db, task.taskId, draws.blob, ISSUE_ARTIFACT, task.version, m, draws.attached);
    NextCoupled(s.db, r.db);
    NextThen(db, s.db, r.db);
    var n := Sequence(r.db, task.taskId);
    var e := SourceEvent(c, task.taskId, r.out.value.digest, draws.ingested, n);
    AppendShape(r.db, e, n);
    AppendNext(r.db, e, n);
    NextCoupled(r.db, Appended(r.db, e));
    NextThen(db, r.db, Appended(r.db, e));
    var record := IssueIngestionRecord(c.sourceKey, c.Canonical(), task.taskId, c.triggerEventId);
    SourceFiledNext(Appended(r.db, e), record);
    NextThen(db, Appended(r.db, e), SourceFiled(Appended(r.db, e), record));
  }

  lemma IngestNext(db: Db, c: IssueCandidate, granted: bool, revision: Option<Text>, draws: IngestDraws)
    requires TasksOk(db.tasks) && Queue.QueueOk(db.queue) && Coupled(db) && FreshDraws(db, draws)
    requires Ingest(db, c, granted, revision, draws).out.Ok?
    ensures Next(db, Ingest(db, c, granted, revision, draws).db)
  {
    hide Next, Coupled, FileSource;
    NextSelf(db);
    if c.sourceKey !in db.sources { FileSourceNext(db, c, revision, draws); }
  }

  /******* runners.py, workers.py *******/

  lemma RequestSessionNext(db: Db, r: RunnerSessionRequest, stamp: Stamp)
    requires Coupled(db) && stamp.eventId !in db.eventIds && RequestSession(db, r, stamp).out.Ok?
    ensures Next(db, RequestSession(db, r, stamp).db)
  {
    hide Next, Coupled, EventAppend;
    NextSelf(db);
    var s := db.RecordSession(r).db;
    SameWorkNext(db, s);
    NextCoupled(db, s);
    if r.sessionId !in db.sessions {
      AppendNext(s, SessionEvent(r, stamp), r.expectedSequence);
      NextThen(db, s, s.AppendEvent(SessionEvent(r, stamp), r.expectedSequence).db);
    }
  }

  lemma RunWorkerNext(db: Db, id: Text, answer: RunnerSessionOutcome)
    requires Coupled(db)
    ensures Next(db, RunWorker(db, id, answer).db)
  {
    hide Next, Coupled, SessionSetOutcome;
    NextSelf(db);
    SameWorkNext(db, db.SetOutcome(answer).db);
  }

  lemma TransitionKeepsTasks(db: Db, id: Text, target: TaskStatus, actor: Role, e: Event, v: nat, n: nat,
                             evidence: bool, granted: bool)
    ensures var t := Transition(db, id, target, actor, e, v, n, evidence, granted).db;
            t.queue == db.queue && t.results == db.results
  {
  }

  lemma CompleteNext(db: Db, id: Text, w: Text, now: Time)
    requires Coupled(db) && Queue.QueueOk(db.queue)
    ensures Next(db, db.UseQueue(Queue.Complete(db.queue, id, w, now)).db)
  {
    hide Next, Coupled;
    QueueNext(db, Queue.CompleteRow(id, w, now));
    assert Queue.Execute(db.queue, Queue.CompleteRow(id, w, now)).0 == Queue.Complete(db.queue, id, w, now).rows;
  }

  lemma FileResultNext(db: Db, result: WorkerResult, blob: Blob, request: ArtifactRequest, now: Time, attached: Stamp,
                       moved: Stamp)
    requires TasksOk(db.tasks) && Queue.QueueOk(db.queue) && Coupled(db)
    requires attached.eventId !in db.eventIds && moved.eventId !in db.eventIds && attached.eventId != moved.eventId
    requires FileResult(db, result, blob, request, now, attached, moved).out.Ok?
    ensures Next(db, FileResult(db, result, blob, request, now, attached, moved).db)
  {
    hide Next, Coupled, Register, Transition, ResultRecordOnce;
    var id, w := result.taskId, result.worker;
    var r := Register(db, id, blob, request, result.expectedTaskVersion, result.expectedSequence, attached);
    RegisterNext(db, id, blob, request, result.expectedTaskVersion, result.expectedSequence, attached);
    RegisterUses(db, id, blob, request, result.expectedTaskVersion, result.expectedSequence, attached);
    NextCoupled(db, r.db);
    var e := ResultEvent(result, r.out.value, moved);
    var v, n := r.db.tasks[id].version, result.expectedSequence + 1;
    var t := Transition(r.db, id, result.target, w.role, e, v, n, true, false).db;
    TransitionNext(r.db, id, result.target, w.role, e, v, n, true, false);
    TransitionKeepsTasks(r.db, id, result.target, w.role, e, v, n, true, false);
    NextCoupled(r.db, t);
    NextThen(db, r.db, t);
    var q := t.UseQueue(Queue.Complete(t.queue, id, w.workerId, now)).db;
    CompleteNext(t, id, w.workerId, now);
    NextCoupled(t, q);
    NextThen(db, t, q);
    SameWorkNext(q, q.RecordResult(result).db);
    NextThen(db, q, q.RecordResult(result).db);
  }

  lemma PublishResultNext(db: Db, result: WorkerResult, blob: Blob, request: ArtifactRequest, now: Time,
                          attached: Stamp, moved: Stamp)
    requires TasksOk(db.tasks) && Queue.QueueOk(db.queue) && Coupled(db)
    requires attached.eventId !in db.eventIds && moved.eventId !in db.eventIds && attached.eventId != moved.eventId
    requires PublishResult(db, result, blob, request, now, attached, moved).out.Ok?
    ensures Next(db, PublishResult(db, result, blob, request, now, attached, moved).db)
  {
    hide Next, Coupled, FileResult;
    NextSelf(db);
    if result.resultId !in db.results { FileResultNext(db, result, blob, request, now, attached, moved); }
  }

  lemma CancelNext(db: Db, id: Text, w: Text, now: Time, granted: bool, revision: Option<Text>, n: nat, stamp: Stamp)
    requires TasksOk(db.tasks) && Queue.QueueOk(db.queue) && Coupled(db) && stamp.eventId !in db.eventIds
    requires Cancel(db, id, w, now, granted, revision, n, stamp).out.Ok?
    ensures Next(db, Cancel(db, id, w, now, granted, revision, n, stamp).db)
  {
    hide Next, Advance, Queue.Complete;
    var blocked, e := db.tasks[id].Block().value, CancelEvent(id, stamp, n);
    assert Takes(db, blocked, e);
    AdvanceNext(db, blocked, db.tasks[id].version, e, n);
    AdvanceShape(db, blocked, db.tasks[id].version, e, n);
    var b := Changed(db, blocked, e);
    NextCoupled(db, b);
    CompleteNext(b, id, w, now);
    NextThen(db, b, b.UseQueue(Queue.Complete(b.queue, id, w, now)).db);
  }

  /******* workspaces.py *******/

  lemma WorkspaceFiledNext(db: Db, record: WorkspaceRecord)
    requires Coupled(db) && record.request.taskId in db.tasks
    ensures Next(db, db.RecordWorkspace(record).db)
  {
  }

  lemma AllocateNext(db: Db, m: Manager, r: WorkspaceRequest, granted: bool, stamp: Stamp)
    requires Coupled(db) && WorkspacesOwned(m, db.tasks) && stamp.eventId !in db.eventIds
    ensures WorkspacesOwned(Allocate(db, m, r, granted, stamp).1, db.tasks)
    ensures Allocate(db, m, r, granted, stamp).0.out.Ok? ==> Next(db, Allocate(db, m, r, granted, stamp).0.db)
  {
    hide Next, Coupled, FileWorkspace, Policy;
    NextSelf(db);
    if r.taskId in db.tasks && Policy(db.tasks[r.taskId], r, granted).Ok? {
      var p := ManagerAllocate(m, r, db.tasks[r.taskId].repository.name, Policy(db.tasks[r.taskId], r, granted).value);
      assert WorkspacesOwned(p.m, db.tasks);
      if p.out.Ok? && FileWorkspace(db, p.out.value, r, stamp).out.Ok? {
        FileWorkspaceNext(db, p.out.value, r, stamp);
      }
    }
  }

  lemma FileWorkspaceNext(db: Db, record: WorkspaceRecord, r: WorkspaceRequest, stamp: Stamp)
    requires Coupled(db) && record.request.taskId in db.tasks && r.taskId in db.tasks && stamp.eventId !in db.eventIds
    requires FileWorkspace(db, record, r, stamp).out.Ok?
    ensures Next(db, FileWorkspace(db, record, r, stamp).db)
  {
    hide Next, Coupled, EventAppend, WorkspaceRecordOnce;
    var w := db.RecordWorkspace(record);
    WorkspaceFiledNext(db, record);
    NextCoupled(db, w.db);
    if w.out.value.1 {
      AppendNext(w.db, AllocatedEvent(r, stamp), r.expectedSequence);
      NextThen(db, w.db, w.db.AppendEvent(AllocatedEvent(r, stamp), r.expectedSequence).db);
    }
  }

  lemma WorkspaceReleasedNext(db: Db, id: Text)
    requires Coupled(db)
    ensures var w := db.ReleaseWorkspace(id);
            && Next(db, w.db) && w.db.tasks == db.tasks && w.db.eventIds == db.eventIds
            && (w.out.Ok? ==> w.out.value.request.taskId in db.tasks)
  {
  }

  lemma ReleaseAllocationNext(db: Db, m: Manager, id: Text, stamp: Stamp)
    requires Coupled(db) && WorkspacesOwned(m, db.tasks) && stamp.eventId !in db.eventIds
    ensures WorkspacesOwned(ReleaseAllocation(db, m, id, stamp).1, db.tasks)
    ensures ReleaseAllocation(db, m, id, stamp).0.out.Ok? ==> Next(db, ReleaseAllocation(db, m, id, stamp).0.db)
  {
    hide Next, Coupled, EventAppend, WorkspaceRelease;
    NextSelf(db);
    WorkspaceReleasedNext(db, id);
    var w := db.ReleaseWorkspace(id);
    NextCoupled(db, w.db);
    if w.out.Ok? {
      var n := Sequence(w.db, w.out.value.request.taskId);
      var e := ReleasedEvent(w.out.value, stamp, n);
      if w.db.AppendEvent(e, n).out.Ok? {
        AppendNext(w.db, e, n);
        NextThen(db, w.db, w.db.AppendEvent(e, n).db);
      }
    }
  }
}

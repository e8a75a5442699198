// The retry budget of a task over runs of service calls: how often its row is claimed and
// how long its failures may delay it.

module RetryBudget {
  import opened Json
  import opened Domain
  import opened Records
  import opened Ledgers
  import opened Database
  import opened LedgerInvariants
  import opened Services
  import opened Publication
  import opened Coupling
  import opened ServiceRuns
  import Queue
  import QueueLease

  /******* A committed call uses the queue at most once *******/

  ghost predicate OneCommand(q: Queue.Rows, q': Queue.Rows) {
    q' == q || exists c :: q' == Queue.Execute(q, c).0
  }

  lemma StoreQueue(db: Db, task: Task, v: nat, e: Event, n: nat)
    ensures db.UpdateTask(task, v).db.queue == db.queue && db.AppendEvent(e, n).db.queue == db.queue
  {
    hide TaskUpdate, EventAppend;
  }

  lemma LedgerQueue(db: Db, a: CatalogedArtifact, r: RunnerSessionRequest, o: RunnerSessionOutcome)
    ensures db.RegisterArtifact(a).db.queue == db.queue
    ensures db.RecordSession(r).db.queue == db.queue && db.SetOutcome(o).db.queue == db.queue
  {
    hide ArtifactRegister, SessionRecordOnce, SessionSetOutcome;
  }

  lemma LedgeredQueue(db: Db, w: WorkspaceRecord, id: Text)
    ensures db.RecordWorkspace(w).db.queue == db.queue && db.ReleaseWorkspace(id).db.queue == db.queue
  {
    hide WorkspaceRecordOnce, WorkspaceRelease;
  }

  lemma AdvanceQueue(db: Db, task: Task, v: nat, e: Event, n: nat)
    ensures Advance(db, task, v, e, n).db.queue == db.queue
  {
    hide TaskUpdate, EventAppend;
  }

  lemma FailTaskQueue(db: Db, task: Task, e: Event, n: nat)
    ensures FailTask(db, task, e, n).db.queue == db.queue
  {
    hide Advance, Task.Fail;
    if task.Fail(SYSTEM).Ok? { AdvanceQueue(db, task.Fail(SYSTEM).value, task.version, e, n); }
  }

  lemma TransitionQueue(db: Db, id: Text, target: TaskStatus, actor: Role, e: Event, v: nat, n: nat, evidence: bool,
                        granted: bool)
    ensures Transition(db, id, target, actor, e, v, n, evidence, granted).db.queue == db.queue
  {
    hide Advance, Target;
    if id in db.tasks && Target(db.tasks[id], target, actor, granted).Ok? {
      AdvanceQueue(db, Target(db.tasks[id], target, actor, granted).value, v, e, n);
    }
  }

  lemma QueueFailQueue(db: Db, id: Text, w: Text, now: Time, e: Event, n: nat)
    requires QueueFail(db, id, w, now, e, n).out.Ok?
    ensures var c := Queue.FailRow(id, w, now, []);
            && QueueFail(db, id, w, now, e, n).db.queue == Queue.Execute(db.queue, c).0
            && Queue.Execute(db.queue, c).1 == Queue.Failed(QueueFail(db, id, w, now, e, n).out.value)
  {
    hide FailTask, EventAppend, Queue.Fail;
    var q := db.UseQueue(Queue.Fail(db.queue, id, w, now));
    FailTaskQueue(q.db, db.tasks[id], e, n);
  }

  lemma {:induction false} SettleQueue(db: Db, results: seq<Queue.FailureResult>, events: TerminalEvents)
    ensures SettleRecovered(db, results, events).db.queue == db.queue
    decreases |results|
  {
    hide FailTask;
    if results != [] {
      var id := results[0].taskId;
      if !results[0].terminal {
        SettleQueue(db, results[1..], events);
      } else if id in db.tasks && id in events {
        FailTaskQueue(db, db.tasks[id], events[id].0, events[id].1);
        SettleQueue(FailTask(db, db.tasks[id], events[id].0, events[id].1).db, results[1..], events);
      }
    }
  }

  lemma RecoverQueue(db: Db, now: Time, events: TerminalEvents)
    ensures Recover(db, now, events).db.queue == Queue.Execute(db.queue, Queue.RecoverExpired(now)).0
  {
    hide SettleRecovered;
    SettleQueue(db.(queue := Queue.RecoverRows(db.queue, now)), Queue.RecoverResults(db.queue, now), events);
  }

  lemma RegisterQueue(db: Db, id: Text, blob: Blob, request: ArtifactRequest, v: nat, n: nat, stamp: Stamp)
    ensures Register(db, id, blob, request, v, n, stamp).db.queue == db.queue
  {
    hide Db.RegisterArtifact, Db.UpdateTask, Db.AppendEvent, ArtifactEvent;
    var reference := ArtifactRef(blob.digest, request.logicalName, request.mediaType);
    var r := db.RegisterArtifact(CatalogedArtifact(reference, request.classification, request.sourceKind, blob.size));
    LedgerQueue(db, CatalogedArtifact(reference, request.classification, request.sourceKind, blob.size), NO_SESSION,
                NO_ANSWER);
    if id in db.tasks {
      var updated := db.tasks[id].AttachArtifact(reference);
      var e := ArtifactEvent(id, reference, stamp, n);
      StoreQueue(r.db, updated, v, e, n);
      StoreQueue(r.db.UpdateTask(updated, v).db, updated, v, e, n);
    }
  }

  lemma EnqueueQueue(db: Db, id: Text, priority: int, at: Time, key: Text)
    ensures OneCommand(db.queue, db.UseQueue(Queue.Enqueue(db.queue, id, priority, at, key)).db.queue)
  {
    hide Queue.Enqueue;
    assert Queue.Execute(db.queue, Queue.EnqueueRow(id, priority, at, key)).0
         == Queue.Enqueue(db.queue, id, priority, at, key).rows;
  }

  lemma FileIntakeQueue(db: Db, request: IntakeRequest, task: Task, stamp: Stamp)
    ensures OneCommand(db.queue, FileIntake(db, request, task, stamp).db.queue)
  {
    hide OneCommand, TaskCreate, IntakeCreate, EventAppend, ReceivedEvent, Queue.Enqueue;
    SameQueue(db.queue);
    EnqueueQueue(db, task.taskId, request.priority, stamp.at, request.requestId);
  }

  lemma SameQueue(q: Queue.Rows)
    ensures OneCommand(q, q)
  {
  }

  lemma StartQueue(db: Db, request: IntakeRequest, stamp: Stamp)
    ensures OneCommand(db.queue, Start(db, request, stamp).db.queue)
  {
    hide OneCommand, FileIntake, IntakeTask;
    SameQueue(db.queue);
    if IntakeTask(request, stamp.at).Ok? { FileIntakeQueue(db, request, IntakeTask(request, stamp.at).value, stamp); }
  }

  lemma NoteSourceQueue(db: Db, c: IssueCandidate, id: Text, currentId: Text, digest: Text, stamp: Stamp)
    ensures NoteSource(db, c, id, currentId, digest, stamp).db.queue == db.queue
  {
    hide EventAppend, SourceRecordOnce, SourceEvent;
  }

  lemma FileSourceQueue(db: Db, c: IssueCandidate, revision: Option<Text>, draws: IngestDraws)
    ensures OneCommand(db.queue, FileSource(db, c, revision, draws).db.queue)
  {
    hide OneCommand, Start, Register, NoteSource;
    var s := Start(db, IngestRequest(c, revision), draws.received);
    StartQueue(db, IngestRequest(c, revision), draws.received);
    if s.out.Ok? {
      var task := s.out.value;
      var n := Sequence(s.db, task.taskId);
      var r := Register(s.db, task.taskId, draws.blob, ISSUE_ARTIFACT, task.version, n, draws.attached);
      RegisterQueue(s.db, task.taskId, draws.blob, ISSUE_ARTIFACT, task.version, n, draws.attached);
      if r.out.Ok? && task.taskId in r.db.tasks {
        NoteSourceQueue(r.db, c, task.taskId, r.db.tasks[task.taskId].taskId, r.out.value.digest, draws.ingested);
      }
    }
  }

  lemma IngestQueue(db: Db, c: IssueCandidate, granted: bool, revision: Option<Text>, draws: IngestDraws)
    ensures OneCommand(db.queue, Ingest(db, c, granted, revision, draws).db.queue)
  {
    hide OneCommand, FileSource;
    SameQueue(db.queue);
    FileSourceQueue(db, c, revision, draws);
  }

  lemma ClaimQueue(db: Db, w: Text, now: Time, lease: int)
    requires ClaimNext(db, w, now, lease).out.Ok?
    ensures var c := Queue.ClaimRow(w, now, lease);
            && ClaimNext(db, w, now, lease).db.queue == Queue.Execute(db.queue, c).0
            && Queue.Execute(db.queue, c).1 == Queue.Leased(ClaimNext(db, w, now, lease).out.value)
  {
    hide Queue.Claim;
  }

  lemma CompleteQueue(db: Db, id: Text, w: Text, now: Time)
    ensures OneCommand(db.queue, db.UseQueue(Queue.Complete(db.queue, id, w, now)).db.queue)
  {
    hide Queue.Complete;
    assert Queue.Execute(db.queue, Queue.CompleteRow(id, w, now)).0 == Queue.Complete(db.queue, id, w, now).rows;
  }

  lemma CancelQueue(db: Db, id: Text, w: Text, now: Time, granted: bool, revision: Option<Text>, n: nat, stamp: Stamp)
    ensures OneCommand(db.queue, Cancel(db, id, w, now, granted, revision, n, stamp).db.queue)
  {
    hide OneCommand, Advance, Task.Block, Queue.Complete, CancelEvent;
    SameQueue(db.queue);
    if id in db.tasks && db.tasks[id].Block().Ok? {
      var blocked := db.tasks[id].Block().value;
      var b := Advance(db, blocked, db.tasks[id].version, CancelEvent(id, stamp, n), n);
      AdvanceQueue(db, blocked, db.tasks[id].version, CancelEvent(id, stamp, n), n);
      CompleteQueue(b.db, id, w, now);
    }
  }

  lemma FileResultQueue(db: Db, r: WorkerResult, blob: Blob, request: ArtifactRequest, now: Time, attached: Stamp,
                        moved: Stamp)
    ensures OneCommand(db.queue, FileResult(db, r, blob, request, now, attached, moved).db.queue)
  {
    hide OneCommand, Register, Transition, Queue.Complete, ResultRecordOnce, ResultEvent;
    SameQueue(db.queue);
    var a := Register(db, r.taskId, blob, request, r.expectedTaskVersion, r.expectedSequence, attached);
    RegisterQueue(db, r.taskId, blob, request, r.expectedTaskVersion, r.expectedSequence, attached);
    if a.out.Ok? && r.taskId in a.db.tasks {
      var e, v, n := ResultEvent(r, a.out.value, moved), a.db.tasks[r.taskId].version, r.expectedSequence + 1;
      var t := Transition(a.db, r.taskId, r.target, r.worker.role, e, v, n, true, false);
      TransitionQueue(a.db, r.taskId, r.target, r.worker.role, e, v, n, true, false);
      CompleteQueue(t.db, r.taskId, r.worker.workerId, now);
    }
  }

  lemma PublishResultQueue(db: Db, r: WorkerResult, blob: Blob, request: ArtifactRequest, now: Time, attached: Stamp,
                           moved: Stamp)
    ensures OneCommand(db.queue, PublishResult(db, r, blob, request, now, attached, moved).db.queue)
  {
    hide OneCommand, FileResult;
    SameQueue(db.queue);
    FileResultQueue(db, r, blob, request, now, attached, moved);
  }

  lemma FileSessionQueue(db: Db, r: RunnerSessionRequest, stamp: Stamp)
    ensures FileSession(db, r, stamp).db.queue == db.queue
  {
    hide Db.RecordSession, Db.AppendEvent, SessionEvent;
    LedgerQueue(db, NO_ARTIFACT, r, NO_ANSWER);
    StoreQueue(db.RecordSession(r).db, NO_TASK, 0, SessionEvent(r, stamp), r.expectedSequence);
  }

  lemma RequestQueue(db: Db, r: RunnerSessionRequest, stamp: Stamp)
    ensures RequestSession(db, r, stamp).db.queue == db.queue
  {
    hide FileSession;
    FileSessionQueue(db, r, stamp);
  }

  lemma RunQueue(db: Db, id: Text, answer: RunnerSessionOutcome)
    ensures RunWorker(db, id, answer).db.queue == db.queue
  {
    hide Db.SetOutcome;
    LedgerQueue(db, NO_ARTIFACT, NO_SESSION, answer);
  }

  lemma FileWorkspaceQueue(db: Db, record: WorkspaceRecord, r: WorkspaceRequest, stamp: Stamp)
    ensures FileWorkspace(db, record, r, stamp).db.queue == db.queue
  {
    hide Db.RecordWorkspace, Db.AppendEvent, AllocatedEvent;
    LedgeredQueue(db, record, r.allocationId);
    StoreQueue(db.RecordWorkspace(record).db, NO_TASK, 0, AllocatedEvent(r, stamp), r.expectedSequence);
  }

  lemma AllocateQueue(db: Db, m: Manager, r: WorkspaceRequest, granted: bool, stamp: Stamp)
    ensures Allocate(db, m, r, granted, stamp).0.db.queue == db.queue
  {
    hide FileWorkspace, Policy, ManagerAllocate, ManagerRelease;
    if r.taskId in db.tasks && Policy(db.tasks[r.taskId], r, granted).Ok? {
      var p := ManagerAllocate(m, r, db.tasks[r.taskId].repository.name, Policy(db.tasks[r.taskId], r, granted).value);
      if p.out.Ok? { FileWorkspaceQueue(db, p.out.value, r, stamp); }
    }
  }

  lemma ReleaseQueue(db: Db, m: Manager, id: Text, stamp: Stamp)
    ensures ReleaseAllocation(db, m, id, stamp).0.db.queue == db.queue
  {
    hide ManagerRelease, Db.ReleaseWorkspace, Db.AppendEvent, ReleasedEvent;
    var w := db.ReleaseWorkspace(id);
    LedgeredQueue(db, NO_RECORD, id);
    if w.out.Ok? {
      var n := Sequence(w.db, w.out.value.request.taskId);
      StoreQueue(w.db, NO_TASK, 0, ReleasedEvent(w.out.value, stamp, n), n);
    }
  }

  lemma FuseQueue(db: Db, now: Time, granted: bool, revision: Option<Text>)
    ensures Engage(db, now).db.queue == db.queue && Release(db, now, granted, revision).db.queue == db.queue
  {
  }

  predicate OnLeases(c: Call) { c.CallFail? || c.CallRecover? || c.CallClaim? || c.CallCancel? }

  lemma LeaseCallQueue(w: World, c: Call)
    requires OnLeases(c) && ServeDb(w, c).1
    ensures OneCommand(w.db.queue, ServeDb(w, c).0.queue)
  {
    hide QueueFail, Recover, ClaimNext, Cancel, OneCommand, Queue.Execute;
    match c
    case CallFail(id, worker, now, e, n) =>
      QueueFailQueue(w.db, id, worker, now, e, n);
      CommandIsOne(w.db.queue, Queue.FailRow(id, worker, now, []));
    case CallRecover(now, events) =>
      RecoverQueue(w.db, now, events);
      CommandIsOne(w.db.queue, Queue.RecoverExpired(now));
    case CallClaim(worker, now, lease) =>
      ClaimQueue(w.db, worker, now, lease);
      CommandIsOne(w.db.queue, Queue.ClaimRow(worker, now, lease));
    case CallCancel(id, worker, now, granted, revision, n, stamp) =>
      CancelQueue(w.db, id, worker, now, granted, revision, n, stamp);
  }

  lemma TaskCallQueue(w: World, c: Call)
    requires OnTasks(c) && ServeDb(w, c).1
    ensures OneCommand(w.db.queue, ServeDb(w, c).0.queue)
  {
    hide Transition, Register, Start, Engage, Release, Ingest, OneCommand;
    if OnLeases(c) {
      hide ServeDb;
      LeaseCallQueue(w, c);
    } else {
      SameQueue(w.db.queue);
      match c {
        case CallTransition(id, target, actor, e, v, n, evidence, granted) =>
          TransitionQueue(w.db, id, target, actor, e, v, n, evidence, granted);
        case CallRegister(id, blob, request, v, n, stamp) => RegisterQueue(w.db, id, blob, request, v, n, stamp);
        case CallStart(request, stamp) => StartQueue(w.db, request, stamp);
        case CallEngage(now) => FuseQueue(w.db, now, false, None);
        case CallRelease(now, granted, revision) => FuseQueue(w.db, now, granted, revision);
        case CallIngest(candidate, granted, revision, draws) => IngestQueue(w.db, candidate, granted, revision, draws);
      }
    }
  }

  lemma CommandIsOne(q: Queue.Rows, c: Queue.Command)
    ensures OneCommand(q, Queue.Execute(q, c).0)
  {
  }

  lemma WorkCallQueue(w: World, c: Call)
    requires !OnTasks(c) && !OnPublications(c)
    ensures OneCommand(w.db.queue, ServeDb(w, c).0.queue)
  {
    hide OneCommand, RequestSession, RunWorker, PublishResult, Allocate, ReleaseAllocation;
    SameQueue(w.db.queue);
    match c
    case CallSession(r, stamp) => RequestQueue(w.db, r, stamp);
    case CallRun(id, answer) => RunQueue(w.db, id, answer);
    case CallResult(r, blob, request, now, attached, moved) =>
      PublishResultQueue(w.db, r, blob, request, now, attached, moved);
    case CallAllocate(r, granted, stamp) => AllocateQueue(w.db, w.manager, r, granted, stamp);
    case CallReleaseWorkspace(id, stamp) => ReleaseQueue(w.db, w.manager, id, stamp);
  }

  // Fillers for lemmas about several store calls.
  const NO_ANSWER := RunnerSessionOutcome([], REQUESTED, [])
  const NO_SESSION := RunnerSessionRequest([], [], SYSTEM, 0, 0, [], 0, [])
  const NO_ARTIFACT := CatalogedArtifact(ArtifactRef([], [], []), [], [], 0)
  const NO_RECORD := WorkspaceRecord(WorkspaceRequest([], [], SYSTEM, PLANNING, [], 0, 0, [], None), true, [], ACTIVE)
  const NO_TASK :=
    Task([], TaskSource([], []), RepositoryTarget([], []), RiskAssessment(R0, R0, R0, None, None), 0, RECEIVED, 0, 0,
         [])

  lemma ServeQueue(w: World, c: Call)
    ensures OneCommand(w.db.queue, Serve(w, c).db.queue)
  {
    hide OneCommand, ServeDb, ServeManager, SameWork;
    SameQueue(w.db.queue);
    if ServeDb(w, c).1 {
      if OnTasks(c) { TaskCallQueue(w, c); }
      else if OnPublications(c) { PublicationCallSame(w, c); QueueOfSame(w.db, ServeDb(w, c).0); }
      else { WorkCallQueue(w, c); }
    }
  }

  lemma QueueOfSame(db: Db, db': Db)
    requires SameWork(db, db')
    ensures db'.queue == db.queue
  {
  }

  /******* The budget *******/

  // The call returned a lease on the task's row.
  predicate ClaimedBy(w: World, c: Call, id: Text) {
    && c.CallClaim?
    && var out := ClaimNext(w.db, c.workerId, c.now, c.lease).out;
       out.Ok? && out.value.Some? && out.value.value.taskId == id
  }

  // Seconds from the failure report to the time the row is available again.
  function DelayOf(w: World, c: Call, id: Text): int {
    if !c.CallFail? then 0
    else
      var out := QueueFail(w.db, c.taskId, c.workerId, c.now, c.event, c.sequence).out;
      if out.Ok? && out.value.taskId == id && out.value.retryAt.Some? then out.value.retryAt.value - c.now else 0
  }

  function Claims(w: World, cs: seq<Call>, id: Text): nat {
    if cs == [] then 0
    else
      var v := RunCalls(w, cs[..|cs| - 1]);
      Claims(w, cs[..|cs| - 1], id) + if ClaimedBy(v, cs[|cs| - 1], id) then 1 else 0
  }

  function Delays(w: World, cs: seq<Call>, id: Text): int {
    if cs == [] then 0
    else
      var v := RunCalls(w, cs[..|cs| - 1]);
      Delays(w, cs[..|cs| - 1], id) + DelayOf(v, cs[|cs| - 1], id)
  }

  function Born(q: Queue.Rows, q': Queue.Rows, id: Text): int {
    if Queue.Find(q, id).None? && Queue.Find(q', id).Some? then 1 else 0
  }

  lemma CreatedIsBorn(q: Queue.Rows, c: Queue.Command, id: Text)
    requires Queue.QueueOk(q) && c.EnqueueRow? && c.taskId == id && Queue.Execute(q, c).1 == Queue.Enqueued(true)
    ensures Born(q, Queue.Execute(q, c).0, id) == 1
  {
    Queue.ExecuteRow(q, c, id);
  }

  // Any command: what is left of the budget, against what the row's birth brings in.
  lemma CommandBudget(q: Queue.Rows, c: Queue.Command, id: Text)
    requires Queue.QueueOk(q)
    ensures var q' := Queue.Execute(q, c).0;
            var claimed := if QueueLease.Grants(q, c, id) then 1 else 0;
            && claimed + QueueLease.ClaimsLeft(Queue.Find(q', id))
               <= 3 * Born(q, q', id) + QueueLease.ClaimsLeft(Queue.Find(q, id))
            && QueueLease.DelayLeft(Queue.Find(q', id))
               <= 90 * Born(q, q', id) + QueueLease.DelayLeft(Queue.Find(q, id))
  {
    hide Queue.Execute, QueueLease.ClaimsLeft, QueueLease.DelayLeft, Queue.QueueOk;
    QueueLease.BudgetStep(q, c, id);
    if c.EnqueueRow? && c.taskId == id && Queue.Execute(q, c).1 == Queue.Enqueued(true) { CreatedIsBorn(q, c, id); }
    if c.FailRow? && Queue.Execute(q, c).1.Failed? && c.taskId == id { QueueLease.DelayStep(q, c, id); }
  }

  lemma KeptBudget(q: Queue.Rows, q': Queue.Rows, id: Text)
    requires Queue.QueueOk(q) && OneCommand(q, q')
    ensures QueueLease.ClaimsLeft(Queue.Find(q', id)) <= 3 * Born(q, q', id) + QueueLease.ClaimsLeft(Queue.Find(q, id))
    ensures QueueLease.DelayLeft(Queue.Find(q', id)) <= 90 * Born(q, q', id) + QueueLease.DelayLeft(Queue.Find(q, id))
  {
    if q' != q {
      hide Queue.Execute, QueueLease.ClaimsLeft, QueueLease.DelayLeft, Queue.QueueOk;
      var c :| q' == Queue.Execute(q, c).0;
      CommandBudget(q, c, id);
    }
  }

  lemma LeasedGrants(q: Queue.Rows, w: Text, now: Time, lease: int, id: Text)
    requires Queue.Execute(q, Queue.ClaimRow(w, now, lease)).1.Leased?
    requires Queue.Execute(q, Queue.ClaimRow(w, now, lease)).1.lease.Some?
    requires Queue.Execute(q, Queue.ClaimRow(w, now, lease)).1.lease.value.taskId == id
    ensures QueueLease.Grants(q, Queue.ClaimRow(w, now, lease), id)
  {
  }

  lemma ServeBudget(w: World, c: Call, id: Text)
    requires Queue.QueueOk(w.db.queue)
    ensures var q, q' := w.db.queue, Serve(w, c).db.queue;
            var claimed := if ClaimedBy(w, c, id) then 1 else 0;
            && claimed + QueueLease.ClaimsLeft(Queue.Find(q', id))
               <= 3 * Born(q, q', id) + QueueLease.ClaimsLeft(Queue.Find(q, id))
            && DelayOf(w, c, id) + QueueLease.DelayLeft(Queue.Find(q', id))
               <= 90 * Born(q, q', id) + QueueLease.DelayLeft(Queue.Find(q, id))
  {
    hide Queue.Execute, QueueLease.ClaimsLeft, QueueLease.DelayLeft, Queue.QueueOk, OneCommand, Born,
         QueueLease.Grants, QueueFail, ClaimNext;
    if c.CallClaim? && ClaimedBy(w, c, id) {
      ClaimQueue(w.db, c.workerId, c.now, c.lease);
      LeasedGrants(w.db.queue, c.workerId, c.now, c.lease, id);
      CommandBudget(w.db.queue, Queue.ClaimRow(c.workerId, c.now, c.lease), id);
    } else if c.CallFail? && DelayOf(w, c, id) != 0 {
      QueueFailQueue(w.db, c.taskId, c.workerId, c.now, c.event, c.sequence);
      var f := Queue.FailRow(c.taskId, c.workerId, c.now, []);
      QueueLease.DelayStep(w.db.queue, f, c.taskId);
      CommandBudget(w.db.queue, f, id);
      NotBorn(w.db.queue, f, id);
    } else {
      ServeQueue(w, c);
      KeptBudget(w.db.queue, Serve(w, c).db.queue, id);
    }
  }

  lemma NotBorn(q: Queue.Rows, c: Queue.Command, id: Text)
    requires Queue.QueueOk(q) && c.FailRow?
    ensures Born(q, Queue.Execute(q, c).0, id) == 0
  {
    Queue.ExecuteRow(q, c, id);
  }

  lemma {:induction false} Budget(cs: seq<Call>, id: Text)
    requires SoundRun(NEW_WORLD, cs)
    ensures var r := Queue.Find(RunCalls(NEW_WORLD, cs).db.queue, id);
            && Claims(NEW_WORLD, cs, id) + QueueLease.ClaimsLeft(r) <= 3 * Births(NEW_WORLD, cs, id)
            && Delays(NEW_WORLD, cs, id) + QueueLease.DelayLeft(r) <= 90 * Births(NEW_WORLD, cs, id)
  {
    hide Serve, Sound, ClaimedBy, DelayOf, QueueLease.ClaimsLeft, QueueLease.DelayLeft, Healthy, Onward;
    if cs == [] {
      EmptyBudget(id);
    } else {
      var before := cs[..|cs| - 1];
      var v := RunCalls(NEW_WORLD, before);
      Budget(before, id);
      ReachedQueue(before);
      ServeBudget(v, cs[|cs| - 1], id);
    }
  }

  lemma EmptyBudget(id: Text)
    ensures QueueLease.ClaimsLeft(Queue.Find(NEW_WORLD.db.queue, id)) == 0
    ensures QueueLease.DelayLeft(Queue.Find(NEW_WORLD.db.queue, id)) == 0
  {
  }

  lemma ReachedQueue(cs: seq<Call>)
    requires SoundRun(NEW_WORLD, cs)
    ensures Queue.QueueOk(RunCalls(NEW_WORLD, cs).db.queue)
  {
    hide Serve, Sound;
    NewWorldHealthy();
    RunOnward(NEW_WORLD, cs);
    OnwardHealthy(NEW_WORLD, RunCalls(NEW_WORLD, cs));
    HealthyParts(RunCalls(NEW_WORLD, cs));
  }

  lemma LeftNonNegative(q: Queue.Rows, id: Text)
    requires Queue.QueueOk(q)
    ensures QueueLease.ClaimsLeft(Queue.Find(q, id)) >= 0 && QueueLease.DelayLeft(Queue.Find(q, id)) >= 0
  {
    if Queue.Find(q, id).Some? { assert Queue.RowOk(Queue.Find(q, id).value); }
  }

  // Over any run of service calls from an empty system: a task is claimed at most three
  // times, and its failures delay it by at most 90 seconds in all.
  lemma TaskBudget(cs: seq<Call>, id: Text)
    requires SoundRun(NEW_WORLD, cs)
    ensures Claims(NEW_WORLD, cs, id) <= 3 && Delays(NEW_WORLD, cs, id) <= 90
  {
    hide Claims, Delays, Births, RunCalls;
    Budget(cs, id);
    RowsAreBornOnce(cs, id);
    ReachedQueue(cs);
    LeftNonNegative(RunCalls(NEW_WORLD, cs).db.queue, id);
  }
}

// What publishing results without governance authority comes to: over any run of service
// calls nothing is ever published.

module Unpublishable {
  import opened Json
  import opened Domain
  import opened Records
  import opened Ledgers
  import opened Database
  import opened LedgerInvariants
  import opened Services
  import opened Publication
  import opened Coupling
  import opened ServiceRuns
  import opened Blocks
  import opened ServiceOutcomes
  import opened SampleNames
  import opened Samples
  import Queue

  /******* Tasks that no service moves again *******/

  predicate Halted(t: Task) { t.status == BLOCKED || t.status == FAILED }

  const GUARDED: set<TaskStatus> := {IMPLEMENTING, READY_TO_PUBLISH}

  ghost predicate StaysHalted(m: Tasks, n: Tasks) {
    && (TasksOk(m) ==> TasksOk(n))
    && forall id | id in m && Halted(m[id]) :: id in n && Halted(n[id])
  }

  // Halted tasks stay halted, and the ledgers a publication rests on do not change.
  ghost predicate Rests(a: Db, b: Db) {
    && StaysHalted(a.tasks, b.tasks)
    && b.results == a.results
    && b.publications == a.publications
    && b.approvals == a.approvals
    && b.effects == a.effects
    && b.observations == a.observations
  }

  lemma RestsSelf(db: Db)
    ensures Rests(db, db)
  {
  }

  lemma RestsThen(a: Db, b: Db, c: Db)
    requires Rests(a, b) && Rests(b, c)
    ensures Rests(a, c)
  {
  }

  /******* Store calls *******/

  // The new version of a stored task is halted if the stored one is.
  predicate Follows(db: Db, task: Task) {
    task.taskId in db.tasks && (Halted(db.tasks[task.taskId]) ==> Halted(task))
  }

  lemma UpdateRests(db: Db, task: Task, v: nat)
    requires Follows(db, task)
    ensures Rests(db, db.UpdateTask(task, v).db)
  {
  }

  lemma AppendRests(db: Db, e: Event, n: nat)
    ensures Rests(db, db.AppendEvent(e, n).db)
  {
    hide EventAppend;
    StaysSelf(db.tasks);
  }

  lemma StaysSelf(m: Tasks)
    ensures StaysHalted(m, m)
  {
  }

  lemma CreateRests(db: Db, task: Task)
    ensures Rests(db, db.CreateTask(task).db)
  {
  }

  lemma QueueRests<T>(db: Db, s: Queue.Step<T>)
    ensures Rests(db, db.UseQueue(s).db)
  {
    StaysSelf(db.tasks);
  }

  lemma IntakeRests(db: Db, r: IntakeRecord, s: IssueIngestionRecord)
    ensures Rests(db, db.CreateIntake(r).db) && Rests(db, db.RecordSource(s).db)
  {
    hide IntakeCreate, SourceRecordOnce, StaysHalted;
    StaysSelf(db.tasks);
  }

  lemma ArtifactRests(db: Db, a: CatalogedArtifact)
    ensures Rests(db, db.RegisterArtifact(a).db)
  {
    hide ArtifactRegister, StaysHalted;
    StaysSelf(db.tasks);
  }

  lemma SessionRests(db: Db, r: RunnerSessionRequest, o: RunnerSessionOutcome)
    ensures Rests(db, db.RecordSession(r).db) && Rests(db, db.SetOutcome(o).db)
  {
    hide SessionRecordOnce, SessionSetOutcome, StaysHalted;
    StaysSelf(db.tasks);
  }

  lemma WorkspaceRests(db: Db, w: WorkspaceRecord, id: Text)
    ensures Rests(db, db.RecordWorkspace(w).db) && Rests(db, db.ReleaseWorkspace(id).db)
  {
    hide WorkspaceRecordOnce, WorkspaceRelease, StaysHalted;
    StaysSelf(db.tasks);
  }

  lemma FuseRests(db: Db, now: Time, granted: bool, revision: Option<Text>)
    ensures Rests(db, Engage(db, now).db) && Rests(db, Release(db, now, granted, revision).db)
  {
    hide StaysHalted;
    StaysSelf(db.tasks);
  }

  /******* Service calls *******/

  lemma AdvanceRests(db: Db, task: Task, v: nat, e: Event, n: nat)
    requires Follows(db, task)
    ensures Rests(db, Advance(db, task, v, e, n).db)
  {
    hide Rests, Db.UpdateTask, Db.AppendEvent;
    var u := db.UpdateTask(task, v);
    UpdateRests(db, task, v);
    AppendRests(u.db, e, n);
    RestsThen(db, u.db, u.db.AppendEvent(e, n).db);
  }

  // Without leaving BLOCKED or FAILED behind.
  lemma TargetHalts(task: Task, target: TaskStatus, actor: Role, granted: bool)
    requires Target(task, target, actor, granted).Ok?
    ensures Target(task, target, actor, granted).value.taskId == task.taskId
    ensures Halted(task) ==> Halted(Target(task, target, actor, granted).value)
    ensures target in GUARDED && !granted ==> Target(task, target, actor, granted).value.status == BLOCKED
    ensures target !in GUARDED ==> Target(task, target, actor, granted).value.status == target
  {
  }

  lemma TransitionRests(db: Db, id: Text, target: TaskStatus, actor: Role, e: Event, v: nat, n: nat, evidence: bool,
                        granted: bool)
    requires TasksOk(db.tasks)
    ensures Rests(db, Transition(db, id, target, actor, e, v, n, evidence, granted).db)
  {
    hide Advance, Target, Rests;
    RestsSelf(db);
    if id in db.tasks && Target(db.tasks[id], target, actor, granted).Ok? {
      TargetHalts(db.tasks[id], target, actor, granted);
      AdvanceRests(db, Target(db.tasks[id], target, actor, granted).value, v, e, n);
    }
  }

  lemma FailTaskRests(db: Db, id: Text, e: Event, n: nat)
    requires TasksOk(db.tasks) && id in db.tasks
    ensures Rests(db, FailTask(db, db.tasks[id], e, n).db)
  {
    hide Advance, Rests;
    RestsSelf(db);
    if db.tasks[id].Fail(SYSTEM).Ok? { AdvanceRests(db, db.tasks[id].Fail(SYSTEM).value, db.tasks[id].version, e, n); }
  }

  lemma QueueFailRests(db: Db, id: Text, w: Text, now: Time, e: Event, n: nat)
    requires TasksOk(db.tasks)
    ensures Rests(db, QueueFail(db, id, w, now, e, n).db)
  {
    hide FailTask, Db.AppendEvent, Queue.Fail, Rests;
    RestsSelf(db);
    if id in db.tasks {
      var q := db.UseQueue(Queue.Fail(db.queue, id, w, now));
      QueueRests(db, Queue.Fail(db.queue, id, w, now));
      FailTaskRests(q.db, id, e, n);
      AppendRests(q.db, e, n);
      RestsThen(db, q.db, FailTask(q.db, db.tasks[id], e, n).db);
      RestsThen(db, q.db, q.db.AppendEvent(e, n).db);
    }
  }

  lemma RestsTasks(a: Db, b: Db)
    requires Rests(a, b) && TasksOk(a.tasks)
    ensures TasksOk(b.tasks)
  {
  }

  lemma {:induction false} SettleRests(db: Db, results: seq<Queue.FailureResult>, events: TerminalEvents)
    requires TasksOk(db.tasks)
    ensures Rests(db, SettleRecovered(db, results, events).db)
    decreases |results|
  {
    hide FailTask, Rests, TasksOk;
    RestsSelf(db);
    if results != [] {
      var id := results[0].taskId;
      if !results[0].terminal {
        SettleRests(db, results[1..], events);
      } else if id in db.tasks && id in events {
        var f := FailTask(db, db.tasks[id], events[id].0, events[id].1);
        FailTaskRests(db, id, events[id].0, events[id].1);
        RestsTasks(db, f.db);
        SettleRests(f.db, results[1..], events);
        RestsThen(db, f.db, SettleRecovered(f.db, results[1..], events).db);
      }
    }
  }

  lemma RecoverRests(db: Db, now: Time, events: TerminalEvents)
    requires TasksOk(db.tasks)
    ensures Rests(db, Recover(db, now, events).db)
  {
    hide SettleRecovered, Rests, Queue.RecoverRows, Queue.RecoverResults;
    var rows := Queue.RecoverRows(db.queue, now);
    var d := db.(queue := rows);
    assert Rests(db, d) by { QueueRests(db, Queue.Step(rows, Ok(()))); }
    SettleRests(d, Queue.RecoverResults(db.queue, now), events);
    RestsThen(db, d, SettleRecovered(d, Queue.RecoverResults(db.queue, now), events).db);
  }

  lemma RegisterRests(db: Db, id: Text, blob: Blob, request: ArtifactRequest, v: nat, n: nat, stamp: Stamp)
    requires TasksOk(db.tasks)
    ensures Rests(db, Register(db, id, blob, request, v, n, stamp).db)
  {
    hide Db.RegisterArtifact, Db.UpdateTask, Db.AppendEvent, ArtifactEvent, Rests;
    RestsSelf(db);
    if id in db.tasks {
      var reference := ArtifactRef(blob.digest, request.logicalName, request.mediaType);
      var a := CatalogedArtifact(reference, request.classification, request.sourceKind, blob.size);
      var r := db.RegisterArtifact(a);
      ArtifactRests(db, a);
      CatalogKeepsTasks(db, a);
      var updated := db.tasks[id].AttachArtifact(reference);
      var u := r.db.UpdateTask(updated, v);
      UpdateRests(r.db, updated, v);
      RestsThen(db, r.db, u.db);
      var e := ArtifactEvent(id, reference, stamp, n);
      AppendRests(r.db, e, n);
      RestsThen(db, r.db, r.db.AppendEvent(e, n).db);
      AppendRests(u.db, e, n);
      RestsThen(db, u.db, u.db.AppendEvent(e, n).db);
    }
  }

  lemma CatalogKeepsTasks(db: Db, a: CatalogedArtifact)
    ensures db.RegisterArtifact(a).db.tasks == db.tasks
  {
    hide ArtifactRegister;
  }

  lemma FileIntakeRests(db: Db, request: IntakeRequest, task: Task, stamp: Stamp)
    ensures Rests(db, FileIntake(db, request, task, stamp).db)
  {
    hide Rests, Db.CreateTask, Db.CreateIntake, Db.AppendEvent, ReceivedEvent, Queue.Enqueue;
    var c := db.CreateTask(task).db;
    CreateRests(db, task);
    var record := IntakeRecord(request.requestId, request.Canonical(), task.taskId);
    var i := c.CreateIntake(record).db;
    IntakeRests(c, record, NO_SOURCE);
    RestsThen(db, c, i);
    var a := i.AppendEvent(ReceivedEvent(request, stamp), 0).db;
    AppendRests(i, ReceivedEvent(request, stamp), 0);
    RestsThen(db, i, a);
    var q := Queue.Enqueue(a.queue, task.taskId, request.priority, stamp.at, request.requestId);
    QueueRests(a, q);
    RestsThen(db, a, a.UseQueue(q).db);
  }

  // Fillers for lemmas about two store calls.
  const NO_INTAKE := IntakeRecord([], "", [])
  const NO_SOURCE := IssueIngestionRecord([], "", [], [])
  const NO_ANSWER := RunnerSessionOutcome([], REQUESTED, [])
  const NO_SESSION := RunnerSessionRequest([], [], SYSTEM, 0, 0, [], 0, [])
  const NO_RECORD := WorkspaceRecord(WorkspaceRequest([], [], SYSTEM, PLANNING, [], 0, 0, [], None), true, [], ACTIVE)

  lemma StartRests(db: Db, request: IntakeRequest, stamp: Stamp)
    ensures Rests(db, Start(db, request, stamp).db)
  {
    hide Rests, FileIntake, IntakeTask;
    RestsSelf(db);
    if IntakeTask(request, stamp.at).Ok? { FileIntakeRests(db, request, IntakeTask(request, stamp.at).value, stamp); }
  }

  lemma NoteSourceRests(db: Db, c: IssueCandidate, id: Text, currentId: Text, digest: Text, stamp: Stamp)
    ensures Rests(db, NoteSource(db, c, id, currentId, digest, stamp).db)
  {
    hide Rests, Db.AppendEvent, Db.RecordSource, SourceEvent;
    var n := Sequence(db, id);
    var a := db.AppendEvent(SourceEvent(c, id, digest, stamp, n), n).db;
    AppendRests(db, SourceEvent(c, id, digest, stamp, n), n);
    var record := IssueIngestionRecord(c.sourceKey, c.Canonical(), currentId, c.triggerEventId);
    IntakeRests(a, NO_INTAKE, record);
    RestsThen(db, a, a.RecordSource(record).db);
  }

  lemma FileSourceRests(db: Db, c: IssueCandidate, revision: Option<Text>, draws: IngestDraws)
    requires TasksOk(db.tasks)
    ensures Rests(db, FileSource(db, c, revision, draws).db)
  {
    hide Rests, Start, Register, NoteSource, TasksOk;
    var s := Start(db, IngestRequest(c, revision), draws.received);
    StartRests(db, IngestRequest(c, revision), draws.received);
    RestsTasks(db, s.db);
    if s.out.Ok? {
      var task := s.out.value;
      var n := Sequence(s.db, task.taskId);
      var r := Register(s.db, task.taskId, draws.blob, ISSUE_ARTIFACT, task.version, n, draws.attached);
      RegisterRests(s.db, task.taskId, draws.blob, ISSUE_ARTIFACT, task.version, n, draws.attached);
      RestsThen(db, s.db, r.db);
      if r.out.Ok? && task.taskId in r.db.tasks {
        var current := r.db.tasks[task.taskId].taskId;
        NoteSourceRests(r.db, c, task.taskId, current, r.out.value.digest, draws.ingested);
        RestsThen(db, r.db, NoteSource(r.db, c, task.taskId, current, r.out.value.digest, draws.ingested).db);
      }
    }
  }

  lemma IngestRests(db: Db, c: IssueCandidate, granted: bool, revision: Option<Text>, draws: IngestDraws)
    requires TasksOk(db.tasks)
    ensures Rests(db, Ingest(db, c, granted, revision, draws).db)
  {
    hide Rests, FileSource;
    RestsSelf(db);
    FileSourceRests(db, c, revision, draws);
  }

  lemma ClaimRests(db: Db, w: Text, now: Time, lease: int)
    ensures Rests(db, ClaimNext(db, w, now, lease).db)
  {
    hide Rests, Queue.Claim;
    RestsSelf(db);
    QueueRests(db, Queue.Claim(db.queue, w, now, lease));
  }

  lemma CancelRests(db: Db, id: Text, w: Text, now: Time, granted: bool, revision: Option<Text>, n: nat, stamp: Stamp)
    requires TasksOk(db.tasks)
    ensures Rests(db, Cancel(db, id, w, now, granted, revision, n, stamp).db)
  {
    hide Rests, Advance, Queue.Complete, CancelEvent;
    RestsSelf(db);
    if id in db.tasks && db.tasks[id].Block().Ok? {
      var e := CancelEvent(id, stamp, n);
      var b := Advance(db, db.tasks[id].Block().value, db.tasks[id].version, e, n);
      AdvanceRests(db, db.tasks[id].Block().value, db.tasks[id].version, e, n);
      var q := Queue.Complete(b.db.queue, id, w, now);
      QueueRests(b.db, q);
      RestsThen(db, b.db, b.db.UseQueue(q).db);
    }
  }

  lemma RequestRests(db: Db, r: RunnerSessionRequest, stamp: Stamp)
    ensures Rests(db, RequestSession(db, r, stamp).db)
  {
    hide Rests, Db.RecordSession, Db.AppendEvent, SessionEvent;
    RestsSelf(db);
    var s := db.RecordSession(r);
    SessionRests(db, r, NO_ANSWER);
    AppendRests(s.db, SessionEvent(r, stamp), r.expectedSequence);
    RestsThen(db, s.db, s.db.AppendEvent(SessionEvent(r, stamp), r.expectedSequence).db);
  }

  lemma RunRests(db: Db, id: Text, answer: RunnerSessionOutcome)
    ensures Rests(db, RunWorker(db, id, answer).db)
  {
    hide Rests, Db.SetOutcome;
    RestsSelf(db);
    SessionRests(db, NO_SESSION, answer);
  }

  lemma FileWorkspaceRests(db: Db, record: WorkspaceRecord, r: WorkspaceRequest, stamp: Stamp)
    ensures Rests(db, FileWorkspace(db, record, r, stamp).db)
  {
    hide Rests, Db.RecordWorkspace, Db.AppendEvent, AllocatedEvent;
    var w := db.RecordWorkspace(record);
    WorkspaceRests(db, record, []);
    AppendRests(w.db, AllocatedEvent(r, stamp), r.expectedSequence);
    RestsThen(db, w.db, w.db.AppendEvent(AllocatedEvent(r, stamp), r.expectedSequence).db);
  }

  lemma AllocateRests(db: Db, m: Manager, r: WorkspaceRequest, granted: bool, stamp: Stamp)
    ensures Rests(db, Allocate(db, m, r, granted, stamp).0.db)
  {
    hide Rests, FileWorkspace, Policy, ManagerAllocate, ManagerRelease;
    RestsSelf(db);
    if r.taskId in db.tasks && Policy(db.tasks[r.taskId], r, granted).Ok? {
      var p := ManagerAllocate(m, r, db.tasks[r.taskId].repository.name, Policy(db.tasks[r.taskId], r, granted).value);
      if p.out.Ok? { FileWorkspaceRests(db, p.out.value, r, stamp); }
    }
  }

  lemma ReleaseRests(db: Db, m: Manager, id: Text, stamp: Stamp)
    ensures Rests(db, ReleaseAllocation(db, m, id, stamp).0.db)
  {
    hide Rests, ManagerRelease, Db.ReleaseWorkspace, Db.AppendEvent, ReleasedEvent;
    RestsSelf(db);
    var w := db.ReleaseWorkspace(id);
    WorkspaceRests(db, NO_RECORD, id);
    if w.out.Ok? {
      var n := Sequence(w.db, w.out.value.request.taskId);
      AppendRests(w.db, ReleasedEvent(w.out.value, stamp, n), n);
      RestsThen(db, w.db, w.db.AppendEvent(ReleasedEvent(w.out.value, stamp, n), n).db);
    }
  }

  /******* Published results *******/

  // A result aimed at a guarded status stands on a halted task.
  ghost predicate ResultsHalted(db: Db) {
    forall r | r in db.results && db.results[r].target in GUARDED ::
      db.results[r].taskId in db.tasks && Halted(db.tasks[db.results[r].taskId])
  }

  // Nothing was published, and nothing can be.
  ghost predicate Unpublished(db: Db) {
    && db.publications == map[] && db.approvals == map[] && db.effects == map[] && db.observations == map[]
    && TasksOk(db.tasks) && ResultsHalted(db)
  }

  lemma RestsUnpublished(a: Db, b: Db)
    requires Rests(a, b) && Unpublished(a)
    ensures Unpublished(b)
  {
  }

  lemma RecordedUnpublished(db: Db, result: WorkerResult)
    requires Unpublished(db)
    requires result.target in GUARDED ==> result.taskId in db.tasks && Halted(db.tasks[result.taskId])
    ensures Unpublished(db.RecordResult(result).db)
  {
  }

  lemma AdvancedTask(db: Db, task: Task, v: nat, e: Event, n: nat)
    requires Advance(db, task, v, e, n).out.Ok?
    ensures var a := Advance(db, task, v, e, n).db; task.taskId in a.tasks && a.tasks[task.taskId] == task
  {
    hide EventAppend;
  }

  lemma TransitionReaches(db: Db, id: Text, target: TaskStatus, actor: Role, e: Event, v: nat, n: nat)
    requires TasksOk(db.tasks) && Transition(db, id, target, actor, e, v, n, true, false).out.Ok?
    ensures var t := Transition(db, id, target, actor, e, v, n, true, false).db;
            id in t.tasks && t.tasks[id].status == if target in GUARDED then BLOCKED else target
  {
    hide Advance, Target;
    TargetHalts(db.tasks[id], target, actor, false);
    AdvancedTask(db, Target(db.tasks[id], target, actor, false).value, v, e, n);
  }

  lemma FileResultReaches(db: Db, r: WorkerResult, blob: Blob, request: ArtifactRequest, now: Time, attached: Stamp,
                          moved: Stamp)
    requires TasksOk(db.tasks) && FileResult(db, r, blob, request, now, attached, moved).out.Ok?
    ensures var f := FileResult(db, r, blob, request, now, attached, moved).db;
            r.taskId in f.tasks && f.tasks[r.taskId].status == if r.target in GUARDED then BLOCKED else r.target
    ensures FileResult(db, r, blob, request, now, attached, moved).db.approvals == db.approvals
    ensures Unpublished(db) ==> Unpublished(FileResult(db, r, blob, request, now, attached, moved).db)
  {
    hide Rests, Register, Transition, Queue.Complete, Db.RecordResult, ResultEvent, TasksOk, Unpublished;
    var a := Register(db, r.taskId, blob, request, r.expectedTaskVersion, r.expectedSequence, attached);
    RegisterRests(db, r.taskId, blob, request, r.expectedTaskVersion, r.expectedSequence, attached);
    RestsTasks(db, a.db);
    var e, v, n := ResultEvent(r, a.out.value, moved), a.db.tasks[r.taskId].version, r.expectedSequence + 1;
    var t := Transition(a.db, r.taskId, r.target, r.worker.role, e, v, n, true, false);
    TransitionRests(a.db, r.taskId, r.target, r.worker.role, e, v, n, true, false);
    TransitionReaches(a.db, r.taskId, r.target, r.worker.role, e, v, n);
    RestsThen(db, a.db, t.db);
    var q := t.db.UseQueue(Queue.Complete(t.db.queue, r.taskId, r.worker.workerId, now));
    QueueRests(t.db, Queue.Complete(t.db.queue, r.taskId, r.worker.workerId, now));
    RestsThen(db, t.db, q.db);
    RestsApprovals(db, q.db);
    RecordKeepsTasks(q.db, r);
    if Unpublished(db) {
      RestsUnpublished(db, q.db);
      RecordedUnpublished(q.db, r);
    }
  }

  lemma RecordKeepsTasks(db: Db, r: WorkerResult)
    ensures db.RecordResult(r).db.tasks == db.tasks && db.RecordResult(r).db.approvals == db.approvals
  {
    hide ResultRecordOnce;
  }

  lemma RestsApprovals(a: Db, b: Db)
    requires Rests(a, b)
    ensures b.approvals == a.approvals
  {
  }

  // Where a result that is published leaves its task: a guarded target blocks it, and
  // only a guarded target does.
  lemma PublishedStatus(db: Db, r: WorkerResult, blob: Blob, request: ArtifactRequest, now: Time, attached: Stamp,
                        moved: Stamp)
    requires TasksOk(db.tasks) && r.resultId !in db.results
    requires PublishResult(db, r, blob, request, now, attached, moved).out.Ok?
    ensures var p := PublishResult(db, r, blob, request, now, attached, moved).db;
            && r.taskId in p.tasks
            && p.tasks[r.taskId].status == (if r.target in GUARDED then BLOCKED else r.target)
            && (p.tasks[r.taskId].status == BLOCKED <==> r.target in GUARDED)
  {
    hide FileResult, GUARDED, TasksOk;
    FileResultReaches(db, r, blob, request, now, attached, moved);
    NeverAimedAtBlocked(db, r, blob, request, now, attached, moved);
  }

  lemma NeverAimedAtBlocked(db: Db, r: WorkerResult, blob: Blob, request: ArtifactRequest, now: Time, attached: Stamp,
                            moved: Stamp)
    requires FileResult(db, r, blob, request, now, attached, moved).out.Ok?
    ensures r.target != BLOCKED
  {
    hide Register, Advance, Queue.Complete, ResultRecordOnce, ResultEvent;
  }

  // A result whose filing raises is not recorded.
  lemma FileResultRests(db: Db, r: WorkerResult, blob: Blob, request: ArtifactRequest, now: Time, attached: Stamp,
                        moved: Stamp)
    requires TasksOk(db.tasks) && FileResult(db, r, blob, request, now, attached, moved).out.Err?
    ensures Rests(db, FileResult(db, r, blob, request, now, attached, moved).db)
  {
    hide Rests, Register, Transition, Queue.Complete, Db.RecordResult, ResultEvent, TasksOk;
    var a := Register(db, r.taskId, blob, request, r.expectedTaskVersion, r.expectedSequence, attached);
    RegisterRests(db, r.taskId, blob, request, r.expectedTaskVersion, r.expectedSequence, attached);
    RestsTasks(db, a.db);
    if a.out.Ok? && r.taskId in a.db.tasks {
      var e, v, n := ResultEvent(r, a.out.value, moved), a.db.tasks[r.taskId].version, r.expectedSequence + 1;
      var t := Transition(a.db, r.taskId, r.target, r.worker.role, e, v, n, true, false);
      TransitionRests(a.db, r.taskId, r.target, r.worker.role, e, v, n, true, false);
      RestsThen(db, a.db, t.db);
      var q := t.db.UseQueue(Queue.Complete(t.db.queue, r.taskId, r.worker.workerId, now));
      QueueRests(t.db, Queue.Complete(t.db.queue, r.taskId, r.worker.workerId, now));
      RestsThen(db, t.db, q.db);
      RefusedRests(q.db, r);
      if q.db.RecordResult(r).out.Err? { RestsThen(db, q.db, q.db.RecordResult(r).db); }
    }
  }

  lemma RefusedRests(db: Db, r: WorkerResult)
    ensures db.RecordResult(r).out.Err? ==> Rests(db, db.RecordResult(r).db)
  {
    hide WorkerResult.Canonical;
    StaysSelf(db.tasks);
  }

  lemma PublishResultUnpublished(db: Db, r: WorkerResult, blob: Blob, request: ArtifactRequest, now: Time,
                                 attached: Stamp, moved: Stamp)
    requires Unpublished(db)
    ensures Unpublished(PublishResult(db, r, blob, request, now, attached, moved).db)
  {
    hide FileResult, ResultsHalted, TasksOk, Rests;
    var f := FileResult(db, r, blob, request, now, attached, moved);
    if f.out.Ok? {
      FileResultReaches(db, r, blob, request, now, attached, moved);
    } else {
      FileResultRests(db, r, blob, request, now, attached, moved);
      RestsUnpublished(db, f.db);
    }
  }

  /******* Runs *******/

  // Every call about publications raises, having written nothing.
  lemma PublicationCallRaises(w: World, c: Call)
    requires Unpublished(w.db) && OnPublications(c)
    ensures ServeDb(w, c) == (w.db, false)
  {
    hide TasksOk, ResultsHalted, PrepareAndVerify, ApprovePublication, Begin, SettleReceipt, RecordChecks;
    match c
    case CallPrepare(i, granted, intact, h, v) => PrepareRaises(w.db, i, granted, intact, h, v);
    case CallApprove(id, approvalId, resultId, digest, at) => ApproveRaises(w.db, id, approvalId, resultId, digest, at);
    case CallBegin(id, effectId) => BeginRaises(w.db, id, effectId);
    case CallSettle(effectId, job, receipt) => SettleRaises(w.db, effectId, job, receipt);
    case CallChecks(id, effectId, head, canonical, os) => ChecksRaise(w.db, id, effectId, head, canonical, os);
  }

  lemma PrepareRaises(db: Db, i: PublicationIntent, granted: bool, intact: bool, h: PreparedHead, v: VerificationResult)
    requires ResultsHalted(db)
    ensures var p := PrepareAndVerify(db, i, granted, intact, h, v); p.out.Err? && p.db == db
  {
    hide ResultsHalted, PreparePreconditions, Db.Reserve, Db.Prepare, Db.Verify;
    NothingPreparable(db, i, granted);
  }

  lemma ApproveRaises(db: Db, id: Text, approvalId: Text, resultId: Text, digest: Text, at: Time)
    requires db.publications == map[]
    ensures var a := ApprovePublication(db, id, approvalId, resultId, digest, at); a.out.Err? && a.db == db
  {
    hide ReviewerEligible, TaskReady, Db.AppendApproval;
  }

  lemma BeginRaises(db: Db, id: Text, effectId: Text)
    requires db.publications == map[]
    ensures Begin(db, id, effectId).out.Err? && Begin(db, id, effectId).db == db
  {
    hide ExactlyApproved, TaskReady, Db.RequestEffect;
  }

  lemma SettleRaises(db: Db, effectId: Text, job: Job, receipt: PublicationReceipt)
    requires db.effects == map[]
    ensures var s := SettleReceipt(db, effectId, job, receipt); s.1.Rejected? && s.0 == db
  {
    hide Db.ReconcileEffect;
  }

  lemma ChecksRaise(db: Db, id: Text, effectId: Text, head: Text, canonical: string, os: seq<CheckRunObservation>)
    requires db.publications == map[]
    ensures var s := RecordChecks(db, id, effectId, head, canonical, os); s.out.Err? && s.db == db
  {
    hide AppendObservations;
  }

  // The task a publication needs is READY_TO_PUBLISH; the result it needs halted its task.
  lemma NothingPreparable(db: Db, i: PublicationIntent, granted: bool)
    requires ResultsHalted(db)
    ensures PreparePreconditions(db, i, granted).Err?
  {
    if i.taskId in db.tasks && SourcesEligible(db, db.tasks[i.taskId], i) {
      assert Halted(db.tasks[db.results[i.workerResultId].taskId]);
    }
  }

  lemma TaskCallRests(w: World, c: Call)
    requires TasksOk(w.db.tasks) && OnTasks(c)
    ensures Rests(w.db, ServeDb(w, c).0)
  {
    hide Rests, Transition, QueueFail, Recover, Register, Start, ClaimNext, Engage, Release, Ingest, Cancel, TasksOk;
    match c
    case CallTransition(id, target, actor, e, v, n, evidence, granted) =>
      TransitionRests(w.db, id, target, actor, e, v, n, evidence, granted);
    case CallFail(id, worker, now, e, n) => QueueFailRests(w.db, id, worker, now, e, n);
    case CallRecover(now, events) => RecoverRests(w.db, now, events);
    case CallRegister(id, blob, request, v, n, stamp) => RegisterRests(w.db, id, blob, request, v, n, stamp);
    case CallStart(request, stamp) => StartRests(w.db, request, stamp);
    case CallClaim(worker, now, lease) => ClaimRests(w.db, worker, now, lease);
    case CallEngage(now) => FuseRests(w.db, now, false, None);
    case CallRelease(now, granted, revision) => FuseRests(w.db, now, granted, revision);
    case CallIngest(candidate, granted, revision, draws) => IngestRests(w.db, candidate, granted, revision, draws);
    case CallCancel(id, worker, now, granted, revision, n, stamp) =>
      CancelRests(w.db, id, worker, now, granted, revision, n, stamp);
  }

  lemma TaskCallUnpublished(w: World, c: Call)
    requires Unpublished(w.db) && OnTasks(c)
    ensures Unpublished(ServeDb(w, c).0)
  {
    hide Rests, ServeDb, ResultsHalted, TasksOk;
    TaskCallRests(w, c);
    RestsUnpublished(w.db, ServeDb(w, c).0);
  }

  lemma WorkCallUnpublished(w: World, c: Call)
    requires Unpublished(w.db) && !OnTasks(c) && !OnPublications(c)
    ensures Unpublished(ServeDb(w, c).0)
  {
    hide Rests, RequestSession, RunWorker, PublishResult, Allocate, ReleaseAllocation, Unpublished;
    match c
    case CallSession(r, stamp) =>
      RequestRests(w.db, r, stamp);
      RestsUnpublished(w.db, RequestSession(w.db, r, stamp).db);
    case CallRun(id, answer) =>
      RunRests(w.db, id, answer);
      RestsUnpublished(w.db, RunWorker(w.db, id, answer).db);
    case CallResult(r, blob, request, now, attached, moved) =>
      PublishResultUnpublished(w.db, r, blob, request, now, attached, moved);
    case CallAllocate(r, granted, stamp) =>
      AllocateRests(w.db, w.manager, r, granted, stamp);
      RestsUnpublished(w.db, Allocate(w.db, w.manager, r, granted, stamp).0.db);
    case CallReleaseWorkspace(id, stamp) =>
      ReleaseRests(w.db, w.manager, id, stamp);
      RestsUnpublished(w.db, ReleaseAllocation(w.db, w.manager, id, stamp).0.db);
  }

  // Whether the call returns or raises.
  lemma CallUnpublished(w: World, c: Call)
    requires Unpublished(w.db)
    ensures Unpublished(ServeDb(w, c).0)
  {
    hide ServeDb, Unpublished;
    if OnTasks(c) { TaskCallUnpublished(w, c); }
    else if OnPublications(c) { PublicationCallRaises(w, c); }
    else { WorkCallUnpublished(w, c); }
  }

  // Over any run of service calls from empty: every result aimed at a guarded status has
  // halted its task for good, and so there is never a publication, an approval, an effect
  // or an observation.
  lemma {:induction false} NothingIsPublished(cs: seq<Call>)
    ensures Unpublished(RunCalls(NEW_WORLD, cs).db)
  {
    hide ServeDb, ServeManager, Unpublished;
    if cs == [] {
      EmptyUnpublished();
    } else {
      NothingIsPublished(cs[..|cs| - 1]);
      CallUnpublished(RunCalls(NEW_WORLD, cs[..|cs| - 1]), cs[|cs| - 1]);
    }
  }

  lemma EmptyUnpublished()
    ensures Unpublished(NEW_WORLD.db)
  {
  }

  lemma {:induction false} WithinUnpublished(w: World, cs: seq<Call>)
    requires Unpublished(w.db)
    ensures Unpublished(WithinAll(w, cs).db)
  {
    hide ServeDb, ServeManager, Unpublished;
    if cs != [] {
      WithinUnpublished(w, cs[..|cs| - 1]);
      CallUnpublished(WithinAll(w, cs[..|cs| - 1]), cs[|cs| - 1]);
    }
  }

  // Nor over any run of blocks, even where a caller commits what a call left when it raised.
  lemma {:induction false} NoBlockPublishes(bs: seq<Block>)
    ensures Unpublished(RunBlocks(NEW_WORLD, bs).db)
  {
    hide WithinAll, Unpublished;
    if bs == [] {
      EmptyUnpublished();
    } else {
      NoBlockPublishes(bs[..|bs| - 1]);
      WithinUnpublished(RunBlocks(NEW_WORLD, bs[..|bs| - 1]), bs[|bs| - 1].calls);
    }
  }

  /******* One such result *******/

  const SESSION := RunnerSessionRequest(S, T, IMPLEMENTER, 0, 1, [], 60, T)
  const ANSWER := RunnerSessionOutcome(S, SUCCEEDED, R)
  const RESULT := WorkerResult(R, S, T, WorkerIdentity(W, IMPLEMENTER), READY_TO_PUBLISH, R, 0, 2)
  const DIFF := ArtifactRequest(R, TEXT_DIFF, R, OwnedBy(R), false)

  function Diff(): Blob { Blob(ZeroDigest(), 1) }

  // The task waits for its result; the events stand at n.
  ghost predicate Waiting(db: Db, n: nat) {
    && db.tasks == map[T := TASK] && !db.fuse.engaged && Sequence(db, T) == n
    && (forall k: nat | n < k < 10 :: Draw(k).eventId !in db.eventIds)
    && db.results == map[] && db.artifacts == map[]
  }

  lemma StartedWaits()
    ensures Waiting(Started(), 1) && Started().queue == [ROW] && Started().sessions == map[]
  {
    StartedFields();
    assert forall k: nat | k < 10 :: Draw(k).eventId == [48 + k];
  }

  lemma ClaimWaits(db: Db)
    requires Waiting(db, 1) && db.queue == [ROW]
    ensures var c := ClaimNext(db, W, 0, 60);
            c.out.Ok? && Waiting(c.db, 1) && c.db.sessions == db.sessions && Queue.Holds(c.db.queue, T, W, 1)
  {
    assert Queue.First([ROW], 0) == Some(ROW) by { assert [ROW][1..] == []; }
    assert Queue.Replace([ROW], Queue.Claimed(ROW, W, 60)) == [Queue.Claimed(ROW, W, 60)] by {
      assert [ROW][1..] == [];
    }
  }

  lemma SessionWaits(db: Db)
    requires Waiting(db, 1) && db.sessions == map[]
    ensures var r := RequestSession(db, SESSION, Draw(2));
            && r.out.Ok? && Waiting(r.db, 2) && r.db.queue == db.queue
            && S in r.db.sessions && r.db.sessions[S] == RunnerSessionRecord(SESSION, REQUESTED, None)
  {
    hide RunnerSessionRequest.Canonical;
    assert forall k: nat | k < 10 :: Draw(k).eventId == [48 + k];
    assert SessionEvent(SESSION, Draw(2)).eventId == [50] && SessionEvent(SESSION, Draw(2)).sequence == 2;
  }

  lemma RunWaits(db: Db)
    requires Waiting(db, 2) && S in db.sessions && db.sessions[S] == RunnerSessionRecord(SESSION, REQUESTED, None)
    ensures var r := RunWorker(db, S, ANSWER);
            && r.out.Ok? && Waiting(r.db, 2) && r.db.queue == db.queue
            && S in r.db.sessions && r.db.sessions[S] == RunnerSessionRecord(SESSION, SUCCEEDED, Some(ANSWER))
  {
  }

  lemma ResultHalts(db: Db)
    requires Waiting(db, 2) && S in db.sessions && Queue.Holds(db.queue, T, W, 1)
    requires db.sessions[S] == RunnerSessionRecord(SESSION, SUCCEEDED, Some(ANSWER))
    ensures var p := PublishResult(db, RESULT, Diff(), DIFF, 1, Draw(3), Draw(4));
            && p.out.Ok? && R in p.db.results && p.db.results[R] == RESULT
            && T in p.db.tasks && p.db.tasks[T].status == BLOCKED
  {
    hide FileResult, Queue.Holds, WorkerResult.Canonical;
    assert Draw(3).eventId == [51] && Draw(4).eventId == [52];
    ResultRefusals(db, RESULT, Diff(), DIFF, 1, Draw(3), Draw(4));
    PublishedStatus(db, RESULT, Diff(), DIFF, 1, Draw(3), Draw(4));
  }

  function HaltingRun(): seq<Call> {
    [CallStart(INTAKE, Draw(1)), CallClaim(W, 0, 60), CallSession(SESSION, Draw(2)), CallRun(S, ANSWER),
     CallResult(RESULT, Diff(), DIFF, 1, Draw(3), Draw(4))]
  }

  lemma RunCons(w: World, cs: seq<Call>, c: Call)
    ensures RunCalls(w, cs + [c]) == Serve(RunCalls(w, cs), c)
  {
    assert (cs + [c])[..|cs|] == cs;
  }

  // An implementer's successful result aimed at READY_TO_PUBLISH, every record accepted,
  // is published, and blocks its task.
  lemma GuardedResultBlocks() returns (w: World)
    ensures w == RunCalls(NEW_WORLD, HaltingRun()) && SESSION.Accepted() && ANSWER.Accepted() && RESULT.Accepted()
    ensures R in w.db.results && w.db.results[R] == RESULT && RESULT.target == READY_TO_PUBLISH
    ensures T in w.db.tasks && w.db.tasks[T].status == BLOCKED
  {
    hide Serve, ServeDb, RunCalls, ClaimNext, RequestSession, RunWorker, PublishResult, Waiting;
    StartCall();
    StartedWaits();
    var cs: seq<Call> := [];
    var w1 := World(Started(), map[]);
    RunNone();
    RunCons(NEW_WORLD, [], HaltingRun()[0]);
    var w2 := Serve(w1, HaltingRun()[1]);
    ClaimWaits(w1.db);
    ClaimServes(w1, W, 0, 60);
    RunCons(NEW_WORLD, [] + [HaltingRun()[0]], HaltingRun()[1]);
    var w3 := Serve(w2, HaltingRun()[2]);
    SessionWaits(w2.db);
    SessionServes(w2, SESSION, Draw(2));
    RunCons(NEW_WORLD, [] + [HaltingRun()[0]] + [HaltingRun()[1]], HaltingRun()[2]);
    var w4 := Serve(w3, HaltingRun()[3]);
    RunWaits(w3.db);
    RunServes(w3, S, ANSWER);
    RunCons(NEW_WORLD, [] + [HaltingRun()[0]] + [HaltingRun()[1]] + [HaltingRun()[2]], HaltingRun()[3]);
    w := Serve(w4, HaltingRun()[4]);
    ResultHalts(w4.db);
    ResultServes(w4, RESULT, Diff(), DIFF, 1, Draw(3), Draw(4));
    RunCons(NEW_WORLD, HaltingRun()[..4], HaltingRun()[4]);
    assert HaltingRun()[..4] == [] + [HaltingRun()[0]] + [HaltingRun()[1]] + [HaltingRun()[2]] + [HaltingRun()[3]];
    assert HaltingRun() == HaltingRun()[..4] + [HaltingRun()[4]];
  }

  lemma RunNone()
    ensures RunCalls(NEW_WORLD, []) == NEW_WORLD
  {
  }

  lemma ClaimServes(w: World, worker: Text, now: Time, lease: int)
    requires ClaimNext(w.db, worker, now, lease).out.Ok?
    ensures Serve(w, CallClaim(worker, now, lease)) == World(ClaimNext(w.db, worker, now, lease).db, w.manager)
  {
    hide ClaimNext;
  }

  lemma SessionServes(w: World, r: RunnerSessionRequest, stamp: Stamp)
    requires RequestSession(w.db, r, stamp).out.Ok?
    ensures Serve(w, CallSession(r, stamp)) == World(RequestSession(w.db, r, stamp).db, w.manager)
  {
    hide RequestSession;
  }

  lemma RunServes(w: World, id: Text, answer: RunnerSessionOutcome)
    requires RunWorker(w.db, id, answer).out.Ok?
    ensures Serve(w, CallRun(id, answer)) == World(RunWorker(w.db, id, answer).db, w.manager)
  {
    hide RunWorker;
  }

  lemma ResultServes(w: World, r: WorkerResult, blob: Blob, request: ArtifactRequest, now: Time, attached: Stamp,
                     moved: Stamp)
    requires PublishResult(w.db, r, blob, request, now, attached, moved).out.Ok?
    ensures Serve(w, CallResult(r, blob, request, now, attached, moved))
         == World(PublishResult(w.db, r, blob, request, now, attached, moved).db, w.manager)
  {
    hide PublishResult;
  }
}

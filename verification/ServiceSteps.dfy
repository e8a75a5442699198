// Every service call, whether it returns or raises, grows the ledgers of its working
// database and keeps them consistent.

module ServiceSteps {
  import opened Json
  import opened Domain
  import opened Records
  import opened Ledgers
  import opened Database
  import opened LedgerInvariants
  import opened Services
  import opened Publication
  import Queue

  lemma GoodSelf(db: Db)
    requires Inv(db)
    ensures Good(db, db)
  {
    hide Inv;
    ExtendsSelf(db);
  }

  lemma GoodThen(a: Db, b: Db, c: Db)
    requires Good(a, b) && Good(b, c)
    ensures Good(a, c)
  {
    hide Inv;
    ExtendsTransitive(a, b, c);
  }

  /******* Single store calls *******/

  lemma CreateTaskGood(db: Db, t: Task)
    requires Inv(db)
    ensures Good(db, db.CreateTask(t).db)
  {
    hide Good, Inv;
    ApplyGood(db, StoreOp.CreateTask(t));
  }

  lemma UpdateTaskGood(db: Db, t: Task, v: nat)
    requires Inv(db)
    ensures Good(db, db.UpdateTask(t, v).db)
  {
    hide Good, Inv;
    ApplyGood(db, StoreOp.UpdateTask(t, v));
  }

  lemma AppendEventGood(db: Db, e: Event, n: nat)
    requires Inv(db)
    ensures Good(db, db.AppendEvent(e, n).db)
  {
    hide Good, Inv;
    ApplyGood(db, StoreOp.AppendEvent(e, n));
  }

  lemma QueueGood(db: Db, c: Queue.Command)
    requires Inv(db)
    ensures Good(db, db.(queue := Queue.Execute(db.queue, c).0))
  {
    QueueStep(db, c);
  }

  lemma SetFuseGood(db: Db, f: FuseState, e: ControlEvent)
    requires Inv(db)
    ensures Good(db, db.SetFuse(f).db.AppendControl(e).db)
  {
    ControlsGrew(db, db.queue, f, db.control + [e]);
  }

  lemma CreateIntakeGood(db: Db, r: IntakeRecord)
    requires Inv(db)
    ensures Good(db, db.CreateIntake(r).db)
  {
    hide Good, Inv;
    ApplyGood(db, StoreOp.CreateIntake(r));
  }

  lemma RecordSourceGood(db: Db, r: IssueIngestionRecord)
    requires Inv(db)
    ensures Good(db, db.RecordSource(r).db)
  {
    hide Good, Inv;
    ApplyGood(db, StoreOp.RecordSource(r));
  }

  lemma RegisterArtifactGood(db: Db, a: CatalogedArtifact)
    requires Inv(db)
    ensures Good(db, db.RegisterArtifact(a).db)
  {
    hide Good, Inv;
    ApplyGood(db, StoreOp.RegisterArtifact(a));
  }

  lemma RecordSessionGood(db: Db, r: RunnerSessionRequest)
    requires Inv(db) && r.Accepted()
    ensures Good(db, db.RecordSession(r).db)
  {
    hide Good, Inv;
    ApplyGood(db, StoreOp.RecordSession(r));
  }

  lemma SetOutcomeGood(db: Db, o: RunnerSessionOutcome)
    requires Inv(db) && o.Accepted()
    ensures Good(db, db.SetOutcome(o).db)
  {
    hide Good, Inv;
    ApplyGood(db, StoreOp.SetOutcome(o));
  }

  lemma RecordResultGood(db: Db, r: WorkerResult)
    requires Inv(db) && r.Accepted()
    ensures Good(db, db.RecordResult(r).db)
  {
    hide Good, Inv;
    ApplyGood(db, StoreOp.RecordResult(r));
  }

  lemma RecordWorkspaceGood(db: Db, w: WorkspaceRecord)
    requires Inv(db)
    ensures Good(db, db.RecordWorkspace(w).db)
  {
    hide Good, Inv;
    ApplyGood(db, StoreOp.RecordWorkspace(w));
  }

  lemma ReleaseWorkspaceGood(db: Db, id: Text)
    requires Inv(db)
    ensures Good(db, db.ReleaseWorkspace(id).db)
  {
    hide Good, Inv;
    ApplyGood(db, StoreOp.ReleaseWorkspace(id));
  }

  lemma ReserveGood(db: Db, i: PublicationIntent)
    requires Inv(db) && i.Accepted()
    ensures Good(db, db.Reserve(i).db)
  {
    hide Good, Inv;
    ApplyGood(db, StoreOp.Reserve(i));
  }

  lemma PrepareGood(db: Db, h: PreparedHead, v: nat)
    requires Inv(db) && h.Accepted()
    ensures Good(db, db.Prepare(h, v).db)
  {
    hide Good, Inv;
    ApplyGood(db, StoreOp.Prepare(h, v));
  }

  lemma VerifyGood(db: Db, r: VerificationResult, v: nat)
    requires Inv(db) && r.Accepted()
    ensures Good(db, db.Verify(r, v).db)
  {
    hide Good, Inv;
    ApplyGood(db, StoreOp.Verify(r, v));
  }

  lemma AppendApprovalGood(db: Db, d: PublicationReviewDecision)
    requires Inv(db) && d.Accepted()
    ensures Good(db, db.AppendApproval(d).db)
  {
    hide Good, Inv;
    ApplyGood(db, StoreOp.AppendApproval(d));
  }

  lemma RequestEffectGood(db: Db, e: PublicationEffectIntent)
    requires Inv(db) && e.Accepted()
    ensures Good(db, db.RequestEffect(e).db)
  {
    hide Good, Inv;
    ApplyGood(db, StoreOp.RequestEffect(e));
  }

  lemma ReconcileEffectGood(db: Db, r: PublicationReceipt)
    requires Inv(db) && r.Accepted()
    ensures Good(db, db.ReconcileEffect(r).db)
  {
    hide Good, Inv;
    ApplyGood(db, StoreOp.ReconcileEffect(r));
  }

  lemma AppendObservationGood(db: Db, o: CheckRunObservation)
    requires Inv(db) && o.Accepted()
    ensures Good(db, db.AppendObservation(o).db)
  {
    hide Good, Inv;
    ApplyGood(db, StoreOp.AppendObservation(o));
  }

  /******* Task services *******/

  lemma AdvanceGood(db: Db, t: Task, v: nat, e: Event, n: nat)
    requires Inv(db)
    ensures Good(db, Advance(db, t, v, e, n).db)
  {
    hide Inv, Extends;
    var u := db.UpdateTask(t, v).db;
    UpdateTaskGood(db, t, v);
    AppendEventGood(u, e, n);
    GoodThen(db, u, u.AppendEvent(e, n).db);
  }

  lemma TransitionGood(db: Db, id: Text, target: TaskStatus, actor: Role, e: Event, v: nat, n: nat, evidence: bool,
                       granted: bool)
    requires Inv(db)
    ensures Good(db, Transition(db, id, target, actor, e, v, n, evidence, granted).db)
  {
    hide Inv, Extends, Advance;
    GoodSelf(db);
    if id in db.tasks {
      match Target(db.tasks[id], target, actor, granted)
      case Ok(task) => AdvanceGood(db, task, v, e, n);
      case Err(_) =>
    }
  }

  lemma FailTaskGood(db: Db, t: Task, e: Event, n: nat)
    requires Inv(db)
    ensures Good(db, FailTask(db, t, e, n).db)
  {
    hide Inv, Extends, Advance;
    GoodSelf(db);
    match t.Fail(SYSTEM)
    case Ok(failed) => AdvanceGood(db, failed, t.version, e, n);
    case Err(_) =>
  }

  lemma QueueFailGood(db: Db, id: Text, w: Text, now: Time, e: Event, n: nat)
    requires Inv(db)
    ensures Good(db, QueueFail(db, id, w, now, e, n).db)
  {
    hide Inv, Extends, FailTask;
    GoodSelf(db);
    if id in db.tasks {
      var q := db.UseQueue(Queue.Fail(db.queue, id, w, now));
      QueueGood(db, Queue.FailRow(id, w, now, []));
      assert q.db == db.(queue := Queue.Execute(db.queue, Queue.FailRow(id, w, now, [])).0);
      FailTaskGood(q.db, db.tasks[id], e, n);
      AppendEventGood(q.db, e, n);
      GoodThen(db, q.db, FailTask(q.db, db.tasks[id], e, n).db);
      GoodThen(db, q.db, q.db.AppendEvent(e, n).db);
    }
  }

  lemma {:induction false} SettleRecoveredGood(db: Db, results: seq<Queue.FailureResult>, events: TerminalEvents)
    requires Inv(db)
    ensures Good(db, SettleRecovered(db, results, events).db)
    decreases |results|
  {
    hide Inv, Extends, FailTask;
    GoodSelf(db);
    if results != [] {
      var id := results[0].taskId;
      if !results[0].terminal {
        SettleRecoveredGood(db, results[1..], events);
      } else if id in db.tasks && id in events {
        var f := FailTask(db, db.tasks[id], events[id].0, events[id].1);
        FailTaskGood(db, db.tasks[id], events[id].0, events[id].1);
        SettleRecoveredGood(f.db, results[1..], events);
        GoodThen(db, f.db, SettleRecovered(f.db, results[1..], events).db);
      }
    }
  }

  lemma RecoverGood(db: Db, now: Time, events: TerminalEvents)
    requires Inv(db)
    ensures Good(db, Recover(db, now, events).db)
  {
    hide Inv, Extends, SettleRecovered;
    var q := db.(queue := Queue.RecoverRows(db.queue, now));
    var results := Queue.RecoverResults(db.queue, now);
    QueueGood(db, Queue.RecoverExpired(now));
    assert q == db.(queue := Queue.Execute(db.queue, Queue.RecoverExpired(now)).0);
    SettleRecoveredGood(q, results, events);
    GoodThen(db, q, SettleRecovered(q, results, events).db);
  }

  lemma RegisterGood(db: Db, id: Text, blob: Blob, request: ArtifactRequest, v: nat, n: nat, stamp: Stamp)
    requires Inv(db)
    ensures Good(db, Register(db, id, blob, request, v, n, stamp).db)
  {
    hide Inv, Extends, ArtifactRegister, TaskUpdate, EventAppend;
    GoodSelf(db);
    var reference := ArtifactRef(blob.digest, request.logicalName, request.mediaType);
    if !request.containsSecrets && id in db.tasks {
      var a := CatalogedArtifact(reference, request.classification, request.sourceKind, blob.size);
      var r := db.RegisterArtifact(a).db;
      var updated := db.tasks[id].AttachArtifact(reference);
      var u := if updated != db.tasks[id] then r.UpdateTask(updated, v).db else r;
      var e := ArtifactEvent(id, reference, stamp, n);
      RegisterArtifactGood(db, a);
      UpdateTaskGood(r, updated, v);
      GoodSelf(r);
      GoodThen(db, r, u);
      AppendEventGood(u, e, n);
      GoodThen(db, u, u.AppendEvent(e, n).db);
    }
  }

  lemma FileIntakeGood(db: Db, request: IntakeRequest, task: Task, stamp: Stamp)
    requires Inv(db)
    ensures Good(db, FileIntake(db, request, task, stamp).db)
  {
    hide Inv, Extends, TaskCreate, IntakeCreate, EventAppend;
    var c := db.CreateTask(task).db;
    CreateTaskGood(db, task);
    var record := IntakeRecord(request.requestId, request.Canonical(), task.taskId);
    var i := c.CreateIntake(record).db;
    CreateIntakeGood(c, record);
    GoodThen(db, c, i);
    var e := ReceivedEvent(request, stamp);
    var a := i.AppendEvent(e, 0).db;
    AppendEventGood(i, e, 0);
    GoodThen(db, i, a);
    var command := Queue.EnqueueRow(task.taskId, request.priority, stamp.at, request.requestId);
    QueueGood(a, command);
    GoodThen(db, a, a.(queue := Queue.Execute(a.queue, command).0));
  }

  lemma StartGood(db: Db, request: IntakeRequest, stamp: Stamp)
    requires Inv(db)
    ensures Good(db, Start(db, request, stamp).db)
  {
    hide Inv, Extends, FileIntake;
    GoodSelf(db);
    match IntakeTask(request, stamp.at)
    case Ok(task) => FileIntakeGood(db, request, task, stamp);
    case Err(_) =>
  }

  lemma ClaimNextGood(db: Db, w: Text, now: Time, lease: int)
    requires Inv(db)
    ensures Good(db, ClaimNext(db, w, now, lease).db)
  {
    hide Inv, Extends;
    GoodSelf(db);
    QueueGood(db, Queue.ClaimRow(w, now, lease));
    assert Queue.Execute(db.queue, Queue.ClaimRow(w, now, lease)).0 == Queue.Claim(db.queue, w, now, lease).rows;
  }

  lemma FuseGood(db: Db, now: Time, granted: bool, revision: Option<Text>)
    requires Inv(db)
    ensures Good(db, Engage(db, now).db)
    ensures Good(db, Release(db, now, granted, revision).db)
  {
    hide Inv, Extends;
    GoodSelf(db);
    SetFuseGood(db, FuseState(true, now, None), ControlEvent(Lit("fuse_engaged"), now, None));
    SetFuseGood(db, FuseState(false, now, revision), ControlEvent(Lit("fuse_released"), now, revision));
  }

  lemma FileSourceGood(db: Db, c: IssueCandidate, revision: Option<Text>, draws: IngestDraws)
    requires Inv(db)
    ensures Good(db, FileSource(db, c, revision, draws).db)
  {
    hide Inv, Extends, Start, Register, EventAppend, SourceRecordOnce;
    var s := Start(db, IngestRequest(c, revision), draws.received);
    StartGood(db, IngestRequest(c, revision), draws.received);
    if s.out.Ok? {
      var task := s.out.value;
      var m := Sequence(s.db, task.taskId);
      var r := Register(s.db, task.taskId, draws.blob, ISSUE_ARTIFACT, task.version, m, draws.attached);
      RegisterGood(s.db, task.taskId, draws.blob, ISSUE_ARTIFACT, task.version, m, draws.attached);
      GoodThen(db, s.db, r.db);
      if r.out.Ok? && task.taskId in r.db.tasks {
        var n := Sequence(r.db, task.taskId);
        var e := SourceEvent(c, task.taskId, r.out.value.digest, draws.ingested, n);
        var a := r.db.AppendEvent(e, n).db;
        AppendEventGood(r.db, e, n);
        GoodThen(db, r.db, a);
        var record := IssueIngestionRecord(c.sourceKey, c.Canonical(), r.db.tasks[task.taskId].taskId,
                                           c.triggerEventId);
        RecordSourceGood(a, record);
        GoodThen(db, a, a.RecordSource(record).db);
      }
    }
  }

  lemma IngestGood(db: Db, c: IssueCandidate, granted: bool, revision: Option<Text>, draws: IngestDraws)
    requires Inv(db)
    ensures Good(db, Ingest(db, c, granted, revision, draws).db)
  {
    hide Inv, Extends, FileSource;
    GoodSelf(db);
    FileSourceGood(db, c, revision, draws);
  }

  lemma RequestSessionGood(db: Db, r: RunnerSessionRequest, stamp: Stamp)
    requires Inv(db) && r.Accepted()
    ensures Good(db, RequestSession(db, r, stamp).db)
  {
    hide Inv, Extends, SessionRecordOnce, EventAppend;
    GoodSelf(db);
    var s := db.RecordSession(r).db;
    RecordSessionGood(db, r);
    var e := SessionEvent(r, stamp);
    AppendEventGood(s, e, r.expectedSequence);
    GoodThen(db, s, s.AppendEvent(e, r.expectedSequence).db);
  }

  lemma RunWorkerGood(db: Db, id: Text, answer: RunnerSessionOutcome)
    requires Inv(db) && answer.Accepted()
    ensures Good(db, RunWorker(db, id, answer).db)
  {
    hide Inv, Extends, SessionSetOutcome;
    GoodSelf(db);
    SetOutcomeGood(db, answer);
  }

  lemma FileResultGood(db: Db, result: WorkerResult, blob: Blob, request: ArtifactRequest, now: Time, attached: Stamp,
                       moved: Stamp)
    requires Inv(db) && result.Accepted()
    ensures Good(db, FileResult(db, result, blob, request, now, attached, moved).db)
  {
    hide Inv, Extends, Register, Transition, ResultRecordOnce;
    var id := result.taskId;
    var r := Register(db, id, blob, request, result.expectedTaskVersion, result.expectedSequence, attached);
    RegisterGood(db, id, blob, request, result.expectedTaskVersion, result.expectedSequence, attached);
    if r.out.Ok? && id in r.db.tasks {
      var e := ResultEvent(result, r.out.value, moved);
      var v, n := r.db.tasks[id].version, result.expectedSequence + 1;
      var t := Transition(r.db, id, result.target, result.worker.role, e, v, n, true, false).db;
      TransitionGood(r.db, id, result.target, result.worker.role, e, v, n, true, false);
      GoodThen(db, r.db, t);
      var command := Queue.CompleteRow(id, result.worker.workerId, now);
      var q := t.(queue := Queue.Execute(t.queue, command).0);
      QueueGood(t, command);
      GoodThen(db, t, q);
      RecordResultGood(q, result);
      GoodThen(db, q, q.RecordResult(result).db);
    }
  }

  lemma PublishResultGood(db: Db, result: WorkerResult, blob: Blob, request: ArtifactRequest, now: Time,
                          attached: Stamp, moved: Stamp)
    requires Inv(db) && result.Accepted()
    ensures Good(db, PublishResult(db, result, blob, request, now, attached, moved).db)
  {
    hide Inv, Extends, FileResult;
    GoodSelf(db);
    FileResultGood(db, result, blob, request, now, attached, moved);
  }

  lemma CancelGood(db: Db, id: Text, w: Text, now: Time, granted: bool, revision: Option<Text>, n: nat, stamp: Stamp)
    requires Inv(db)
    ensures Good(db, Cancel(db, id, w, now, granted, revision, n, stamp).db)
  {
    hide Inv, Extends, Advance;
    GoodSelf(db);
    if id in db.tasks && db.tasks[id].Block().Ok? {
      var e := CancelEvent(id, stamp, n);
      var b := Advance(db, db.tasks[id].Block().value, db.tasks[id].version, e, n).db;
      AdvanceGood(db, db.tasks[id].Block().value, db.tasks[id].version, e, n);
      QueueGood(b, Queue.CompleteRow(id, w, now));
      GoodThen(db, b, b.(queue := Queue.Execute(b.queue, Queue.CompleteRow(id, w, now)).0));
    }
  }

  lemma FileWorkspaceGood(db: Db, record: WorkspaceRecord, r: WorkspaceRequest, stamp: Stamp)
    requires Inv(db)
    ensures Good(db, FileWorkspace(db, record, r, stamp).db)
  {
    hide Inv, Extends, WorkspaceRecordOnce, EventAppend;
    var w := db.RecordWorkspace(record).db;
    RecordWorkspaceGood(db, record);
    AppendEventGood(w, AllocatedEvent(r, stamp), r.expectedSequence);
    GoodThen(db, w, w.AppendEvent(AllocatedEvent(r, stamp), r.expectedSequence).db);
  }

  lemma AllocateGood(db: Db, m: Manager, r: WorkspaceRequest, granted: bool, stamp: Stamp)
    requires Inv(db)
    ensures Good(db, Allocate(db, m, r, granted, stamp).0.db)
  {
    hide Inv, Extends, FileWorkspace;
    GoodSelf(db);
    if r.taskId in db.tasks {
      var readOnly := Policy(db.tasks[r.taskId], r, granted);
      if readOnly.Ok? {
        var p := ManagerAllocate(m, r, db.tasks[r.taskId].repository.name, readOnly.value);
        if p.out.Ok? { FileWorkspaceGood(db, p.out.value, r, stamp); }
      }
    }
  }

  lemma ReleaseAllocationGood(db: Db, m: Manager, id: Text, stamp: Stamp)
    requires Inv(db)
    ensures Good(db, ReleaseAllocation(db, m, id, stamp).0.db)
  {
    hide Inv, Extends, WorkspaceRelease, EventAppend;
    GoodSelf(db);
    var w := db.ReleaseWorkspace(id);
    ReleaseWorkspaceGood(db, id);
    if w.out.Ok? {
      var n := Sequence(w.db, w.out.value.request.taskId);
      AppendEventGood(w.db, ReleasedEvent(w.out.value, stamp, n), n);
      GoodThen(db, w.db, w.db.AppendEvent(ReleasedEvent(w.out.value, stamp, n), n).db);
    }
  }

  /******* Publication services *******/

  lemma PreparePublicationGood(db: Db, i: PublicationIntent, granted: bool, patchIntact: bool, h: PreparedHead)
    requires Inv(db) && i.Accepted() && h.Accepted()
    ensures Good(db, PreparePublication(db, i, granted, patchIntact, h).db)
  {
    hide Inv, Extends, PublicationReserve, RecordPrepared, PreparePreconditions;
    GoodSelf(db);
    var r := db.Reserve(i);
    ReserveGood(db, i);
    if r.out.Ok? {
      var v := r.out.value.0.version;
      PrepareGood(r.db, h, v);
      GoodThen(db, r.db, r.db.Prepare(h, v).db);
    }
  }

  lemma PrepareAndVerifyGood(db: Db, i: PublicationIntent, granted: bool, patchIntact: bool, h: PreparedHead,
                             v: VerificationResult)
    requires Inv(db) && i.Accepted() && h.Accepted() && v.Accepted()
    ensures Good(db, PrepareAndVerify(db, i, granted, patchIntact, h, v).db)
  {
    hide Inv, Extends, PreparePublication, RecordVerification;
    var p := PreparePublication(db, i, granted, patchIntact, h);
    PreparePublicationGood(db, i, granted, patchIntact, h);
    if i.publicationId in p.db.publications {
      var n := p.db.publications[i.publicationId].version;
      VerifyGood(p.db, v, n);
      GoodThen(db, p.db, p.db.Verify(v, n).db);
    }
  }

  lemma ApprovePublicationGood(db: Db, id: Text, approvalId: Text, resultId: Text, digest: Text, at: Time)
    requires Inv(db)
    ensures Good(db, ApprovePublication(db, id, approvalId, resultId, digest, at).db)
  {
    hide Inv, Extends, ApprovalAppend;
    GoodSelf(db);
    if id in db.publications && SuccessfullyVerified(db.publications[id])
       && ReviewerEligible(db, db.publications[id].intent, resultId) && digest in db.artifacts {
      var d := Decision(id, db.publications[id], approvalId, db.results[resultId], db.artifacts[digest].reference, at);
      if d.Accepted() { AppendApprovalGood(db, d); }
    }
  }

  lemma BeginGood(db: Db, id: Text, effectId: Text)
    requires Inv(db)
    ensures Good(db, Begin(db, id, effectId).db)
  {
    hide Inv, Extends, EffectRequest, ExactlyApproved;
    GoodSelf(db);
    if id in db.publications && SuccessfullyVerified(db.publications[id]) {
      var e := EffectIntent(effectId, id, db.publications[id].preparedHead.value);
      if e.Accepted() { RequestEffectGood(db, e); }
    }
  }

  lemma SettleReceiptGood(db: Db, effectId: Text, job: Job, receipt: PublicationReceipt)
    requires Inv(db) && receipt.Accepted()
    ensures Good(db, SettleReceipt(db, effectId, job, receipt).0)
  {
    hide Inv, Extends, EffectReconcile;
    GoodSelf(db);
    ReconcileEffectGood(db, receipt);
  }

  lemma {:induction false} AppendObservationsGood(db: Db, os: seq<CheckRunObservation>)
    requires Inv(db) && forall i | 0 <= i < |os| :: os[i].Accepted()
    ensures Good(db, AppendObservations(db, os).db)
    decreases |os|
  {
    hide Inv, Extends, ObservationAppend;
    GoodSelf(db);
    if os != [] {
      var a := db.AppendObservation(os[0]);
      AppendObservationGood(db, os[0]);
      if a.out.Ok? {
        AppendObservationsGood(a.db, os[1..]);
        GoodThen(db, a.db, AppendObservations(a.db, os[1..]).db);
      }
    }
  }

  lemma RecordChecksGood(db: Db, id: Text, effectId: Text, head: Text, canonical: string, os: seq<CheckRunObservation>)
    requires Inv(db) && forall i | 0 <= i < |os| :: os[i].Accepted()
    ensures Good(db, RecordChecks(db, id, effectId, head, canonical, os).db)
  {
    hide Inv, Extends, AppendObservations, ValidatedState;
    GoodSelf(db);
    AppendObservationsGood(db, os);
  }
}

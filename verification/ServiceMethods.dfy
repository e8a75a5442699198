// The services as they run: statements over the stores of a unit of work, each proved to
// do what its function in Services and Publication says.

module ServiceMethods {
  import opened Json
  import opened Domain
  import opened Records
  import opened Ledgers
  import opened Database
  import opened Heap
  import opened Memory
  import opened UnitOfWork
  import opened Services
  import opened Publication
  import Queue

  lemma WorkParts(maps: Maps)
    ensures maps.View().tasks == maps.tasks.it && maps.View().fuse == maps.fuse.it
    ensures maps.View().intakes == maps.intakes.it && maps.View().sources == maps.sources.it
    ensures maps.View().queue == maps.queue.it && maps.View().workspaces == maps.workspaces.it
    ensures maps.View().effects == maps.effects.it
    ensures forall id :: History(maps.View().events, id) == if id in maps.events.it then maps.events.it[id].it else []
  {
  }

  /******* services.py *******/

  lemma LinkedWork(uow: Stores, maps: Maps)
    requires uow.BoundTo(maps)
    ensures uow.tasks.all == maps && uow.tasks.Linked() && uow.events.all == maps && uow.events.Linked()
    ensures uow.fuse.all == maps && uow.fuse.Linked() && uow.queue.all == maps && uow.queue.Linked()
  {
  }

  lemma LinkedSources(uow: Stores, maps: Maps)
    requires uow.BoundTo(maps)
    ensures uow.artifacts.all == maps && uow.artifacts.Linked()
    ensures uow.runnerSessions.all == maps && uow.runnerSessions.Linked()
    ensures uow.sourceIngestions.all == maps && uow.sourceIngestions.Linked()
  {
  }

  method AdvanceTask(uow: Stores, ghost maps: Maps, task: Task, expectedVersion: nat, event: Event,
                     expectedSequence: nat)
      returns (out: Outcome<Task>)
    requires uow.BoundTo(maps) && maps.Valid()
    modifies maps.All()
    ensures maps.Valid() && forall o | o in maps.All() :: o in old(maps.All()) || fresh(o)
    ensures Step(maps.View(), out) == Advance(old(maps.View()), task, expectedVersion, event, expectedSequence)
  {
    hide Maps.View, Maps.All, Maps.Valid, TaskUpdate, EventAppend;
    DictsInAll(maps);
    out := uow.tasks.Update(task, expectedVersion);
    if out.Err? { return; }
    var appended := uow.events.Append(event, expectedSequence);
    out := if appended.Err? then Err(appended.error) else Ok(task);
  }

  lemma TransitionCases(db: Db, taskId: Text, target: TaskStatus, actor: Role, event: Event, version: nat,
                        sequence: nat,
                        evidence: bool, granted: bool)
    ensures var t := Transition(db, taskId, target, actor, event, version, sequence, evidence, granted);
            && (taskId !in db.tasks ==> t == Raise(db, TaskNotFound))
            && (taskId in db.tasks && !evidence ==> t == Raise(db, Validation))
            && (taskId in db.tasks && evidence ==>
                  var moved := if target in {IMPLEMENTING, READY_TO_PUBLISH}
                                  && !(Given(db.tasks[taskId].risk.governanceRevision) && granted)
                               then db.tasks[taskId].Block() else db.tasks[taskId].Transition(target, actor);
                  t == if moved.Err? then Raise(db, moved.error)
                  else Advance(db, moved.value, version, event, sequence))
  {
    hide Task.Transition, Task.Block, Advance, Given;
  }

  method TransitionTask(uow: Stores, ghost maps: Maps, taskId: Text, target: TaskStatus, actor: Role, event: Event,
                        expectedVersion: nat, expectedSequence: nat, evidence: bool, granted: bool)
      returns (out: Outcome<Task>)
    requires uow.BoundTo(maps) && maps.Valid()
    modifies maps.All()
    ensures maps.Valid() && forall o | o in maps.All() :: o in old(maps.All()) || fresh(o)
    ensures Step(maps.View(), out)
         == Transition(old(maps.View()), taskId, target, actor, event, expectedVersion, expectedSequence, evidence,
                       granted)
  {
    hide Maps.View, Maps.All, Maps.Valid, Advance, Transition, Task.Transition, Task.Block, Given, Stores.BoundTo;
    LinkedWork(uow, maps);
    WorkParts(maps);
    TransitionCases(maps.View(), taskId, target, actor, event, expectedVersion, expectedSequence, evidence, granted);
    var found := uow.tasks.Get(taskId);
    if found.None? { return Err(TaskNotFound); }
    if !evidence { return Err(Validation); }
    var task := found.value;
    var moved: Outcome<Task>;
    if target in {IMPLEMENTING, READY_TO_PUBLISH} {
      var authorized := Given(task.risk.governanceRevision) && granted;
      moved := if authorized then task.Transition(target, actor) else task.Block();
    } else {
      moved := task.Transition(target, actor);
    }
    if moved.Err? { return Err(moved.error); }
    out := AdvanceTask(uow, maps, moved.value, expectedVersion, event, expectedSequence);
  }

  method FailLease(uow: Stores, ghost maps: Maps, taskId: Text, workerId: Text, now: Time, event: Event,
                   expectedSequence: nat)
      returns (out: Outcome<Queue.FailureResult>)
    requires uow.BoundTo(maps) && maps.Valid()
    modifies maps.All()
    ensures maps.Valid() && forall o | o in maps.All() :: o in old(maps.All()) || fresh(o)
    ensures Step(maps.View(), out) == QueueFail(old(maps.View()), taskId, workerId, now, event, expectedSequence)
  {
    hide Maps.View, Maps.All, Maps.Valid, Advance, Queue.Fail, EventAppend;
    DictsInAll(maps);
    WorkParts(maps);
    var task := uow.tasks.Get(taskId);
    if task.None? { return Err(TaskNotFound); }
    out := uow.queue.Fail(taskId, workerId, now);
    if out.Err? { return; }
    if out.value.terminal {
      var failed := task.value.Fail(SYSTEM);
      if failed.Err? { return Err(failed.error); }
      var advanced := AdvanceTask(uow, maps, failed.value, task.value.version, event, expectedSequence);
      if advanced.Err? { out := Err(advanced.error); }
    } else {
      var appended := uow.events.Append(event, expectedSequence);
      if appended.Err? { out := Err(appended.error); }
    }
  }

  // The rest of the loop's work, from the i-th recovered row.
  lemma SettleFrom(db: Db, results: seq<Queue.FailureResult>, i: nat, events: TerminalEvents)
    requires i < |results|
    ensures var id := results[i].taskId;
            SettleRecovered(db, results[i..], events)
            == if !results[i].terminal then SettleRecovered(db, results[i + 1..], events)
               else if id !in db.tasks then Raise(db, TaskNotFound)
               else if id !in events then Raise(db, MissingKey)
               else
                 var f := FailTask(db, db.tasks[id], events[id].0, events[id].1);
                 if f.out.Err? then Raise(f.db, f.out.error) else SettleRecovered(f.db, results[i + 1..], events)
  {
    assert results[i..][0] == results[i] && results[i..][1..] == results[i + 1..];
  }

  method RecoverLeases(uow: Stores, ghost maps: Maps, now: Time, events: TerminalEvents)
      returns (out: Outcome<seq<Queue.FailureResult>>)
    requires uow.BoundTo(maps) && maps.Valid()
    modifies maps.All()
    ensures maps.Valid() && forall o | o in maps.All() :: o in old(maps.All()) || fresh(o)
    ensures Step(maps.View(), out) == Recover(old(maps.View()), now, events)
  {
    hide Maps.View, Maps.All, Maps.Valid, Advance, Queue.RecoverRows, Queue.RecoverResults, SettleRecovered;
    DictsInAll(maps);
    WorkParts(maps);
    var results := uow.queue.RecoverExpired(now);
    ghost var recovered := maps.View();
    var i := 0;
    while i < |results|
      invariant 0 <= i <= |results|
      invariant maps.Valid() && forall o | o in maps.All() :: o in old(maps.All()) || fresh(o)
      invariant SettleRecovered(recovered, results, events) == SettleRecovered(maps.View(), results[i..], events)
    {
      WorkParts(maps);
      SettleFrom(maps.View(), results, i, events);
      if results[i].terminal {
        var id := results[i].taskId;
        var task := uow.tasks.Get(id);
        if task.None? { return Err(TaskNotFound); }
        if id !in events { return Err(MissingKey); }
        var failed := task.value.Fail(SYSTEM);
        if failed.Err? { return Err(failed.error); }
        var advanced := AdvanceTask(uow, maps, failed.value, task.value.version, events[id].0, events[id].1);
        if advanced.Err? { return Err(advanced.error); }
      }
      i := i + 1;
    }
    SettleNone(maps.View(), results[i..], events);
    out := Ok(results);
  }

  lemma SettleNone(db: Db, results: seq<Queue.FailureResult>, events: TerminalEvents)
    requires results == []
    ensures SettleRecovered(db, results, events) == Step(db, Ok(()))
  {
  }

  /******* artifacts.py *******/

  method RegisterBlob(uow: Stores, ghost maps: Maps, taskId: Text, blob: Blob, request: ArtifactRequest,
                      expectedVersion: nat, expectedSequence: nat, stamp: Stamp) returns (out: Outcome<ArtifactRef>)
    requires uow.BoundTo(maps) && maps.Valid()
    modifies maps.All()
    ensures maps.Valid() && forall o | o in maps.All() :: o in old(maps.All()) || fresh(o)
    ensures Step(maps.View(), out)
         == Register(old(maps.View()), taskId, blob, request, expectedVersion, expectedSequence, stamp)
  {
    hide Maps.View, Maps.All, Maps.Valid, ArtifactRegister, TaskUpdate, EventAppend, ArtifactEvent, Stores.BoundTo;
    LinkedWork(uow, maps);
    LinkedSources(uow, maps);
    DictsInAll(maps);
    WorkParts(maps);
    if request.containsSecrets { return Err(Validation); }
    var reference := ArtifactRef(blob.digest, request.logicalName, request.mediaType);
    var task := uow.tasks.Get(taskId);
    if task.None? { return Err(TaskNotFound); }
    var registered := uow.artifacts.Register(
      CatalogedArtifact(reference, request.classification, request.sourceKind, blob.size));
    if registered.Err? { return Err(registered.error); }
    var updated := task.value.AttachArtifact(reference);
    if updated != task.value {
      var saved := uow.tasks.Update(updated, expectedVersion);
      if saved.Err? { return Err(saved.error); }
    }
    var appended := uow.events.Append(ArtifactEvent(taskId, reference, stamp, expectedSequence), expectedSequence);
    out := if appended.Err? then Err(appended.error) else Ok(reference);
  }

  /******* controller.py *******/

  method FileRequest(uow: Stores, ghost maps: Maps, request: IntakeRequest, task: Task, stamp: Stamp)
        returns (out: Outcome<Task>)
    requires uow.BoundTo(maps) && maps.Valid()
    modifies maps.All()
    ensures maps.Valid() && forall o | o in maps.All() :: o in old(maps.All()) || fresh(o)
    ensures Step(maps.View(), out) == FileIntake(old(maps.View()), request, task, stamp)
  {
    hide Maps.View, Maps.All, Maps.Valid, TaskCreate, IntakeCreate, EventAppend, ReceivedEvent, Queue.Enqueue;
    DictsInAll(maps);
    out := uow.tasks.Create(task);
    if out.Err? { return; }
    var filed := uow.intakeLedger.Create(IntakeRecord(request.requestId, request.Canonical(), task.taskId));
    if filed.Err? { return Err(filed.error); }
    var appended := uow.events.Append(ReceivedEvent(request, stamp), 0);
    if appended.Err? { return Err(appended.error); }
    if request.enqueue {
      WorkParts(maps);
      DictsInAll(maps);
      var queued := uow.queue.Enqueue(task.taskId, request.priority, stamp.at, request.requestId);
      if queued.Err? { return Err(queued.error); }
    }
    out := Ok(task);
  }

  method StartTask(uow: Stores, ghost maps: Maps, request: IntakeRequest, stamp: Stamp) returns (out: Outcome<Task>)
    requires uow.BoundTo(maps) && maps.Valid()
    modifies maps.All()
    ensures maps.Valid() && forall o | o in maps.All() :: o in old(maps.All()) || fresh(o)
    ensures Step(maps.View(), out) == Start(old(maps.View()), request, stamp)
  {
    hide Maps.View, Maps.All, Maps.Valid, FileIntake, IntakeTask;
    WorkParts(maps);
    if request.requestId == [] { return Err(Validation); }
    if uow.fuse.Get().engaged { return Err(Validation); }
    var record := uow.intakeLedger.Get(request.requestId);
    if record.Some? {
      if record.value.canonicalRequest != request.Canonical() { return Err(CreateConflict); }
      var existing := uow.tasks.Get(record.value.taskId);
      if existing.None? { return Err(TaskNotFound); }
      return Ok(existing.value);
    }
    var task := IntakeTask(request, stamp.at);
    if task.Err? { return Err(task.error); }
    out := FileRequest(uow, maps, request, task.value, stamp);
  }

  method ClaimTask(uow: Stores, ghost maps: Maps, workerId: Text, now: Time, lease: int)
        returns (out: Outcome<Option<Queue.Lease>>)
    requires uow.BoundTo(maps) && maps.Valid()
    modifies maps.All()
    ensures maps.Valid() && forall o | o in maps.All() :: o in old(maps.All()) || fresh(o)
    ensures Step(maps.View(), out) == ClaimNext(old(maps.View()), workerId, now, lease)
  {
    hide Maps.View, Maps.All, Maps.Valid, Queue.Claim;
    DictsInAll(maps);
    WorkParts(maps);
    if uow.fuse.Get().engaged { return Err(Validation); }
    out := uow.queue.Claim(workerId, now, lease);
  }

  method EngageFuse(uow: Stores, ghost maps: Maps, now: Time) returns (state: FuseState)
    requires uow.BoundTo(maps) && maps.Valid()
    modifies maps.All()
    ensures maps.Valid() && forall o | o in maps.All() :: o in old(maps.All()) || fresh(o)
    ensures Step(maps.View(), Ok(state)) == Engage(old(maps.View()), now)
  {
    hide Maps.View, Maps.All, Maps.Valid;
    DictsInAll(maps);
    state := uow.fuse.Set(FuseState(true, now, None));
    var _ := uow.controlEvents.Append(ControlEvent(Lit("fuse_engaged"), now, None));
  }

  method ReleaseFuse(uow: Stores, ghost maps: Maps, now: Time, granted: bool, revision: Option<Text>)
        returns (out: Outcome<FuseState>)
    requires uow.BoundTo(maps) && maps.Valid()
    modifies maps.All()
    ensures maps.Valid() && forall o | o in maps.All() :: o in old(maps.All()) || fresh(o)
    ensures Step(maps.View(), out) == Release(old(maps.View()), now, granted, revision)
  {
    hide Maps.View, Maps.All, Maps.Valid;
    DictsInAll(maps);
    if !Given(revision) || !granted { return Err(UnsupportedGovernance); }
    var state := uow.fuse.Set(FuseState(false, now, revision));
    var _ := uow.controlEvents.Append(ControlEvent(Lit("fuse_released"), now, revision));
    out := Ok(state);
  }

  /******* ingestion.py *******/

  method IngestIssue(uow: Stores, ghost maps: Maps, c: IssueCandidate, granted: bool, revision: Option<Text>,
                     draws: IngestDraws)
      returns (out: Outcome<(Text, bool)>)
    requires uow.BoundTo(maps) && maps.Valid()
    modifies maps.All()
    ensures maps.Valid() && forall o | o in maps.All() :: o in old(maps.All()) || fresh(o)
    ensures Step(maps.View(), out) == Ingest(old(maps.View()), c, granted, revision, draws)
  {
    hide Maps.View, Maps.All, Maps.Valid, FileSource, TriggerUsed;
    WorkParts(maps);
    if !Given(revision) || !granted { return Err(UnsupportedGovernance); }
    if uow.fuse.Get().engaged { return Err(Validation); }
    var existing := uow.sourceIngestions.Get(c.sourceKey);
    if existing.Some? {
      if existing.value.canonicalRequest != c.Canonical() { return Err(IdempotencyConflict); }
      return Ok((existing.value.taskId, false));
    }
    if uow.sourceIngestions.HasTrigger(c.triggerEventId) { return Err(IdempotencyConflict); }
    out := IngestNew(uow, maps, c, revision, draws);
  }

  method NoteIngestion(uow: Stores, ghost maps: Maps, c: IssueCandidate, taskId: Text, currentId: Text, digest: Text,
                       stamp: Stamp)
      returns (out: Outcome<(Text, bool)>)
    requires uow.BoundTo(maps) && maps.Valid()
    modifies maps.All()
    ensures maps.Valid() && forall o | o in maps.All() :: o in old(maps.All()) || fresh(o)
    ensures Step(maps.View(), out) == NoteSource(old(maps.View()), c, taskId, currentId, digest, stamp)
  {
    hide Maps.View, Maps.All, Maps.Valid, EventAppend, SourceRecordOnce, SourceEvent, Stores.BoundTo;
    LinkedWork(uow, maps);
    LinkedSources(uow, maps);
    WorkParts(maps);
    DictsInAll(maps);
    var sequence := |uow.events.Read(taskId)|;
    var appended := uow.events.Append(SourceEvent(c, taskId, digest, stamp, sequence), sequence);
    if appended.Err? { return Err(appended.error); }
    DictsInAll(maps);
    var stored := uow.sourceIngestions.RecordOnce(
      IssueIngestionRecord(c.sourceKey, c.Canonical(), currentId, c.triggerEventId));
    out := if stored.Err? then Err(stored.error) else Ok((stored.value.0.taskId, stored.value.1));
  }

  method IngestNew(uow: Stores, ghost maps: Maps, c: IssueCandidate, revision: Option<Text>, draws: IngestDraws)
      returns (out: Outcome<(Text, bool)>)
    requires uow.BoundTo(maps) && maps.Valid()
    modifies maps.All()
    ensures maps.Valid() && forall o | o in maps.All() :: o in old(maps.All()) || fresh(o)
    ensures Step(maps.View(), out) == FileSource(old(maps.View()), c, revision, draws)
  {
    hide Maps.View, Maps.All, Maps.Valid, Start, Register, NoteSource, Stores.BoundTo;
    LinkedWork(uow, maps);
    LinkedSources(uow, maps);
    var started := StartTask(uow, maps, IngestRequest(c, revision), draws.received);
    if started.Err? { return Err(started.error); }
    var task := started.value;
    WorkParts(maps);
    var length := |uow.events.Read(task.taskId)|;
    var reference := RegisterBlob(uow, maps, task.taskId, draws.blob, ISSUE_ARTIFACT, task.version, length,
                                  draws.attached);
    if reference.Err? { return Err(reference.error); }
    WorkParts(maps);
    DictsInAll(maps);
    var current := uow.tasks.Get(task.taskId);
    if current.None? { return Err(TaskNotFound); }
    out := NoteIngestion(uow, maps, c, task.taskId, current.value.taskId, reference.value.digest, draws.ingested);
  }

  /******* runners.py, workers.py *******/

  method FileRunner(uow: Stores, ghost maps: Maps, r: RunnerSessionRequest, stamp: Stamp)
        returns (out: Outcome<RunnerSessionReceipt>)
    requires uow.BoundTo(maps) && maps.Valid()
    modifies maps.All()
    ensures maps.Valid() && forall o | o in maps.All() :: o in old(maps.All()) || fresh(o)
    ensures Step(maps.View(), out) == FileSession(old(maps.View()), r, stamp)
  {
    hide Maps.View, Maps.All, Maps.Valid, SessionRecordOnce, EventAppend, SessionEvent, Stores.BoundTo;
    LinkedWork(uow, maps);
    LinkedSources(uow, maps);
    DictsInAll(maps);
    out := uow.runnerSessions.RecordOnce(r);
    if out.Ok? && out.value.created {
      DictsInAll(maps);
      var appended := uow.events.Append(SessionEvent(r, stamp), r.expectedSequence);
      if appended.Err? { out := Err(appended.error); }
    }
  }

  method RequestRunner(uow: Stores, ghost maps: Maps, r: RunnerSessionRequest, stamp: Stamp)
        returns (out: Outcome<RunnerSessionReceipt>)
    requires uow.BoundTo(maps) && maps.Valid()
    modifies maps.All()
    ensures maps.Valid() && forall o | o in maps.All() :: o in old(maps.All()) || fresh(o)
    ensures Step(maps.View(), out) == RequestSession(old(maps.View()), r, stamp)
  {
    hide Maps.View, Maps.All, Maps.Valid, FileSession, Stores.BoundTo;
    LinkedWork(uow, maps);
    LinkedSources(uow, maps);
    DictsInAll(maps);
    WorkParts(maps);
    ApprovalParts(maps);
    var task := uow.tasks.Get(r.taskId);
    if task.None? { return Err(TaskNotFound); }
    var existing := uow.runnerSessions.Get(r.sessionId);
    if existing.Some? {
      if existing.value.request.Canonical() != r.Canonical() { return Err(IdempotencyConflict); }
      return Ok(RunnerSessionReceipt(r.sessionId, existing.value.state, false));
    }
    if uow.fuse.Get().engaged { return Err(Validation); }
    if task.value.risk.effective == R3 && r.role == IMPLEMENTER { return Err(Validation); }
    if task.value.version != r.expectedTaskVersion { return Err(OptimisticConflict); }
    if |uow.events.Read(r.taskId)| != r.expectedSequence { return Err(OptimisticConflict); }
    if exists a | a in r.inputArtifacts :: a !in task.value.artifacts { return Err(Validation); }
    out := FileRunner(uow, maps, r, stamp);
  }

  method RunSession(uow: Stores, ghost maps: Maps, sessionId: Text, answer: RunnerSessionOutcome)
        returns (out: Outcome<RunnerSessionOutcome>)
    requires uow.BoundTo(maps) && maps.Valid()
    modifies maps.All()
    ensures maps.Valid() && forall o | o in maps.All() :: o in old(maps.All()) || fresh(o)
    ensures Step(maps.View(), out) == RunWorker(old(maps.View()), sessionId, answer)
  {
    hide Maps.View, Maps.All, Maps.Valid, SessionSetOutcome;
    DictsInAll(maps);
    WorkParts(maps);
    ApprovalParts(maps);
    if uow.fuse.Get().engaged { return Err(Validation); }
    var record := uow.runnerSessions.Get(sessionId);
    if record.None? { return Err(TaskNotFound); }
    if record.value.outcome.Some? { return Ok(record.value.outcome.value); }
    if answer.sessionId != sessionId { return Err(Validation); }
    var stored := uow.runnerSessions.SetOutcome(answer);
    out := if stored.Err? then Err(stored.error) else Ok(answer);
  }

  method FileWorkerResult(uow: Stores, ghost maps: Maps, result: WorkerResult, blob: Blob, request: ArtifactRequest,
                          now: Time,
                          attached: Stamp, moved: Stamp) returns (out: Outcome<bool>)
    requires uow.BoundTo(maps) && maps.Valid()
    modifies maps.All()
    ensures maps.Valid() && forall o | o in maps.All() :: o in old(maps.All()) || fresh(o)
    ensures Step(maps.View(), out) == FileResult(old(maps.View()), result, blob, request, now, attached, moved)
  {
    hide Maps.View, Maps.All, Maps.Valid, Register, Transition, Queue.Complete, ResultRecordOnce, ResultEvent;
    var reference := RegisterBlob(uow, maps, result.taskId, blob, request, result.expectedTaskVersion,
                                  result.expectedSequence, attached);
    if reference.Err? { return Err(reference.error); }
    WorkParts(maps);
    var updated := uow.tasks.Get(result.taskId);
    if updated.None? { return Err(TaskNotFound); }
    var event := ResultEvent(result, reference.value, moved);
    var transitioned := TransitionTask(uow, maps, result.taskId, result.target, result.worker.role, event,
                                       updated.value.version,
                                       result.expectedSequence + 1, true, false);
    if transitioned.Err? { return Err(transitioned.error); }
    WorkParts(maps);
    DictsInAll(maps);
    var completed := uow.queue.Complete(result.taskId, result.worker.workerId, now);
    if completed.Err? { return Err(completed.error); }
    DictsInAll(maps);
    out := uow.workerResults.RecordOnce(result);
  }

  method PublishWorkerResult(uow: Stores, ghost maps: Maps, result: WorkerResult, blob: Blob, request: ArtifactRequest,
                             now: Time,
                             attached: Stamp, moved: Stamp) returns (out: Outcome<bool>)
    requires uow.BoundTo(maps) && maps.Valid()
    modifies maps.All()
    ensures maps.Valid() && forall o | o in maps.All() :: o in old(maps.All()) || fresh(o)
    ensures Step(maps.View(), out) == PublishResult(old(maps.View()), result, blob, request, now, attached, moved)
  {
    hide Maps.View, Maps.All, Maps.Valid, FileResult;
    WorkParts(maps);
    ApprovalParts(maps);
    var existing := uow.workerResults.Get(result.resultId);
    if existing.Some? {
      if existing.value.Canonical() != result.Canonical() { return Err(IdempotencyConflict); }
      return Ok(false);
    }
    var session := uow.runnerSessions.Get(result.sessionId);
    if session.None? || session.value.outcome.None? || session.value.outcome.value.state != SUCCEEDED {
      return Err(Validation);
    }
    if session.value.request.taskId != result.taskId || session.value.request.role != result.worker.role {
      return Err(Validation);
    }
    var task := uow.tasks.Get(result.taskId);
    if task.None? { return Err(TaskNotFound); }
    if task.value.version != result.expectedTaskVersion || |uow.events.Read(result.taskId)| != result.expectedSequence {
      return Err(Validation);
    }
    out := FileWorkerResult(uow, maps, result, blob, request, now, attached, moved);
  }

  method CancelTask(uow: Stores, ghost maps: Maps, taskId: Text, workerId: Text, now: Time, granted: bool,
                    revision: Option<Text>,
                    expectedSequence: nat, stamp: Stamp) returns (out: Outcome<()>)
    requires uow.BoundTo(maps) && maps.Valid()
    modifies maps.All()
    ensures maps.Valid() && forall o | o in maps.All() :: o in old(maps.All()) || fresh(o)
    ensures Step(maps.View(), out)
         == Cancel(old(maps.View()), taskId, workerId, now, granted, revision, expectedSequence, stamp)
  {
    hide Maps.View, Maps.All, Maps.Valid, Advance, Queue.Complete, CancelEvent;
    WorkParts(maps);
    if !Given(revision) || !granted { return Err(UnsupportedGovernance); }
    var task := uow.tasks.Get(taskId);
    if task.None? { return Err(TaskNotFound); }
    var blocked := task.value.Block();
    if blocked.Err? { return Err(blocked.error); }
    var advanced := AdvanceTask(uow, maps, blocked.value, task.value.version,
                                CancelEvent(taskId, stamp, expectedSequence), expectedSequence);
    if advanced.Err? { return Err(advanced.error); }
    WorkParts(maps);
    DictsInAll(maps);
    out := uow.queue.Complete(taskId, workerId, now);
  }
}

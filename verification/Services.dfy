// The task services: each call as a function of the working database and of what it
// draws from its surroundings. A call that raises leaves its partial writes in the
// working database; whether they are committed is the caller's business.

module Services {
  import opened Json
  import opened Domain
  import opened Records
  import opened Ledgers
  import opened Database
  import Queue

  // One draw from the id generator and one reading of the clock.
  datatype Stamp = Stamp(eventId: Text, at: Time)

  // What the blob store returned for the uploaded chunks.
  datatype Blob = Blob(digest: Text, size: nat)

  datatype ArtifactRequest =
    ArtifactRequest(logicalName: Text, mediaType: Text, classification: Text, sourceKind: Text, containsSecrets: bool)

  function Field1(key: string, value: Json): Json { Obj([Field(key, value)]) }

  function Raise<T>(db: Db, error: Error): Step<T> { Step(db, Err(error)) }

  function Sequence(db: Db, taskId: Text): nat { |History(db.events, taskId)| }

  /******* services.py *******/

  // The two writes every task change ends with: the task, then its event.
  function Advance(db: Db, task: Task, expectedVersion: nat, event: Event, expectedSequence: nat): Step<Task> {
    var u := db.UpdateTask(task, expectedVersion);
    if u.out.Err? then u
    else
      var a := u.db.AppendEvent(event, expectedSequence);
      if a.out.Err? then Raise(a.db, a.out.error) else Step(a.db, Ok(task))
  }

  // Without governance authority for the task's revision, the guarded targets block.
  function Target(task: Task, target: TaskStatus, actor: Role, granted: bool): Outcome<Task> {
    if target in {IMPLEMENTING, READY_TO_PUBLISH} && !(Given(task.risk.governanceRevision) && granted)
    then task.Block()
    else task.Transition(target, actor)
  }

  function Transition(db: Db, taskId: Text, target: TaskStatus, actor: Role, event: Event, expectedVersion: nat,
                      expectedSequence: nat, evidence: bool, granted: bool): Step<Task>
  {
    if taskId !in db.tasks then Raise(db, TaskNotFound)
    else if !evidence then Raise(db, Validation)
    else
      match Target(db.tasks[taskId], target, actor, granted)
      case Err(e) => Raise(db, e)
      case Ok(task) => Advance(db, task, expectedVersion, event, expectedSequence)
  }

  // An exhausted row fails its task.
  function FailTask(db: Db, task: Task, event: Event, expectedSequence: nat): Step<Task> {
    match task.Fail(SYSTEM)
    case Err(e) => Raise(db, e)
    case Ok(failed) => Advance(db, failed, task.version, event, expectedSequence)
  }

  function QueueFail(db: Db, taskId: Text, workerId: Text, now: Time, event: Event, expectedSequence: nat)
      : Step<Queue.FailureResult>
  {
    if taskId !in db.tasks then Raise(db, TaskNotFound)
    else
      var q := db.UseQueue(Queue.Fail(db.queue, taskId, workerId, now));
      if q.out.Err? then q
      else if q.out.value.terminal then
        var f := FailTask(q.db, db.tasks[taskId], event, expectedSequence);
        Step(f.db, if f.out.Err? then Err(f.out.error) else q.out)
      else
        var a := q.db.AppendEvent(event, expectedSequence);
        Step(a.db, if a.out.Err? then Err(a.out.error) else q.out)
  }

  type TerminalEvents = map<Text, (Event, nat)>

  // The loop over what the queue recovered.
  function SettleRecovered(db: Db, results: seq<Queue.FailureResult>, events: TerminalEvents): Step<()>
    decreases |results|
  {
    if results == [] then Step(db, Ok(()))
    else
      var id := results[0].taskId;
      if !results[0].terminal then SettleRecovered(db, results[1..], events)
      else if id !in db.tasks then Raise(db, TaskNotFound)
      else if id !in events then Raise(db, MissingKey)
      else
        var f := FailTask(db, db.tasks[id], events[id].0, events[id].1);
        if f.out.Err? then Raise(f.db, f.out.error) else SettleRecovered(f.db, results[1..], events)
  }

  function Recover(db: Db, now: Time, events: TerminalEvents): Step<seq<Queue.FailureResult>> {
    var results := Queue.RecoverResults(db.queue, now);
    var s := SettleRecovered(db.(queue := Queue.RecoverRows(db.queue, now)), results, events);
    Step(s.db, if s.out.Err? then Err(s.out.error) else Ok(results))
  }

  /******* artifacts.py *******/

  function ArtifactEvent(taskId: Text, reference: ArtifactRef, stamp: Stamp, expectedSequence: nat): Event {
    Event(stamp.eventId, taskId, ARTIFACT_REGISTERED, stamp.at, SYSTEM, Field1("artifact", ArtifactJson(reference)),
          None, taskId, expectedSequence + 1)
  }

  function Register(db: Db, taskId: Text, blob: Blob, request: ArtifactRequest, expectedVersion: nat,
                    expectedSequence: nat, stamp: Stamp): Step<ArtifactRef>
  {
    var reference := ArtifactRef(blob.digest, request.logicalName, request.mediaType);
    if request.containsSecrets then Raise(db, Validation)
    else if taskId !in db.tasks then Raise(db, TaskNotFound)
    else
      var task := db.tasks[taskId];
      var r := db.RegisterArtifact(CatalogedArtifact(reference, request.classification, request.sourceKind, blob.size));
      if r.out.Err? then Raise(r.db, r.out.error)
      else
        var updated := task.AttachArtifact(reference);
        var u := if updated != task then r.db.UpdateTask(updated, expectedVersion) else Step(r.db, Ok(task));
        if u.out.Err? then Raise(u.db, u.out.error)
        else
          var a := u.db.AppendEvent(ArtifactEvent(taskId, reference, stamp, expectedSequence), expectedSequence);
          if a.out.Err? then Raise(a.db, a.out.error) else Step(a.db, Ok(reference))
  }

  /******* controller.py *******/

  function IntakeTask(request: IntakeRequest, now: Time): Outcome<Task> {
    Task.Create(request.requestId, TaskSource(request.sourceKind, request.sourceReference),
                RepositoryTarget(request.repositoryName, request.repositoryRevision),
                RiskAssessment(request.proposedRisk, request.validatedRisk, request.effectiveRisk, None,
                               request.governanceRevision), now)
  }

  function ReceivedEvent(request: IntakeRequest, stamp: Stamp): Event {
    Event(stamp.eventId, request.requestId, TASK_RECEIVED, stamp.at, SYSTEM,
          Field1("request_id", Str(request.requestId)), None, request.requestId, 1)
  }

  // The writes of an intake whose request id is new.
  function FileIntake(db: Db, request: IntakeRequest, task: Task, stamp: Stamp): Step<Task> {
    var c := db.CreateTask(task);
    if c.out.Err? then c
    else
      var i := c.db.CreateIntake(IntakeRecord(request.requestId, request.Canonical(), task.taskId));
      if i.out.Err? then Raise(i.db, i.out.error)
      else
        var a := i.db.AppendEvent(ReceivedEvent(request, stamp), 0);
        if a.out.Err? then Raise(a.db, a.out.error)
        else if !request.enqueue then Step(a.db, Ok(task))
        else
          var q := a.db.UseQueue(Queue.Enqueue(a.db.queue, task.taskId, request.priority, stamp.at, request.requestId));
          Step(q.db, if q.out.Err? then Err(q.out.error) else Ok(task))
  }

  function Start(db: Db, request: IntakeRequest, stamp: Stamp): Step<Task> {
    if request.requestId == [] then Raise(db, Validation)
    else if db.fuse.engaged then Raise(db, Validation)
    else if request.requestId in db.intakes then
      var record := db.intakes[request.requestId];
      if record.canonicalRequest != request.Canonical() then Raise(db, CreateConflict)
      else if record.taskId !in db.tasks then Raise(db, TaskNotFound)
      else Step(db, Ok(db.tasks[record.taskId]))
    else
      match IntakeTask(request, stamp.at)
      case Err(e) => Raise(db, e)
      case Ok(task) => FileIntake(db, request, task, stamp)
  }

  function ClaimNext(db: Db, workerId: Text, now: Time, lease: int): Step<Option<Queue.Lease>> {
    if db.fuse.engaged then Raise(db, Validation) else db.UseQueue(Queue.Claim(db.queue, workerId, now, lease))
  }

  function Engage(db: Db, now: Time): Step<FuseState> {
    var s := db.SetFuse(FuseState(true, now, None));
    Step(s.db.AppendControl(ControlEvent(Lit("fuse_engaged"), now, None)).db, s.out)
  }

  function Release(db: Db, now: Time, granted: bool, revision: Option<Text>): Step<FuseState> {
    if !Given(revision) || !granted then Raise(db, UnsupportedGovernance)
    else
      var s := db.SetFuse(FuseState(false, now, revision));
      Step(s.db.AppendControl(ControlEvent(Lit("fuse_released"), now, revision)).db, s.out)
  }

  /******* ingestion.py *******/

  const ISSUE_ARTIFACT := ArtifactRequest(Lit("issue-task.json"), Lit("application/vnd.meta-loop.issue-task+json"),
                                          Lit("source_input"), Lit("github_issue"), false)

  function IngestRequest(c: IssueCandidate, revision: Option<Text>): IntakeRequest {
    IntakeRequest(c.sourceKey, Lit("github_issue"), c.sourceReference, BeforeHash(c.sourceReference), c.spec.revision,
                  c.spec.risk, c.spec.risk, c.spec.risk, revision, true, 0)
  }

  function SourceEvent(c: IssueCandidate, taskId: Text, digest: Text, stamp: Stamp, sequence: nat): Event {
    Event(stamp.eventId, taskId, SOURCE_INGESTED, stamp.at, SYSTEM,
          Obj([Field("source_key", Str(c.sourceKey)), Field("spec_digest", Str(digest)),
               Field("trigger_actor", Str(c.triggerActor)), Field("trigger_event_id", Str(c.triggerEventId)),
               Field("trigger_label", Str(c.triggerLabel))]),
          None, c.sourceKey, sequence + 1)
  }

  datatype IngestDraws = IngestDraws(received: Stamp, attached: Stamp, ingested: Stamp, blob: Blob)

  // The event and the record that end an ingestion.
  function NoteSource(db: Db, c: IssueCandidate, taskId: Text, currentId: Text, digest: Text, stamp: Stamp)
        : Step<(Text, bool)>
  {
    var n := Sequence(db, taskId);
    var a := db.AppendEvent(SourceEvent(c, taskId, digest, stamp, n), n);
    if a.out.Err? then Raise(a.db, a.out.error)
    else
      var o := a.db.RecordSource(IssueIngestionRecord(c.sourceKey, c.Canonical(), currentId, c.triggerEventId));
      Step(o.db, if o.out.Err? then Err(o.out.error) else Ok((o.out.value.0.taskId, o.out.value.1)))
  }

  // Everything after the checks for a known source and a used trigger.
  function FileSource(db: Db, c: IssueCandidate, revision: Option<Text>, draws: IngestDraws): Step<(Text, bool)> {
    var s := Start(db, IngestRequest(c, revision), draws.received);
    if s.out.Err? then Raise(s.db, s.out.error)
    else
      var task := s.out.value;
      var r := Register(s.db, task.taskId, draws.blob, ISSUE_ARTIFACT, task.version, Sequence(s.db, task.taskId),
                        draws.attached);
      if r.out.Err? then Raise(r.db, r.out.error)
      else if task.taskId !in r.db.tasks then Raise(r.db, TaskNotFound)
      else NoteSource(r.db, c, task.taskId, r.db.tasks[task.taskId].taskId, r.out.value.digest, draws.ingested)
  }

  // Returns the task id and whether this call created it.
  function Ingest(db: Db, c: IssueCandidate, granted: bool, revision: Option<Text>, draws: IngestDraws)
        : Step<(Text, bool)>
  {
    if !Given(revision) || !granted then Raise(db, UnsupportedGovernance)
    else if db.fuse.engaged then Raise(db, Validation)
    else if c.sourceKey in db.sources then
      if db.sources[c.sourceKey].canonicalRequest != c.Canonical() then Raise(db, IdempotencyConflict)
      else Step(db, Ok((db.sources[c.sourceKey].taskId, false)))
    else if TriggerUsed(db.sources, c.triggerEventId) then Raise(db, IdempotencyConflict)
    else FileSource(db, c, revision, draws)
  }

  /******* runners.py *******/

  function SessionEvent(r: RunnerSessionRequest, stamp: Stamp): Event {
    Event(stamp.eventId, r.taskId, RUNNER_SESSION_REQUESTED, stamp.at, SYSTEM,
          Obj([Field("input_artifacts", Arr(ArtifactList(r.inputArtifacts))), Field("role", Str(RoleName(r.role))),
               Field("session_id", Str(r.sessionId))]),
          None, r.correlationId, r.expectedSequence + 1)
  }

  // The session record and, when it is new, its event.
  function FileSession(db: Db, r: RunnerSessionRequest, stamp: Stamp): Step<RunnerSessionReceipt> {
    var s := db.RecordSession(r);
    if s.out.Err? || !s.out.value.created then s
    else
      var a := s.db.AppendEvent(SessionEvent(r, stamp), r.expectedSequence);
      Step(a.db, if a.out.Err? then Err(a.out.error) else s.out)
  }

  function RequestSession(db: Db, r: RunnerSessionRequest, stamp: Stamp): Step<RunnerSessionReceipt> {
    if r.taskId !in db.tasks then Raise(db, TaskNotFound)
    else if r.sessionId in db.sessions then
      if db.sessions[r.sessionId].request.Canonical() != r.Canonical() then Raise(db, IdempotencyConflict)
      else Step(db, Ok(RunnerSessionReceipt(r.sessionId, db.sessions[r.sessionId].state, false)))
    else if db.fuse.engaged then Raise(db, Validation)
    else
      var task := db.tasks[r.taskId];
      if task.risk.effective == R3 && r.role == IMPLEMENTER then Raise(db, Validation)
      else if task.version != r.expectedTaskVersion then Raise(db, OptimisticConflict)
      else if Sequence(db, r.taskId) != r.expectedSequence then Raise(db, OptimisticConflict)
      else if exists a | a in r.inputArtifacts :: a !in task.artifacts then Raise(db, Validation)
      else FileSession(db, r, stamp)
  }

  /******* workers.py *******/

  // The runner's answer is an input.
  function RunWorker(db: Db, sessionId: Text, answer: RunnerSessionOutcome): Step<RunnerSessionOutcome> {
    if db.fuse.engaged then Raise(db, Validation)
    else if sessionId !in db.sessions then Raise(db, TaskNotFound)
    else if db.sessions[sessionId].outcome.Some? then Step(db, Ok(db.sessions[sessionId].outcome.value))
    else if answer.sessionId != sessionId then Raise(db, Validation)
    else
      var s := db.SetOutcome(answer);
      Step(s.db, if s.out.Err? then Err(s.out.error) else Ok(answer))
  }

  function ResultEvent(result: WorkerResult, reference: ArtifactRef, stamp: Stamp): Event {
    Event(stamp.eventId, result.taskId, TASK_TRANSITIONED, stamp.at, result.worker.role,
          Obj([Field("artifact", ArtifactJson(reference)), Field("result_id", Str(result.resultId)),
               Field("summary", Str(result.summary))]),
          Some(result.sessionId), result.sessionId, result.expectedSequence + 2)
  }

  predicate SessionSupports(db: Db, result: WorkerResult) {
    && result.sessionId in db.sessions
    && db.sessions[result.sessionId].outcome.Some?
    && db.sessions[result.sessionId].outcome.value.state == SUCCEEDED
    && db.sessions[result.sessionId].request.taskId == result.taskId
    && db.sessions[result.sessionId].request.role == result.worker.role
  }

  predicate Fresh(db: Db, taskId: Text, version: nat, sequence: nat) {
    taskId in db.tasks && db.tasks[taskId].version == version && Sequence(db, taskId) == sequence
  }

  // The writes of a result that passed every check: artifact, transition, queue row, result.
  function FileResult(db: Db, result: WorkerResult, blob: Blob, request: ArtifactRequest, now: Time,
                      attached: Stamp, moved: Stamp): Step<bool>
  {
    var r := Register(db, result.taskId, blob, request, result.expectedTaskVersion, result.expectedSequence, attached);
    if r.out.Err? then Raise(r.db, r.out.error)
    else if result.taskId !in r.db.tasks then Raise(r.db, TaskNotFound)
    else
      var t := Transition(r.db, result.taskId, result.target, result.worker.role,
                          ResultEvent(result, r.out.value, moved),
                          r.db.tasks[result.taskId].version, result.expectedSequence + 1, true, false);
      if t.out.Err? then Raise(t.db, t.out.error)
      else
        var q := t.db.UseQueue(Queue.Complete(t.db.queue, result.taskId, result.worker.workerId, now));
        if q.out.Err? then Raise(q.db, q.out.error) else q.db.RecordResult(result)
  }

  function PublishResult(db: Db, result: WorkerResult, blob: Blob, request: ArtifactRequest, now: Time,
                         attached: Stamp, moved: Stamp): Step<bool>
  {
    if result.resultId in db.results then
      if db.results[result.resultId].Canonical() != result.Canonical() then Raise(db, IdempotencyConflict)
      else Step(db, Ok(false))
    else if !SessionSupports(db, result) then Raise(db, Validation)
    else if result.taskId !in db.tasks then Raise(db, TaskNotFound)
    else if !Fresh(db, result.taskId, result.expectedTaskVersion, result.expectedSequence) then Raise(db, Validation)
    else FileResult(db, result, blob, request, now, attached, moved)
  }

  function CancelEvent(taskId: Text, stamp: Stamp, expectedSequence: nat): Event {
    Event(stamp.eventId, taskId, TASK_BLOCKED, stamp.at, SYSTEM, Field1("reason", Str(Lit("cancel_execution"))),
          None, taskId, expectedSequence + 1)
  }

  function Cancel(db: Db, taskId: Text, workerId: Text, now: Time, granted: bool, revision: Option<Text>,
                  expectedSequence: nat, stamp: Stamp): Step<()>
  {
    if !Given(revision) || !granted then Raise(db, UnsupportedGovernance)
    else if taskId !in db.tasks then Raise(db, TaskNotFound)
    else
      match db.tasks[taskId].Block()
      case Err(e) => Raise(db, e)
      case Ok(blocked) =>
        var b := Advance(db, blocked, db.tasks[taskId].version, CancelEvent(taskId, stamp, expectedSequence),
                         expectedSequence);
        if b.out.Err? then Raise(b.db, b.out.error)
        else b.db.UseQueue(Queue.Complete(b.db.queue, taskId, workerId, now))
  }

  /******* workspaces.py *******/

  // The answer of the policy: read-only or writable.
  function Policy(task: Task, r: WorkspaceRequest, granted: bool): Outcome<bool> {
    if task.risk.effective == R3 then
      if r.role == IMPLEMENTER || r.purpose != PROPOSAL then Err(Validation) else Ok(true)
    else if r.role == IMPLEMENTER then
      if r.purpose != IMPLEMENTATION || task.status != Domain.IMPLEMENTING then Err(Validation)
      else if !Given(r.governanceRevision) || !granted then Err(UnsupportedGovernance)
      else Ok(false)
    else if r.role == PLANNER && r.purpose == PLANNING then Ok(true)
    else if r.role in {DESIGN_REVIEWER, PATCH_REVIEWER} && r.purpose == REVIEW then Ok(true)
    else Err(Validation)
  }

  function AllocatedEvent(r: WorkspaceRequest, stamp: Stamp): Event {
    Event(stamp.eventId, r.taskId, WORKSPACE_ALLOCATED, stamp.at, SYSTEM,
          Obj([Field("purpose", Str(PurposeName(r.purpose))), Field("role", Str(RoleName(r.role))),
               Field("source_revision", Str(r.sourceRevision)), Field("workspace_id", Str(r.allocationId))]),
          None, r.correlationId, r.expectedSequence + 1)
  }

  function ReleasedEvent(w: WorkspaceRecord, stamp: Stamp, sequence: nat): Event {
    Event(stamp.eventId, w.request.taskId, WORKSPACE_RELEASED, stamp.at, SYSTEM,
          Field1("workspace_id", Str(w.request.allocationId)), None, w.request.correlationId, sequence + 1)
  }

  datatype WorkspaceReceipt = WorkspaceReceipt(workspaceId: Text, state: WorkspaceState, created: bool)

  // The manager keeps its own records, outside the unit of work.
  type Manager = Workspaces

  function ManagerAllocate(m: Manager, r: WorkspaceRequest, repositoryName: Text, readOnly: bool)
        : Put<Manager, WorkspaceRecord>
  {
    if r.allocationId in m then
      if m[r.allocationId].request.Canonical() != r.Canonical() then Put(m, Err(IdempotencyConflict))
      else Put(m, Ok(m[r.allocationId]))
    else
      var record := WorkspaceRecord(r, readOnly, repositoryName, ACTIVE);
      Put(m[r.allocationId := record], Ok(record))
  }

  // Whether the manager released anything.
  function ManagerRelease(m: Manager, record: WorkspaceRecord): (Manager, bool) {
    var id := record.request.allocationId;
    if id !in m || m[id].state == RELEASED then (m, false) else (m[id := m[id].(state := RELEASED)], true)
  }

  // The guarded block of an allocation: the ledger record and its event.
  function FileWorkspace(db: Db, record: WorkspaceRecord, r: WorkspaceRequest, stamp: Stamp): Step<WorkspaceReceipt> {
    var w := db.RecordWorkspace(record);
    if w.out.Err? then Raise(w.db, w.out.error)
    else
      var receipt := WorkspaceReceipt(w.out.value.0.request.allocationId, w.out.value.0.state, w.out.value.1);
      if !w.out.value.1 then Step(w.db, Ok(receipt))
      else
        var a := w.db.AppendEvent(AllocatedEvent(r, stamp), r.expectedSequence);
        Step(a.db, if a.out.Err? then Err(a.out.error) else Ok(receipt))
  }

  function Allocate(db: Db, m: Manager, r: WorkspaceRequest, granted: bool, stamp: Stamp)
        : (Step<WorkspaceReceipt>, Manager)
  {
    if r.allocationId in db.workspaces then
      var existing := db.workspaces[r.allocationId];
      if existing.request.Canonical() != r.Canonical() then (Raise(db, IdempotencyConflict), m)
      else (Step(db, Ok(WorkspaceReceipt(existing.request.allocationId, existing.state, false))), m)
    else if db.fuse.engaged then (Raise(db, Validation), m)
    else if r.taskId !in db.tasks then (Raise(db, TaskNotFound), m)
    else if !Fresh(db, r.taskId, r.expectedTaskVersion, r.expectedSequence) then (Raise(db, OptimisticConflict), m)
    else
      match Policy(db.tasks[r.taskId], r, granted)
      case Err(e) => (Raise(db, e), m)
      case Ok(readOnly) =>
        var p := ManagerAllocate(m, r, db.tasks[r.taskId].repository.name, readOnly);
        if p.out.Err? then (Raise(db, p.out.error), p.m)
        else
          var f := FileWorkspace(db, p.out.value, r, stamp);
          (f, if f.out.Err? then ManagerRelease(p.m, p.out.value).0 else p.m)
  }

  function ReleaseAllocation(db: Db, m: Manager, allocationId: Text, stamp: Stamp): (Step<bool>, Manager) {
    if allocationId !in db.workspaces || db.workspaces[allocationId].state == RELEASED then (Step(db, Ok(false)), m)
    else
      var p := ManagerRelease(m, db.workspaces[allocationId]);
      if !p.1 then (Step(db, Ok(false)), p.0)
      else
        var w := db.ReleaseWorkspace(allocationId);
        if w.out.Err? then (Raise(w.db, w.out.error), p.0)
        else
          var n := Sequence(w.db, w.out.value.request.taskId);
          var a := w.db.AppendEvent(ReleasedEvent(w.out.value, stamp, n), n);
          (Step(a.db, if a.out.Err? then Err(a.out.error) else Ok(true)), p.0)
  }
}

// The keyed ledgers: what each store operation does to the dictionary it is bound to,
// given the other dictionaries it reads. A rejected operation raises and, apart from
// EventAppend, writes nothing.

module Ledgers {
  import opened Json
  import opened Domain
  import opened Records
  import Queue

  datatype ObservationKey = ObservationKey(publicationId: Text, headSha: Text, checkName: Text, observedAt: Time)

  type Tasks = map<Text, Task>
  type Events = map<Text, seq<Event>>
  type EventIds = map<Text, Event>
  type Intakes = map<Text, IntakeRecord>
  type Sources = map<Text, IssueIngestionRecord>
  type Artifacts = map<Text, CatalogedArtifact>
  type Sessions = map<Text, RunnerSessionRecord>
  type Results = map<Text, WorkerResult>
  type Workspaces = map<Text, WorkspaceRecord>
  type Publications = map<Text, PublicationRecord>
  type Approvals = map<Text, PublicationReviewDecision>
  type Effects = map<Text, PublicationEffectRecord>
  type Observations = map<ObservationKey, CheckRunObservation>

  // The written dictionary and what the call returned or raised.
  datatype Put<+M, +T> = Put(m: M, out: Outcome<T>)

  /******* Tasks *******/

  function TaskCreate(m: Tasks, task: Task): Put<Tasks, Task> {
    if task.version != 0 then Put(m, Err(OptimisticConflict))
    else if task.taskId in m then Put(m, Err(CreateConflict))
    else Put(m[task.taskId := task], Ok(task))
  }

  function TaskUpdate(m: Tasks, task: Task, expectedVersion: nat): Put<Tasks, Task> {
    if task.taskId !in m || m[task.taskId].version != expectedVersion || task.version != expectedVersion + 1
    then Put(m, Err(OptimisticConflict))
    else Put(m[task.taskId := task], Ok(task))
  }

  /******* Events *******/

  datatype EventStore = EventStore(events: Events, ids: EventIds)

  function History(events: Events, taskId: Text): seq<Event> {
    if taskId in events then events[taskId] else []
  }

  // A rejected append still leaves an empty history behind for a new task id.
  function EventAppend(s: EventStore, event: Event, expectedSequence: nat): Put<EventStore, Event> {
    if event.eventId in s.ids then
      if s.ids[event.eventId] == event then Put(s, Ok(event)) else Put(s, Err(IdempotencyConflict))
    else
      var history := History(s.events, event.taskId);
      if |history| != expectedSequence || event.sequence != expectedSequence + 1
      then Put(EventStore(s.events[event.taskId := history], s.ids), Err(SequenceConflict))
      else Put(EventStore(s.events[event.taskId := history + [event]], s.ids[event.eventId := event]), Ok(event))
  }

  /******* Intake and sources *******/

  function IntakeCreate(m: Intakes, record: IntakeRecord): Put<Intakes, IntakeRecord> {
    if record.requestId in m then
      if m[record.requestId] == record then Put(m, Ok(record)) else Put(m, Err(IdempotencyConflict))
    else Put(m[record.requestId := record], Ok(record))
  }

  predicate TriggerUsed(m: Sources, trigger: Text) {
    exists k | k in m :: m[k].triggerEventId == trigger
  }

  function SourceRecordOnce(m: Sources, record: IssueIngestionRecord): Put<Sources, (IssueIngestionRecord, bool)> {
    if record.sourceKey in m then
      if m[record.sourceKey] != record then Put(m, Err(IdempotencyConflict)) else Put(m, Ok((record, false)))
    else if TriggerUsed(m, record.triggerEventId) then Put(m, Err(IdempotencyConflict))
    else Put(m[record.sourceKey := record], Ok((record, true)))
  }

  /******* Artifacts, sessions, results *******/

  function ArtifactRegister(m: Artifacts, artifact: CatalogedArtifact): Put<Artifacts, CatalogedArtifact> {
    var digest := artifact.reference.digest;
    if digest in m && m[digest] != artifact then Put(m, Err(IdempotencyConflict))
    else Put(m[digest := artifact], Ok(artifact))
  }

  function SessionRecordOnce(m: Sessions, request: RunnerSessionRequest): Put<Sessions, RunnerSessionReceipt> {
    if request.sessionId in m then
      if m[request.sessionId].request.Canonical() != request.Canonical() then Put(m, Err(IdempotencyConflict))
      else Put(m, Ok(RunnerSessionReceipt(request.sessionId, m[request.sessionId].state, false)))
    else
      Put(m[request.sessionId := RunnerSessionRecord(request, REQUESTED, None)],
          Ok(RunnerSessionReceipt(request.sessionId, REQUESTED, true)))
  }

  function SessionSetOutcome(m: Sessions, outcome: RunnerSessionOutcome): Put<Sessions, RunnerSessionRecord> {
    if outcome.sessionId !in m then Put(m, Err(Validation))
    else
      var current := m[outcome.sessionId];
      if current.outcome.Some? then
        if current.outcome.value == outcome then Put(m, Ok(current)) else Put(m, Err(IdempotencyConflict))
      else
        var updated := current.(state := outcome.state, outcome := Some(outcome));
        Put(m[outcome.sessionId := updated], Ok(updated))
  }

  // Returns the receipt's created flag.
  function ResultRecordOnce(m: Results, result: WorkerResult): Put<Results, bool> {
    if result.resultId in m then
      if m[result.resultId].Canonical() != result.Canonical() then Put(m, Err(IdempotencyConflict))
      else Put(m, Ok(false))
    else Put(m[result.resultId := result], Ok(true))
  }

  /******* Workspaces *******/

  predicate PurposeTaken(m: Workspaces, taskId: Text, purpose: WorkspacePurpose) {
    exists k | k in m :: m[k].state == ACTIVE && m[k].request.taskId == taskId && m[k].request.purpose == purpose
  }

  function WorkspaceRecordOnce(m: Workspaces, record: WorkspaceRecord): Put<Workspaces, (WorkspaceRecord, bool)> {
    var id := record.request.allocationId;
    if id in m then
      if m[id].request.Canonical() != record.request.Canonical() then Put(m, Err(IdempotencyConflict))
      else Put(m, Ok((m[id], false)))
    else if PurposeTaken(m, record.request.taskId, record.request.purpose) then Put(m, Err(IdempotencyConflict))
    else Put(m[id := record], Ok((record, true)))
  }

  function WorkspaceRelease(m: Workspaces, allocationId: Text): Put<Workspaces, WorkspaceRecord> {
    if allocationId !in m then Put(m, Err(Validation))
    else if m[allocationId].state == RELEASED then Put(m, Ok(m[allocationId]))
    else
      var released := m[allocationId].(state := RELEASED);
      Put(m[allocationId := released], Ok(released))
  }

  /******* Publications *******/

  const TEXT_DIFF: Text := Lit("text/x-diff")

  function OwnedBy(resultId: Text): Text { Lit("worker_result:") + resultId }

  predicate SessionMatches(sessions: Sessions, sessionId: Text, taskId: Text, role: Role) {
    && sessionId in sessions
    && sessions[sessionId].request.taskId == taskId
    && sessions[sessionId].request.role == role
    && sessions[sessionId].state == SUCCEEDED
  }

  predicate ReferencesValid(tasks: Tasks, events: Events, artifacts: Artifacts, results: Results,
                            sessions: Sessions, intent: PublicationIntent) {
    && intent.taskId in tasks
    && tasks[intent.taskId].repository.name == intent.repositoryName
    && tasks[intent.taskId].status == READY_TO_PUBLISH
    && tasks[intent.taskId].version == intent.expectedTaskVersion
    && |History(events, intent.taskId)| == intent.expectedSequence
    && intent.patchDigest in artifacts
    && artifacts[intent.patchDigest].reference in tasks[intent.taskId].artifacts
    && artifacts[intent.patchDigest].reference.mediaType == TEXT_DIFF
    && artifacts[intent.patchDigest].sourceKind == OwnedBy(intent.workerResultId)
    && intent.workerResultId in results
    && results[intent.workerResultId].taskId == intent.taskId
    && results[intent.workerResultId].worker.role == IMPLEMENTER
    && SessionMatches(sessions, results[intent.workerResultId].sessionId, intent.taskId, IMPLEMENTER)
  }

  function PublicationReserve(m: Publications, tasks: Tasks, events: Events, artifacts: Artifacts, results: Results,
                              sessions: Sessions, intent: PublicationIntent)
        : Put<Publications, (PublicationRecord, bool)>
  {
    if intent.publicationId in m then
      if m[intent.publicationId].intent.Canonical() != intent.Canonical() then Put(m, Err(IdempotencyConflict))
      else Put(m, Ok((m[intent.publicationId], false)))
    else if !ReferencesValid(tasks, events, artifacts, results, sessions, intent) then Put(m, Err(Validation))
    else
      var record := PublicationRecord(intent, RESERVED, 0, None, None);
      Put(m[intent.publicationId := record], Ok((record, true)))
  }

  function RecordPrepared(m: Publications, prepared: PreparedHead, expectedVersion: nat)
        : Put<Publications, PublicationRecord>
  {
    if prepared.publicationId !in m then Put(m, Err(OptimisticConflict))
    else
      var current := m[prepared.publicationId];
      if current.version != expectedVersion || current.state != RESERVED then Put(m, Err(OptimisticConflict))
      else if current.intent.patchDigest != prepared.patchDigest || current.intent.baseSha != prepared.baseSha
      then Put(m, Err(IdempotencyConflict))
      else
        var updated := PublicationRecord(current.intent, PREPARED, current.version + 1, Some(prepared), None);
        if !updated.Accepted() then Put(m, Err(Validation))
        else Put(m[prepared.publicationId := updated], Ok(updated))
  }

  // VERIFIED is entered for a failed verification as well.
  function RecordVerification(m: Publications, v: VerificationResult, expectedVersion: nat)
        : Put<Publications, PublicationRecord>
  {
    if v.publicationId !in m then Put(m, Err(OptimisticConflict))
    else
      var current := m[v.publicationId];
      if current.version != expectedVersion || current.state != PREPARED || current.preparedHead.None?
      then Put(m, Err(OptimisticConflict))
      else if current.preparedHead.value.headSha != v.headSha then Put(m, Err(IdempotencyConflict))
      else
        var updated := PublicationRecord(current.intent, VERIFIED, current.version + 1, current.preparedHead, Some(v));
        if !updated.Accepted() then Put(m, Err(Validation))
        else Put(m[v.publicationId := updated], Ok(updated))
  }

  /******* Approvals *******/

  // The publication's verification succeeded.
  predicate Passed(p: PublicationRecord) {
    p.preparedHead.Some? && p.verification.Some? && p.verification.value.status == VERIFY_SUCCEEDED
  }

  predicate ApprovalReferences(publications: Publications, artifacts: Artifacts, sessions: Sessions,
                               results: Results, d: PublicationReviewDecision) {
    && d.publicationId in publications
    && publications[d.publicationId].state == VERIFIED
    && Passed(publications[d.publicationId])
    && d.approvalArtifact.digest in artifacts
    && d.sessionId in sessions
    && d.resultId in results
  }

  // The decision names exactly the publication's task, patch, base, tree and head.
  predicate ExactHead(p: PublicationRecord, d: PublicationReviewDecision)
    requires p.preparedHead.Some?
  {
    && p.intent.taskId == d.taskId && p.intent.patchDigest == d.patchDigest
    && p.preparedHead.value.baseSha == d.baseSha && p.preparedHead.value.treeSha == d.treeSha
    && p.preparedHead.value.headSha == d.headSha
  }

  predicate ReviewerMatches(sessions: Sessions, results: Results, d: PublicationReviewDecision)
    requires d.resultId in results
  {
    && SessionMatches(sessions, d.sessionId, d.taskId, PATCH_REVIEWER)
    && results[d.resultId].taskId == d.taskId
    && results[d.resultId].sessionId == d.sessionId
    && results[d.resultId].worker == WorkerIdentity(d.reviewerId, PATCH_REVIEWER)
  }

  function ApprovalAppend(m: Approvals, publications: Publications, artifacts: Artifacts, sessions: Sessions,
                          results: Results, d: PublicationReviewDecision)
        : Put<Approvals, (PublicationReviewDecision, bool)>
  {
    if d.approvalId in m then
      if m[d.approvalId].Canonical() != d.Canonical() then Put(m, Err(IdempotencyConflict))
      else Put(m, Ok((m[d.approvalId], false)))
    else if !ApprovalReferences(publications, artifacts, sessions, results, d) then Put(m, Err(Validation))
    else if !ExactHead(publications[d.publicationId], d) then Put(m, Err(IdempotencyConflict))
    else if !ReviewerMatches(sessions, results, d) then Put(m, Err(IdempotencyConflict))
    else Put(m[d.approvalId := d], Ok((d, true)))
  }

  /******* Effects *******/

  // The two-field match, plus the decision, that a new effect asks of the approvals.
  predicate HasApproval(approvals: Approvals, publicationId: Text, headSha: Text) {
    exists k | k in approvals ::
      && approvals[k].publicationId == publicationId
      && approvals[k].headSha == headSha
      && approvals[k].decision == APPROVED
  }

  predicate RefTaken(m: Effects, publicationId: Text, ref: Text) {
    exists k | k in m :: m[k].intent.publicationId == publicationId && m[k].intent.deterministicRef == ref
  }

  predicate EffectAllowed(publications: Publications, approvals: Approvals, intent: PublicationEffectIntent) {
    && intent.publicationId in publications
    && Passed(publications[intent.publicationId])
    && publications[intent.publicationId].preparedHead.value.headSha == intent.headSha
    && publications[intent.publicationId].preparedHead.value.deterministicRef == intent.deterministicRef
    && HasApproval(approvals, intent.publicationId, intent.headSha)
  }

  function EffectRequest(m: Effects, publications: Publications, approvals: Approvals,
                         intent: PublicationEffectIntent): Put<Effects, (PublicationEffectRecord, bool)> {
    if intent.effectId in m then
      if m[intent.effectId].intent.Canonical() != intent.Canonical() then Put(m, Err(IdempotencyConflict))
      else Put(m, Ok((m[intent.effectId], false)))
    else if !EffectAllowed(publications, approvals, intent) then Put(m, Err(IdempotencyConflict))
    else if RefTaken(m, intent.publicationId, intent.deterministicRef) then Put(m, Err(IdempotencyConflict))
    else
      var record := PublicationEffectRecord(intent, None);
      Put(m[intent.effectId := record], Ok((record, true)))
  }

  // The receipt's pull request shows the publication's base, tree and head.
  predicate PullMatches(p: PublicationRecord, pull: PullRequestReceipt)
    requires p.preparedHead.Some?
  {
    && pull.baseSha == p.intent.baseSha
    && pull.treeSha == p.preparedHead.value.treeSha
    && pull.headSha == p.preparedHead.value.headSha
  }

  function EffectReconcile(m: Effects, publications: Publications, receipt: PublicationReceipt)
        : Put<Effects, PublicationEffectRecord>
  {
    if receipt.effectId !in m || m[receipt.effectId].intent.publicationId != receipt.publicationId
    then Put(m, Err(Validation))
    else if receipt.state != RECONCILED then Put(m, Err(IdempotencyConflict))
    else if receipt.publicationId !in publications
            || publications[receipt.publicationId].preparedHead.None?
            || receipt.pullRequest.None?
    then Put(m, Err(IdempotencyConflict))
    else if !PullMatches(publications[receipt.publicationId], receipt.pullRequest.value)
    then Put(m, Err(IdempotencyConflict))
    else
      var current := m[receipt.effectId];
      if current.receipt.Some? then
        if current.receipt.value.Canonical() != receipt.Canonical()
        then Put(m, Err(IdempotencyConflict)) else Put(m, Ok(current))
      else
        var updated := PublicationEffectRecord(current.intent, Some(receipt));
        if !updated.Accepted() then Put(m, Err(Validation))
        else Put(m[receipt.effectId := updated], Ok(updated))
  }

  /******* Check observations *******/

  function KeyOf(o: CheckRunObservation): ObservationKey {
    ObservationKey(o.publicationId, o.headSha, o.checkName, o.observedAt)
  }

  predicate HeadIs(publications: Publications, publicationId: Text, headSha: Text) {
    && publicationId in publications
    && publications[publicationId].preparedHead.Some?
    && publications[publicationId].preparedHead.value.headSha == headSha
  }

  function ObservationAppend(m: Observations, publications: Publications, o: CheckRunObservation)
      : Put<Observations, (CheckRunObservation, bool)> {
    if KeyOf(o) in m then
      if m[KeyOf(o)].Canonical() != o.Canonical() then Put(m, Err(IdempotencyConflict))
      else Put(m, Ok((m[KeyOf(o)], false)))
    else if !HeadIs(publications, o.publicationId, o.headSha) then Put(m, Err(IdempotencyConflict))
    else Put(m[KeyOf(o) := o], Ok((o, true)))
  }
}

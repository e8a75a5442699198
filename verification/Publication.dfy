// The publication services: prepare, verify, approve, the two transactions of publish,
// and the check gate's database part.

module Publication {
  import opened Json
  import opened Domain
  import opened Records
  import opened Ledgers
  import opened Database
  import opened Services

  // The implementer result and the catalogued diff the intent names.
  predicate SourcesEligible(db: Db, task: Task, intent: PublicationIntent) {
    && intent.workerResultId in db.results
    && db.results[intent.workerResultId].taskId == intent.taskId
    && db.results[intent.workerResultId].worker.role == IMPLEMENTER
    && db.results[intent.workerResultId].target == READY_TO_PUBLISH
    && SessionMatches(db.sessions, db.results[intent.workerResultId].sessionId, intent.taskId, IMPLEMENTER)
    && intent.patchDigest in db.artifacts
    && db.artifacts[intent.patchDigest].reference in task.artifacts
    && db.artifacts[intent.patchDigest].reference.digest == intent.patchDigest
    && db.artifacts[intent.patchDigest].reference.mediaType == TEXT_DIFF
    && db.artifacts[intent.patchDigest].sourceKind == OwnedBy(intent.workerResultId)
  }

  predicate TaskReady(task: Task, intent: PublicationIntent) {
    && task.status == READY_TO_PUBLISH
    && task.risk.effective != R3
    && task.repository.name == intent.repositoryName
    && task.repository.revision == intent.baseSha
  }

  function PreparePreconditions(db: Db, intent: PublicationIntent, granted: bool): Outcome<()> {
    if db.fuse.engaged then Err(Validation)
    else if intent.taskId !in db.tasks then Err(TaskNotFound)
    else
      var task := db.tasks[intent.taskId];
      if !TaskReady(task, intent) || task.risk.governanceRevision.None? then Err(Validation)
      else if task.version != intent.expectedTaskVersion || Sequence(db, intent.taskId) != intent.expectedSequence
      then Err(Validation)
      else if !granted then Err(UnsupportedGovernance)
      else if !SourcesEligible(db, task, intent) then Err(Validation)
      else Ok(())
  }

  // The candidate is about exactly this intent, on its own branch.
  predicate CandidateMatches(prepared: PreparedHead, intent: PublicationIntent) {
    && prepared.publicationId == intent.publicationId
    && prepared.patchDigest == intent.patchDigest
    && prepared.baseSha == intent.baseSha
    && prepared.deterministicRef == PublicationRef(intent.publicationId)
  }

  // The blob store and the preparer are inputs: whether the stored patch has its
  // digest, and the candidate built from it.
  function PreparePublication(db: Db, intent: PublicationIntent, granted: bool, patchIntact: bool,
                              prepared: PreparedHead): Step<PreparedHead>
  {
    var pre := PreparePreconditions(db, intent, granted);
    if pre.Err? then Raise(db, pre.error)
    else if !patchIntact then Raise(db, Validation)
    else if !CandidateMatches(prepared, intent) then Raise(db, IdempotencyConflict)
    else
      var r := db.Reserve(intent);
      if r.out.Err? then Raise(r.db, r.out.error)
      else
        var record := r.out.value.0;
        if record.preparedHead.Some? then
          if record.preparedHead.value != prepared then Raise(r.db, IdempotencyConflict)
          else Step(r.db, Ok(record.preparedHead.value))
        else if record.state != RESERVED then Raise(r.db, IdempotencyConflict)
        else
          var p := r.db.Prepare(prepared, record.version);
          Step(p.db, if p.out.Err? then Err(p.out.error) else Ok(prepared))
  }

  // The command line records the verifier's answer against the version it reads, in the
  // transaction that prepared the head.
  function PrepareAndVerify(db: Db, intent: PublicationIntent, granted: bool, patchIntact: bool,
                            prepared: PreparedHead, verification: VerificationResult): Step<PreparedHead>
  {
    var p := PreparePublication(db, intent, granted, patchIntact, prepared);
    if p.out.Err? then p
    else if intent.publicationId !in p.db.publications then Raise(p.db, Validation)
    else
      var v := p.db.Verify(verification, p.db.publications[intent.publicationId].version);
      Step(v.db, if v.out.Err? then Err(v.out.error) else p.out)
  }

  predicate SuccessfullyVerified(p: PublicationRecord) {
    && p.state == VERIFIED
    && Passed(p)
    && p.verification.value.resultCode == CODE_PASSED
    && p.verification.value.headSha == p.preparedHead.value.headSha
  }

  /******* PublicationApprovalService *******/

  predicate ReviewerEligible(db: Db, intent: PublicationIntent, resultId: Text) {
    && resultId in db.results
    && db.results[resultId].taskId == intent.taskId
    && db.results[resultId].worker.role == PATCH_REVIEWER
    && db.results[resultId].target == READY_TO_PUBLISH
    && SessionMatches(db.sessions, db.results[resultId].sessionId, intent.taskId, PATCH_REVIEWER)
    && db.results[resultId].sessionId == db.sessions[db.results[resultId].sessionId].request.sessionId
    && intent.patchDigest in db.artifacts
    && db.artifacts[intent.patchDigest].reference in db.sessions[db.results[resultId].sessionId].request.inputArtifacts
  }

  function Decision(publicationId: Text, record: PublicationRecord, approvalId: Text, result: WorkerResult,
                    artifact: ArtifactRef, at: Time): PublicationReviewDecision
    requires record.preparedHead.Some?
  {
    var h := record.preparedHead.value;
    PublicationReviewDecision(approvalId, publicationId, record.intent.taskId, result.sessionId,
                              result.resultId, artifact, record.intent.patchDigest, h.baseSha, h.treeSha, h.headSha,
                              result.worker.workerId, APPROVED, at)
  }

  function ApprovePublication(db: Db, publicationId: Text, approvalId: Text, resultId: Text, artifactDigest: Text,
                              at: Time)
      : Step<(PublicationReviewDecision, bool)>
  {
    if db.fuse.engaged then Raise(db, Validation)
    else if publicationId !in db.publications || !SuccessfullyVerified(db.publications[publicationId])
    then Raise(db, Validation)
    else
      var record := db.publications[publicationId];
      if record.intent.taskId !in db.tasks || !TaskReady(db.tasks[record.intent.taskId], record.intent)
      then Raise(db, Validation)
      else if !ReviewerEligible(db, record.intent, resultId) then Raise(db, Validation)
      else if artifactDigest !in db.artifacts || db.artifacts[artifactDigest].sourceKind != OwnedBy(resultId)
      then Raise(db, Validation)
      else
        var d := Decision(publicationId, record, approvalId, db.results[resultId],
                          db.artifacts[artifactDigest].reference, at);
        if !d.Accepted() then Raise(db, Validation) else db.AppendApproval(d)
  }

  /******* PublicationPublishingService *******/

  // The six-way match of publish, over the approvals read for this publication and head.
  predicate ExactlyApproved(approvals: Approvals, publicationId: Text, p: PublicationRecord)
    requires p.preparedHead.Some?
  {
    exists k | k in approvals ::
      && approvals[k].publicationId == publicationId
      && approvals[k].decision == APPROVED
      && ExactHead(p, approvals[k])
  }

  // What the remote step is given after the first transaction committed.
  datatype Job = Job(intent: PublicationIntent, prepared: PreparedHead, effect: PublicationEffectIntent)

  datatype Begun = Finished(receipt: PublicationReceipt) | Proceed(job: Job)

  function EffectIntent(effectId: Text, publicationId: Text, h: PreparedHead): PublicationEffectIntent {
    PublicationEffectIntent(effectId, publicationId, h.headSha, h.deterministicRef)
  }

  function Begin(db: Db, publicationId: Text, effectId: Text): Step<Begun> {
    if db.fuse.engaged then Raise(db, Validation)
    else if publicationId !in db.publications || !SuccessfullyVerified(db.publications[publicationId])
    then Raise(db, Validation)
    else
      var record := db.publications[publicationId];
      var prepared := record.preparedHead.value;
      if record.intent.taskId !in db.tasks || !TaskReady(db.tasks[record.intent.taskId], record.intent)
         || prepared.deterministicRef != PublicationRef(publicationId)
      then Raise(db, Validation)
      else if !ExactlyApproved(db.approvals, publicationId, record) then Raise(db, Validation)
      else if !EffectIntent(effectId, publicationId, prepared).Accepted() then Raise(db, Validation)
      else
        var e := db.RequestEffect(EffectIntent(effectId, publicationId, prepared));
        if e.out.Err? then Raise(e.db, e.out.error)
        else if e.out.value.0.receipt.Some? then Step(e.db, Ok(Finished(e.out.value.0.receipt.value)))
        else Step(e.db, Ok(Proceed(Job(record.intent, prepared, e.out.value.0.intent))))
  }

  predicate ReceiptMatches(receipt: PublicationReceipt, prepared: PreparedHead, effect: PublicationEffectIntent) {
    && receipt.publicationId == effect.publicationId
    && receipt.effectId == effect.effectId
    && receipt.state == RECONCILED
    && receipt.pullRequest.Some?
    && receipt.pullRequest.value.publicationId == effect.publicationId
    && receipt.pullRequest.value.baseSha == prepared.baseSha
    && receipt.pullRequest.value.treeSha == prepared.treeSha
    && receipt.pullRequest.value.headSha == prepared.headSha
  }

  // Why the second transaction can raise.
  datatype SettleError = Drifted | Conflicting | Refused(error: Error)

  datatype Settled = Settled(receipt: PublicationReceipt) | Rejected(why: SettleError)

  function SettleReceipt(db: Db, effectId: Text, job: Job, receipt: PublicationReceipt): (Db, Settled) {
    if effectId !in db.effects || db.effects[effectId].intent.Canonical() != job.effect.Canonical()
    then (db, Rejected(Drifted))
    else if db.effects[effectId].receipt.Some? then
      if db.effects[effectId].receipt.value.Canonical() != receipt.Canonical() then (db, Rejected(Conflicting))
      else (db, Settled(db.effects[effectId].receipt.value))
    else
      var r := db.ReconcileEffect(receipt);
      if r.out.Err? then (r.db, Rejected(Refused(r.out.error)))
      else if r.out.value.receipt.None? then (r.db, Rejected(Refused(Validation)))
      else (r.db, Settled(r.out.value.receipt.value))
  }

  /******* PublicationCheckService *******/

  predicate ReconciledTo(e: PublicationEffectRecord, publicationId: Text, p: PublicationRecord)
    requires p.preparedHead.Some?
  {
    var h := p.preparedHead.value;
    && e.receipt.Some?
    && e.receipt.value.pullRequest.Some?
    && e.receipt.value.state == RECONCILED
    && e.intent.publicationId == publicationId
    && e.intent.headSha == h.headSha
    && e.intent.deterministicRef == h.deterministicRef
    && e.receipt.value.publicationId == publicationId
    && e.receipt.value.pullRequest.value.headSha == h.headSha
    && e.receipt.value.pullRequest.value.treeSha == h.treeSha
    && e.receipt.value.pullRequest.value.baseSha == h.baseSha
  }

  function ValidatedState(db: Db, publicationId: Text, effectId: Text)
        : Outcome<(PublicationRecord, PublicationEffectRecord)>
  {
    if db.fuse.engaged then Err(Validation)
    else if publicationId !in db.publications || !SuccessfullyVerified(db.publications[publicationId])
    then Err(Validation)
    else if effectId !in db.effects
            || !ReconciledTo(db.effects[effectId], publicationId, db.publications[publicationId])
    then Err(Validation)
    else Ok((db.publications[publicationId], db.effects[effectId]))
  }

  function AppendObservations(db: Db, os: seq<CheckRunObservation>): Step<()>
    decreases |os|
  {
    if os == [] then Step(db, Ok(()))
    else
      var a := db.AppendObservation(os[0]);
      if a.out.Err? then Raise(a.db, a.out.error) else AppendObservations(a.db, os[1..])
  }

  // The second transaction of check, given what the first one read.
  function RecordChecks(db: Db, publicationId: Text, effectId: Text, headSha: Text, effectCanonical: string,
                        os: seq<CheckRunObservation>): Step<()>
  {
    match ValidatedState(db, publicationId, effectId)
    case Err(e) => Raise(db, e)
    case Ok((record, effect)) =>
      if record.preparedHead.value.headSha != headSha || effect.intent.Canonical() != effectCanonical
      then Raise(db, IdempotencyConflict)
      else AppendObservations(db, os)
  }
}

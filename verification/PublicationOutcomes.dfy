// When the publication services return, condition by condition, and what they leave.

module PublicationOutcomes {
  import opened Json
  import opened Domain
  import opened Records
  import opened CanonicalForms
  import opened Ledgers
  import opened Database
  import opened LedgerInvariants
  import opened Services
  import opened Publication
  import opened CheckGate

  /******* What publish and approve ask of a publication and its task *******/

  // Verified, passed, and the verdict is about the prepared head.
  ghost predicate PassedHead(db: Db, id: Text) {
    && id in db.publications
    && var p := db.publications[id];
    && p.state == VERIFIED && p.preparedHead.Some? && p.verification.Some?
    && p.verification.value.status == VERIFY_SUCCEEDED && p.verification.value.resultCode == CODE_PASSED
    && p.verification.value.headSha == p.preparedHead.value.headSha
  }

  // The publication's task waits to be published, on the repository and revision of the intent.
  ghost predicate TaskWaits(db: Db, i: PublicationIntent) {
    && i.taskId in db.tasks
    && db.tasks[i.taskId].status == READY_TO_PUBLISH
    && db.tasks[i.taskId].risk.effective in {R0, R1, R2}
    && db.tasks[i.taskId].repository == RepositoryTarget(i.repositoryName, i.baseSha)
  }

  ghost predicate Publishable(db: Db, id: Text) {
    !db.fuse.engaged && PassedHead(db, id) && TaskWaits(db, db.publications[id].intent)
  }

  // Somebody approved exactly this task, patch, base, tree and head.
  ghost predicate HeadApproved(db: Db, id: Text) {
    && id in db.publications && db.publications[id].preparedHead.Some?
    && var i, h := db.publications[id].intent, db.publications[id].preparedHead.value;
    exists k | k in db.approvals ::
      && db.approvals[k].publicationId == id && db.approvals[k].decision == APPROVED
      && db.approvals[k].taskId == i.taskId && db.approvals[k].patchDigest == i.patchDigest
      && db.approvals[k].baseSha == h.baseSha && db.approvals[k].treeSha == h.treeSha
      && db.approvals[k].headSha == h.headSha
  }

  /******* The first transaction of publish *******/

  ghost predicate OwnBranch(db: Db, id: Text) {
    && id in db.publications && db.publications[id].preparedHead.Some?
    && db.publications[id].preparedHead.value.deterministicRef == Lit("refs/heads/meta-loop/") + id
  }

  // The effect id stands for this publication's effect already, or neither has been used.
  ghost predicate EffectFits(db: Db, id: Text, effectId: Text) {
    if effectId in db.effects then db.effects[effectId].intent.publicationId == id
    else Identifier(effectId) && forall k | k in db.effects :: db.effects[k].intent.publicationId != id
  }

  ghost predicate MayBegin(db: Db, id: Text, effectId: Text) {
    Publishable(db, id) && OwnBranch(db, id) && HeadApproved(db, id) && EffectFits(db, id, effectId)
  }

  lemma VerifiedMeans(db: Db, id: Text)
    ensures PassedHead(db, id) <==> id in db.publications && SuccessfullyVerified(db.publications[id])
  {
  }

  lemma WaitsMeans(db: Db, i: PublicationIntent)
    ensures TaskWaits(db, i) <==> i.taskId in db.tasks && TaskReady(db.tasks[i.taskId], i)
  {
  }

  lemma ApprovedMeans(db: Db, id: Text)
    requires id in db.publications && db.publications[id].preparedHead.Some?
    ensures HeadApproved(db, id) <==> ExactlyApproved(db.approvals, id, db.publications[id])
  {
  }

  lemma HeldParts(db: Db, id: Text)
    requires Inv(db) && id in db.publications
    ensures PublicationOk(db.artifacts, db.sessions, db.results, id, db.publications[id])
    ensures EffectsOk(db.publications, db.approvals, db.effects)
  {
    hide EventsOk, SourcesOk, WorkspacesOk, ApprovalsOk, EffectsOk, ObservationsOk, PublicationOk;
  }

  lemma EffectStored(db: Db, k: Text)
    requires EffectsOk(db.publications, db.approvals, db.effects) && k in db.effects
    ensures db.effects[k].intent.effectId == k && db.effects[k].intent.Accepted()
    ensures db.effects[k].intent.publicationId in db.publications
    ensures var h := db.publications[db.effects[k].intent.publicationId].preparedHead;
            h.Some? && db.effects[k].intent == EffectIntent(k, db.effects[k].intent.publicationId, h.value)
  {
    assert EffectOk(db.publications, db.approvals, db.effects[k]);
  }

  lemma RefIsOne(db: Db, id: Text)
    requires EffectsOk(db.publications, db.approvals, db.effects)
    requires id in db.publications && db.publications[id].preparedHead.Some?
    ensures RefTaken(db.effects, id, db.publications[id].preparedHead.value.deterministicRef) <==>
      exists k :: k in db.effects && db.effects[k].intent.publicationId == id
  {
    if k :| k in db.effects && db.effects[k].intent.publicationId == id { EffectStored(db, k); }
  }

  // The effect publish asks for.
  function Wanted(effectId: Text, id: Text, p: PublicationRecord): PublicationEffectIntent
    requires p.preparedHead.Some?
  {
    PublicationEffectIntent(effectId, id, p.preparedHead.value.headSha, p.preparedHead.value.deterministicRef)
  }

  lemma WantedAccepted(db: Db, id: Text, effectId: Text)
    requires id in db.publications && PublicationOk(db.artifacts, db.sessions, db.results, id, db.publications[id])
    requires db.publications[id].preparedHead.Some?
    ensures Wanted(effectId, id, db.publications[id]).Accepted() <==> Identifier(effectId)
  {
    hide Identifier, Sha, KnownRef, ImplementerOwns;
  }

  lemma HeadHasApproval(db: Db, id: Text)
    requires HeadApproved(db, id)
    ensures HasApproval(db.approvals, id, db.publications[id].preparedHead.value.headSha)
  {
  }

  lemma NewEffectDecides(db: Db, id: Text, effectId: Text)
    requires EffectsOk(db.publications, db.approvals, db.effects)
    requires PassedHead(db, id) && HeadApproved(db, id) && effectId !in db.effects && Identifier(effectId)
    ensures var e := Wanted(effectId, id, db.publications[id]);
            var r := EffectRequest(db.effects, db.publications, db.approvals, e);
            var n := PublicationEffectRecord(e, None);
            if EffectFits(db, id, effectId) then r == Put(db.effects[effectId := n], Ok((n, true)))
            else r == Put(db.effects, Err(IdempotencyConflict))
  {
    hide Identifier, HasApproval, HeadApproved, RefTaken, EffectsOk;
    HeadHasApproval(db, id);
    RefIsOne(db, id);
  }

  lemma OldEffectDecides(db: Db, id: Text, effectId: Text)
    requires EffectsOk(db.publications, db.approvals, db.effects)
    requires id in db.publications && db.publications[id].preparedHead.Some? && effectId in db.effects
    requires Wanted(effectId, id, db.publications[id]).Accepted()
    ensures var e := Wanted(effectId, id, db.publications[id]);
            var r := EffectRequest(db.effects, db.publications, db.approvals, e);
            if EffectFits(db, id, effectId)
            then db.effects[effectId].intent == e && r == Put(db.effects, Ok((db.effects[effectId], false)))
            else r == Put(db.effects, Err(IdempotencyConflict))
  {
    hide Identifier, Sha, KnownRef, PublicationEffectIntent.Canonical, EffectsOk, EffectAllowed, RefTaken;
    EffectStored(db, effectId);
    EffectsDetermined(db.effects[effectId].intent, Wanted(effectId, id, db.publications[id]));
  }

  // What the call leaves when it returns: a new effect of this head, or what was there.
  ghost predicate EffectWritten(db: Db, db': Db, id: Text, effectId: Text, out: Begun)
    requires id in db.publications && db.publications[id].preparedHead.Some?
  {
    var p := db.publications[id];
    var e := Wanted(effectId, id, p);
    if effectId in db.effects && db.effects[effectId].receipt.Some?
    then db' == db && out == Finished(db.effects[effectId].receipt.value)
    else
      && out == Proceed(Job(p.intent, p.preparedHead.value, e))
      && db' == if effectId in db.effects then db
                else db.(effects := db.effects[effectId := PublicationEffectRecord(e, None)])
  }

  // Over consistent ledgers the first transaction of publish returns exactly under the
  // conditions of MayBegin, with the stored receipt or the job for the remote; otherwise it
  // changes nothing.
  lemma BeginExactly(db: Db, id: Text, effectId: Text)
    requires Inv(db)
    ensures Begin(db, id, effectId).out.Ok? <==> MayBegin(db, id, effectId)
    ensures MayBegin(db, id, effectId) ==>
      EffectWritten(db, Begin(db, id, effectId).db, id, effectId, Begin(db, id, effectId).out.value)
    ensures !MayBegin(db, id, effectId) ==> Begin(db, id, effectId).db == db
  {
    hide Inv, EffectRequest, ExactlyApproved, TaskReady, SuccessfullyVerified, PublicationOk, EffectsOk, TaskWaits;
    hide HeadApproved, PublicationEffectIntent.Accepted, Identifier, PassedHead, EffectFits;
    VerifiedMeans(db, id);
    if PassedHead(db, id) {
      var p := db.publications[id];
      PassedParts(db, id);
      HeldParts(db, id);
      WaitsMeans(db, p.intent);
      ApprovedMeans(db, id);
      WantedAccepted(db, id, effectId);
      if EffectFits(db, id, effectId) { FitsNamed(db, id, effectId); }
      if HeadApproved(db, id) && Identifier(effectId) {
        if effectId in db.effects { OldEffectDecides(db, id, effectId); } else { NewEffectDecides(db, id, effectId); }
      }
    }
  }

  lemma PassedParts(db: Db, id: Text)
    requires PassedHead(db, id)
    ensures id in db.publications && db.publications[id].preparedHead.Some?
  {
  }

  lemma FitsNamed(db: Db, id: Text, effectId: Text)
    requires EffectsOk(db.publications, db.approvals, db.effects) && EffectFits(db, id, effectId)
    ensures Identifier(effectId)
    ensures effectId in db.effects ==> db.effects[effectId].intent.publicationId == id
  {
    hide Identifier;
    if effectId in db.effects { EffectStored(db, effectId); }
  }

  /******* Approval *******/

  // A successful patch reviewer of the task, aiming at publication, who was given the patch.
  ghost predicate Reviewed(db: Db, i: PublicationIntent, resultId: Text) {
    && resultId in db.results
    && db.results[resultId].taskId == i.taskId && db.results[resultId].worker.role == PATCH_REVIEWER
    && db.results[resultId].target == READY_TO_PUBLISH
    && db.results[resultId].sessionId in db.sessions
    && db.sessions[db.results[resultId].sessionId].request.taskId == i.taskId
    && db.sessions[db.results[resultId].sessionId].request.role == PATCH_REVIEWER
    && db.sessions[db.results[resultId].sessionId].state == SUCCEEDED
    && i.patchDigest in db.artifacts
    && db.artifacts[i.patchDigest].reference in db.sessions[db.results[resultId].sessionId].request.inputArtifacts
  }

  ghost predicate OwnArtifact(db: Db, resultId: Text, digest: Text) {
    digest in db.artifacts && db.artifacts[digest].sourceKind == Lit("worker_result:") + resultId
  }

  // The names the record's own constructor checks.
  ghost predicate Named(db: Db, approvalId: Text, resultId: Text, digest: Text) {
    && Identifier(approvalId) && Identifier(resultId) && Sha(digest, 64)
    && resultId in db.results
    && Identifier(db.results[resultId].sessionId) && Identifier(db.results[resultId].worker.workerId)
  }

  // The approval of this head by this result, with the artifact as catalogued.
  function Approves(db: Db, id: Text, approvalId: Text, resultId: Text, digest: Text, at: Time)
      : PublicationReviewDecision
    requires id in db.publications && db.publications[id].preparedHead.Some?
    requires resultId in db.results && digest in db.artifacts
  {
    var i, h, r := db.publications[id].intent, db.publications[id].preparedHead.value, db.results[resultId];
    PublicationReviewDecision(approvalId, id, i.taskId, r.sessionId, resultId, db.artifacts[digest].reference,
                              i.patchDigest, h.baseSha, h.treeSha, h.headSha, r.worker.workerId, APPROVED, at)
  }

  ghost predicate MayApprove(db: Db, id: Text, approvalId: Text, resultId: Text, digest: Text, at: Time) {
    && Publishable(db, id) && Reviewed(db, db.publications[id].intent, resultId) && OwnArtifact(db, resultId, digest)
    && Named(db, approvalId, resultId, digest)
    && (approvalId in db.approvals ==>
          ByDigest(db.approvals[approvalId]) == ByDigest(Approves(db, id, approvalId, resultId, digest, at)))
  }

  lemma ReviewedMeans(db: Db, i: PublicationIntent, resultId: Text)
    requires SessionsOk(db.sessions)
    ensures Reviewed(db, i, resultId) <==> ReviewerEligible(db, i, resultId)
  {
    if resultId in db.results && db.results[resultId].sessionId in db.sessions {
      assert SessionOk(db.results[resultId].sessionId, db.sessions[db.results[resultId].sessionId]);
    }
  }

  lemma ApprovesAccepted(db: Db, id: Text, approvalId: Text, resultId: Text, digest: Text, at: Time)
    requires id in db.publications && PublicationOk(db.artifacts, db.sessions, db.results, id, db.publications[id])
    requires ArtifactsOk(db.artifacts) && PassedHead(db, id) && resultId in db.results && digest in db.artifacts
    ensures Approves(db, id, approvalId, resultId, digest, at).Accepted() <==> Named(db, approvalId, resultId, digest)
  {
    hide Identifier, Sha, KnownRef, ImplementerOwns;
  }

  lemma ApprovesStored(db: Db, id: Text, approvalId: Text, resultId: Text, digest: Text, at: Time)
    requires PassedHead(db, id) && Reviewed(db, db.publications[id].intent, resultId)
    requires ArtifactsOk(db.artifacts) && digest in db.artifacts && approvalId !in db.approvals
    ensures var d := Approves(db, id, approvalId, resultId, digest, at);
            var r := ApprovalAppend(db.approvals, db.publications, db.artifacts, db.sessions, db.results, d);
            r == Put(db.approvals[approvalId := d], Ok((d, true)))
  {
  }

  lemma SameDecision(db: Db, id: Text, approvalId: Text, resultId: Text, digest: Text, at: Time)
    requires id in db.publications && db.publications[id].preparedHead.Some?
    requires db.publications[id].intent.publicationId == id
    requires resultId in db.results && db.results[resultId].resultId == resultId && digest in db.artifacts
    ensures Decision(id, db.publications[id], approvalId, db.results[resultId], db.artifacts[digest].reference, at)
         == Approves(db, id, approvalId, resultId, digest, at)
  {
  }

  lemma ApprovalLedgers(db: Db, id: Text)
    requires Inv(db) && id in db.publications
    ensures PublicationOk(db.artifacts, db.sessions, db.results, id, db.publications[id])
    ensures db.publications[id].intent.publicationId == id
    ensures ArtifactsOk(db.artifacts) && SessionsOk(db.sessions) && ResultsOk(db.results)
    ensures forall k | k in db.approvals :: db.approvals[k].Accepted()
  {
    hide EventsOk, SourcesOk, WorkspacesOk, ApprovalOk, EffectsOk, ObservationsOk, ImplementerOwns, Identifier, Sha;
    hide PublicationReviewDecision.Accepted;
  }

  // Over consistent ledgers approve returns exactly under these conditions. Under a new id
  // it stores the approval of the reviewer the result names, and the head is approved from
  // then on, as publish asks; a known id, or a refusal, changes nothing.
  lemma ApproveExactly(db: Db, id: Text, approvalId: Text, resultId: Text, digest: Text, at: Time)
    requires Inv(db)
    ensures var a := ApprovePublication(db, id, approvalId, resultId, digest, at);
            && (a.out.Ok? <==> MayApprove(db, id, approvalId, resultId, digest, at))
            && (a.out.Ok? && approvalId !in db.approvals ==>
                  var d := Approves(db, id, approvalId, resultId, digest, at);
                  && a.out.value == (d, true)
                  && a.db == db.(approvals := db.approvals[approvalId := d])
                  && HeadApproved(a.db, id))
            && (a.out.Ok? && approvalId in db.approvals ==> a.out.value == (db.approvals[approvalId], false))
            && (a.out.Err? || approvalId in db.approvals ==> a.db == db)
  {
    hide Inv, ApprovalAppend, TaskReady, SuccessfullyVerified, PublicationOk, TaskWaits, ReviewerEligible, Reviewed;
    hide HeadApproved, PublicationReviewDecision.Accepted, Identifier, Sha, PassedHead, ArtifactsOk, SessionsOk,
         ResultsOk;
    hide Named, Decision, Approves, PublicationReviewDecision.Canonical, ByDigest;
    VerifiedMeans(db, id);
    if PassedHead(db, id) {
      PassedParts(db, id);
      ApprovalLedgers(db, id);
      var i := db.publications[id].intent;
      WaitsMeans(db, i);
      ReviewedMeans(db, i, resultId);
      if Reviewed(db, i, resultId) && digest in db.artifacts {
        ReviewedParts(db, i, resultId);
        ApproveDecides(db, id, approvalId, resultId, digest, at);
      }
    }
  }

  lemma ReviewedParts(db: Db, i: PublicationIntent, resultId: Text)
    requires Reviewed(db, i, resultId)
    ensures resultId in db.results
  {
  }

  // Once every check before the ledger has passed.
  lemma ApproveDecides(db: Db, id: Text, approvalId: Text, resultId: Text, digest: Text, at: Time)
    requires id in db.publications && PublicationOk(db.artifacts, db.sessions, db.results, id, db.publications[id])
    requires ArtifactsOk(db.artifacts) && ResultsOk(db.results)
    requires forall k | k in db.approvals :: db.approvals[k].Accepted()
    requires PassedHead(db, id) && Reviewed(db, db.publications[id].intent, resultId) && digest in db.artifacts
    ensures var d := Approves(db, id, approvalId, resultId, digest, at);
            var r := db.AppendApproval(d);
            && Decision(id, db.publications[id], approvalId, db.results[resultId], db.artifacts[digest].reference, at)
               == d
            && (d.Accepted() <==> Named(db, approvalId, resultId, digest))
            && (approvalId !in db.approvals ==>
                  && r == Step(db.(approvals := db.approvals[approvalId := d]), Ok((d, true)))
                  && HeadApproved(r.db, id))
            && (approvalId in db.approvals && d.Accepted() ==>
                  r == Step(db, if ByDigest(db.approvals[approvalId]) == ByDigest(d)
                                then Ok((db.approvals[approvalId], false)) else Err(IdempotencyConflict)))
  {
    hide PublicationReviewDecision.Accepted, Identifier, Sha, Named, Reviewed, Decision, Approves, ByDigest;
    hide PublicationReviewDecision.Canonical, ApprovalReferences, ExactHead, ReviewerMatches, HeadApproved, ArtifactsOk;
    PassedParts(db, id);
    ReviewedParts(db, db.publications[id].intent, resultId);
    var d := Approves(db, id, approvalId, resultId, digest, at);
    SameDecision(db, id, approvalId, resultId, digest, at);
    ApprovesAccepted(db, id, approvalId, resultId, digest, at);
    ApprovesId(db, id, approvalId, resultId, digest, at);
    if approvalId in db.approvals {
      if d.Accepted() { DecisionsDetermined(db.approvals[approvalId], d); }
    } else {
      ApprovesStored(db, id, approvalId, resultId, digest, at);
      ApprovesHead(db, id, approvalId, resultId, digest, at);
    }
  }

  lemma ApprovesId(db: Db, id: Text, approvalId: Text, resultId: Text, digest: Text, at: Time)
    requires id in db.publications && db.publications[id].preparedHead.Some?
    requires resultId in db.results && digest in db.artifacts
    ensures Approves(db, id, approvalId, resultId, digest, at).approvalId == approvalId
  {
  }

  lemma ApprovesHead(db: Db, id: Text, approvalId: Text, resultId: Text, digest: Text, at: Time)
    requires id in db.publications && db.publications[id].preparedHead.Some?
    requires resultId in db.results && digest in db.artifacts
    ensures var d := Approves(db, id, approvalId, resultId, digest, at);
            HeadApproved(db.(approvals := db.approvals[approvalId := d]), id)
  {
    var m := db.approvals[approvalId := Approves(db, id, approvalId, resultId, digest, at)];
    assert approvalId in m;
  }

  /******* Preparation and verification *******/

  // A successful implementer of the task, aiming at publication, who owns the catalogued diff.
  ghost predicate Implemented(db: Db, i: PublicationIntent) {
    && i.taskId in db.tasks && i.workerResultId in db.results
    && db.results[i.workerResultId].taskId == i.taskId && db.results[i.workerResultId].worker.role == IMPLEMENTER
    && db.results[i.workerResultId].target == READY_TO_PUBLISH
    && db.results[i.workerResultId].sessionId in db.sessions
    && db.sessions[db.results[i.workerResultId].sessionId].request.taskId == i.taskId
    && db.sessions[db.results[i.workerResultId].sessionId].request.role == IMPLEMENTER
    && db.sessions[db.results[i.workerResultId].sessionId].state == SUCCEEDED
    && i.patchDigest in db.artifacts
    && db.artifacts[i.patchDigest].reference in db.tasks[i.taskId].artifacts
    && db.artifacts[i.patchDigest].reference.mediaType == Lit("text/x-diff")
    && db.artifacts[i.patchDigest].sourceKind == Lit("worker_result:") + i.workerResultId
  }

  // The intent is about the task as it stands, under a governance that grants it.
  ghost predicate Current(db: Db, i: PublicationIntent, granted: bool) {
    && !db.fuse.engaged && TaskWaits(db, i) && granted
    && db.tasks[i.taskId].risk.governanceRevision.Some?
    && db.tasks[i.taskId].version == i.expectedTaskVersion
    && (if i.taskId in db.events then |db.events[i.taskId]| else 0) == i.expectedSequence
  }

  // The candidate built from it.
  ghost predicate Candidate(i: PublicationIntent, h: PreparedHead) {
    && h.publicationId == i.publicationId && h.patchDigest == i.patchDigest && h.baseSha == i.baseSha
    && h.deterministicRef == Lit("refs/heads/meta-loop/") + i.publicationId
  }

  // The id is new, or reserved by this very intent and not prepared with another head.
  ghost predicate Reservable(db: Db, i: PublicationIntent, h: PreparedHead) {
    i.publicationId in db.publications ==>
      && db.publications[i.publicationId].intent == i
      && (db.publications[i.publicationId].preparedHead.Some? ==>
            db.publications[i.publicationId].preparedHead.value == h)
  }

  ghost predicate MayPrepare(db: Db, i: PublicationIntent, granted: bool, intact: bool, h: PreparedHead) {
    Current(db, i, granted) && Implemented(db, i) && intact && Candidate(i, h) && Reservable(db, i, h)
  }

  lemma CurrentMeans(db: Db, i: PublicationIntent, granted: bool)
    requires ArtifactsOk(db.artifacts)
    ensures PreparePreconditions(db, i, granted).Ok? <==> Current(db, i, granted) && Implemented(db, i)
  {
    if i.taskId in db.tasks { ImplementedMeans(db, i); }
    hide SourcesEligible, Implemented;
  }

  lemma ImplementedMeans(db: Db, i: PublicationIntent)
    requires ArtifactsOk(db.artifacts) && i.taskId in db.tasks
    ensures Implemented(db, i) <==> SourcesEligible(db, db.tasks[i.taskId], i)
  {
  }

  function PreparedWith(i: PublicationIntent, h: PreparedHead): PublicationRecord {
    PublicationRecord(i, PREPARED, 1, Some(h), None)
  }

  // What prepare leaves in the ledger.
  function AfterPrepare(db: Db, i: PublicationIntent, h: PreparedHead): Publications {
    if i.publicationId in db.publications && db.publications[i.publicationId].preparedHead.Some?
    then db.publications else db.publications[i.publicationId := PreparedWith(i, h)]
  }

  lemma ReserveNew(db: Db, i: PublicationIntent)
    requires Current(db, i, true) && Implemented(db, i) && i.publicationId !in db.publications
    ensures var n := PublicationRecord(i, RESERVED, 0, None, None);
            db.Reserve(i) == Step(db.(publications := db.publications[i.publicationId := n]), Ok((n, true)))
  {
  }

  lemma ReserveOld(db: Db, i: PublicationIntent)
    requires i.publicationId in db.publications && i.Accepted()
    requires PublicationOk(db.artifacts, db.sessions, db.results, i.publicationId, db.publications[i.publicationId])
    ensures var p := db.publications[i.publicationId];
            db.Reserve(i) == if p.intent == i then Step(db, Ok((p, false))) else Step(db, Err(IdempotencyConflict))
  {
    hide PublicationIntent.Canonical, PublicationIntent.Accepted, Shape, HeadOk, ImplementerOwns, ReferencesValid;
    IntentsDetermined(db.publications[i.publicationId].intent, i);
  }

  lemma PrepareReserved(db: Db, i: PublicationIntent, h: PreparedHead)
    requires i.publicationId in db.publications && Candidate(i, h)
    requires db.publications[i.publicationId] == PublicationRecord(i, RESERVED, 0, None, None)
    ensures db.Prepare(h, 0) == Step(db.(publications := db.publications[i.publicationId := PreparedWith(i, h)]),
                                     Ok(PreparedWith(i, h)))
  {
  }

  lemma OverwrittenRecord(m: Publications, id: Text, p: PublicationRecord, q: PublicationRecord)
    ensures m[id := p][id := q] == m[id := q]
  {
  }

  // Over consistent ledgers prepare returns exactly under these conditions, and then the
  // publication stands prepared with this head.
  lemma PrepareExactly(db: Db, i: PublicationIntent, granted: bool, intact: bool, h: PreparedHead)
    requires Inv(db) && i.Accepted()
    ensures var p := PreparePublication(db, i, granted, intact, h);
            && (p.out.Ok? <==> MayPrepare(db, i, granted, intact, h))
            && (p.out.Ok? ==> p.out.value == h && p.db == db.(publications := AfterPrepare(db, i, h)))
  {
    hide Inv, PreparePublication, PublicationOk, Current, Implemented, PublicationIntent.Accepted, Candidate;
    PreparedLedgers(db, i.publicationId);
    if Current(db, i, granted) && Implemented(db, i) && intact && Candidate(i, h) {
      if i.publicationId in db.publications {
        PrepareOld(db, i, granted, h);
      } else {
        PrepareNew(db, i, granted, h);
      }
    } else {
      PrepareRefused(db, i, granted, intact, h);
    }
  }

  lemma PrepareRefused(db: Db, i: PublicationIntent, granted: bool, intact: bool, h: PreparedHead)
    requires ArtifactsOk(db.artifacts)
    requires !(Current(db, i, granted) && Implemented(db, i) && intact && Candidate(i, h))
    ensures PreparePublication(db, i, granted, intact, h).out.Err?
  {
    hide PreparePreconditions, Db.Reserve, Db.Prepare, Current, Implemented, Candidate, CandidateMatches;
    CurrentMeans(db, i, granted);
    CandidateMeans(i, h);
  }

  lemma PrepareNew(db: Db, i: PublicationIntent, granted: bool, h: PreparedHead)
    requires ArtifactsOk(db.artifacts) && i.publicationId !in db.publications
    requires Current(db, i, granted) && Implemented(db, i) && Candidate(i, h)
    ensures PreparePublication(db, i, granted, true, h)
         == Step(db.(publications := db.publications[i.publicationId := PreparedWith(i, h)]), Ok(h))
  {
    hide PreparePreconditions, Db.Reserve, Db.Prepare, Current, Implemented, Candidate, CandidateMatches;
    CurrentMeans(db, i, granted);
    CandidateMeans(i, h);
    GrantedOnly(db, i, granted);
    ReserveNew(db, i);
    var n := PublicationRecord(i, RESERVED, 0, None, None);
    PrepareReserved(db.(publications := db.publications[i.publicationId := n]), i, h);
    OverwrittenRecord(db.publications, i.publicationId, n, PreparedWith(i, h));
  }

  lemma PrepareOld(db: Db, i: PublicationIntent, granted: bool, h: PreparedHead)
    requires ArtifactsOk(db.artifacts) && i.publicationId in db.publications && i.Accepted()
    requires PublicationOk(db.artifacts, db.sessions, db.results, i.publicationId, db.publications[i.publicationId])
    requires Current(db, i, granted) && Implemented(db, i) && Candidate(i, h)
    ensures var p := PreparePublication(db, i, granted, true, h);
            if Reservable(db, i, h) then p == Step(db.(publications := AfterPrepare(db, i, h)), Ok(h)) else p.out.Err?
  {
    hide PreparePreconditions, Db.Reserve, Db.Prepare, Current, Implemented, Candidate, CandidateMatches;
    hide PublicationOk, PublicationIntent.Accepted;
    CurrentMeans(db, i, granted);
    CandidateMeans(i, h);
    ReserveOld(db, i);
    StagedRecord(db, i.publicationId);
    if db.publications[i.publicationId] == PublicationRecord(i, RESERVED, 0, None, None) { PrepareReserved(db, i, h); }
  }

  lemma CandidateMeans(i: PublicationIntent, h: PreparedHead)
    ensures Candidate(i, h) <==> CandidateMatches(h, i)
  {
  }

  lemma GrantedOnly(db: Db, i: PublicationIntent, granted: bool)
    requires Current(db, i, granted)
    ensures Current(db, i, true)
  {
  }

  lemma PreparedLedgers(db: Db, id: Text)
    requires Inv(db)
    ensures ArtifactsOk(db.artifacts)
    ensures id in db.publications ==>
      PublicationOk(db.artifacts, db.sessions, db.results, id, db.publications[id])
  {
    hide EventsOk, SourcesOk, WorkspacesOk, ApprovalsOk, EffectsOk, ObservationsOk, PublicationOk;
  }

  // Without a prepared head a publication is reserved.
  lemma StagedRecord(db: Db, id: Text)
    requires id in db.publications && PublicationOk(db.artifacts, db.sessions, db.results, id, db.publications[id])
    ensures var p := db.publications[id];
            && (p.preparedHead.None? ==> p == PublicationRecord(p.intent, RESERVED, 0, None, None))
            && (p.preparedHead.Some? && p.state != VERIFIED ==> p == PreparedWith(p.intent, p.preparedHead.value))
            && (p.state == VERIFIED ==> p.version == 2 && p.preparedHead.Some?)
  {
    hide HeadOk, ImplementerOwns, PublicationIntent.Accepted;
  }

  // The verifier answers about the publication it was given; whatever the answer, it is
  // recorded once, and only for the head that was prepared.
  lemma VerifyExactly(db: Db, i: PublicationIntent, granted: bool, intact: bool, h: PreparedHead,
                      v: VerificationResult)
    requires Inv(db) && i.Accepted() && v.publicationId == i.publicationId
    ensures var p := PrepareAndVerify(db, i, granted, intact, h, v);
            && (p.out.Ok? <==>
                  && MayPrepare(db, i, granted, intact, h) && v.headSha == h.headSha
                  && (i.publicationId in db.publications ==> db.publications[i.publicationId].state != VERIFIED))
            && (p.out.Ok? ==>
                  var r := PublicationRecord(i, VERIFIED, 2, Some(h), Some(v));
                  p.out.value == h && p.db == db.(publications := db.publications[i.publicationId := r]))
  {
    hide Inv, PreparePublication, MayPrepare, PublicationOk, PublicationIntent.Accepted, AfterPrepare,
         RecordVerification;
    PrepareExactly(db, i, granted, intact, h);
    PreparedLedgers(db, i.publicationId);
    if MayPrepare(db, i, granted, intact, h) {
      MayPrepareParts(db, i, granted, intact, h);
      PreparedStage(db, i, h, PublicationRecord(i, VERIFIED, 2, Some(h), Some(v)));
      VerifyDecides(db, i, h, v);
    }
  }

  lemma MayPrepareParts(db: Db, i: PublicationIntent, granted: bool, intact: bool, h: PreparedHead)
    requires MayPrepare(db, i, granted, intact, h)
    ensures Reservable(db, i, h) && h.publicationId == i.publicationId
  {
    hide Current, Implemented;
  }

  lemma PreparedStage(db: Db, i: PublicationIntent, h: PreparedHead, q: PublicationRecord)
    requires Reservable(db, i, h)
    requires i.publicationId in db.publications ==>
      PublicationOk(db.artifacts, db.sessions, db.results, i.publicationId, db.publications[i.publicationId])
    ensures var m, id := AfterPrepare(db, i, h), i.publicationId;
            && id in m && m[id].preparedHead == Some(h) && m[id].intent == i
            && m[id].version == (if m[id].state == PREPARED then 1 else 2)
            && (m[id].state == PREPARED <==> (id in db.publications ==> db.publications[id].state != VERIFIED))
            && m[id := q] == db.publications[id := q]
  {
    hide HeadOk, ImplementerOwns, PublicationIntent.Accepted, PublicationOk;
    var id := i.publicationId;
    if id in db.publications { StagedRecord(db, id); }
    OverwrittenRecord(db.publications, id, PreparedWith(i, h), q);
  }

  lemma VerifyDecides(db: Db, i: PublicationIntent, h: PreparedHead, v: VerificationResult)
    requires v.publicationId == i.publicationId
    requires var m, id := AfterPrepare(db, i, h), i.publicationId;
             && id in m && m[id].preparedHead == Some(h) && m[id].intent == i && h.publicationId == id
             && m[id].version == (if m[id].state == PREPARED then 1 else 2)
    ensures var m, id := AfterPrepare(db, i, h), i.publicationId;
            var r := RecordVerification(m, v, m[id].version);
            && (r.out.Ok? <==> m[id].state == PREPARED && v.headSha == h.headSha)
            && (r.out.Ok? ==> r.m == m[id := PublicationRecord(i, VERIFIED, 2, Some(h), Some(v))])
  {
    hide AfterPrepare;
  }

  /******* The second transaction of publish *******/

  // The receipt shows the publication's base, tree and head.
  ghost predicate ShowsHead(db: Db, id: Text, c: PublicationReceipt) {
    && id in db.publications && db.publications[id].preparedHead.Some?
    && c.state == RECONCILED && c.pullRequest.Some?
    && c.pullRequest.value.baseSha == db.publications[id].intent.baseSha
    && c.pullRequest.value.treeSha == db.publications[id].preparedHead.value.treeSha
    && c.pullRequest.value.headSha == db.publications[id].preparedHead.value.headSha
  }

  // The durable effect is the job's, and has this receipt, or none and the receipt shows the head.
  ghost predicate MaySettle(db: Db, effectId: Text, job: Job, c: PublicationReceipt) {
    && effectId in db.effects && db.effects[effectId].intent == job.effect
    && if db.effects[effectId].receipt.Some? then db.effects[effectId].receipt.value == c
       else ShowsHead(db, job.effect.publicationId, c)
  }

  // A receipt about the effect is settled exactly if the durable effect is still the job's
  // and has this receipt or none; it is stored once.
  lemma SettleExactly(db: Db, effectId: Text, job: Job, c: PublicationReceipt)
    requires Inv(db) && job.effect.Accepted() && c.Accepted()
    requires c.effectId == effectId && c.publicationId == job.effect.publicationId
    ensures var s := SettleReceipt(db, effectId, job, c);
            && (s.1.Settled? <==> MaySettle(db, effectId, job, c))
            && (s.1.Settled? ==>
                  && s.1.receipt == c
                  && s.0 == db.(effects := db.effects[effectId := PublicationEffectRecord(job.effect, Some(c))]))
            && (s.1.Rejected? ==> s.0 == db)
  {
    hide Inv, EffectsOk, PublicationEffectIntent.Canonical, PublicationReceipt.Canonical, EffectReconcile, ShowsHead;
    hide PublicationEffectIntent.Accepted, PublicationReceipt.Accepted;
    EffectsHeld(db);
    if effectId in db.effects {
      StoredEffect(db, effectId);
      EffectsDetermined(db.effects[effectId].intent, job.effect);
      if db.effects[effectId].receipt.Some? {
        ReceiptsDetermined(db.effects[effectId].receipt.value, c);
        assert db.effects[effectId := db.effects[effectId]] == db.effects;
      } else if db.effects[effectId].intent == job.effect {
        ReconcileDecides(db, c);
      }
    }
  }

  lemma EffectsHeld(db: Db)
    requires Inv(db)
    ensures EffectsOk(db.publications, db.approvals, db.effects)
  {
    hide EventsOk, SourcesOk, WorkspacesOk, ApprovalsOk, EffectsOk, ObservationsOk, PublicationsOk;
  }

  lemma StoredEffect(db: Db, k: Text)
    requires EffectsOk(db.publications, db.approvals, db.effects) && k in db.effects
    ensures db.effects[k].intent.effectId == k && db.effects[k].intent.Accepted()
    ensures db.effects[k].receipt.Some? ==> db.effects[k].receipt.value.Accepted()
  {
    assert EffectOk(db.publications, db.approvals, db.effects[k]);
  }

  lemma ReconcileDecides(db: Db, c: PublicationReceipt)
    requires c.effectId in db.effects && db.effects[c.effectId].intent.publicationId == c.publicationId
    requires db.effects[c.effectId].receipt.None? && db.effects[c.effectId].intent.effectId == c.effectId
    ensures var r := EffectReconcile(db.effects, db.publications, c);
            var e := PublicationEffectRecord(db.effects[c.effectId].intent, Some(c));
            if ShowsHead(db, c.publicationId, c) then r == Put(db.effects[c.effectId := e], Ok(e))
            else r.m == db.effects && r.out.Err?
  {
  }

  // What publish validates before that transaction is what the ledger will ask of the
  // receipt: a receipt it lets through is refused only for another one stored meanwhile.
  lemma ReceiptMeans(db: Db, effectId: Text, job: Job, c: PublicationReceipt)
    requires Inv(db) && c.Accepted()
    requires effectId in db.effects && db.effects[effectId].intent == job.effect
    requires job.effect.publicationId in db.publications
    requires db.publications[job.effect.publicationId].preparedHead == Some(job.prepared)
    ensures ReceiptMatches(c, job.prepared, job.effect)
       <==> && c.effectId == effectId && c.publicationId == job.effect.publicationId
            && ShowsHead(db, job.effect.publicationId, c)
  {
    hide Inv, EffectsOk, PublicationOk;
    EffectsHeld(db);
    StoredEffect(db, effectId);
    PreparedLedgers(db, job.effect.publicationId);
    BaseKept(db, job.effect.publicationId);
  }

  lemma BaseKept(db: Db, id: Text)
    requires id in db.publications && PublicationOk(db.artifacts, db.sessions, db.results, id, db.publications[id])
    ensures var p := db.publications[id];
            p.preparedHead.Some? ==> p.preparedHead.value.baseSha == p.intent.baseSha
  {
    hide ImplementerOwns;
  }

  /******* The check gate *******/

  // The publication passed and its effect has a receipt.
  ghost predicate Published(db: Db, id: Text, effectId: Text) {
    && !db.fuse.engaged && PassedHead(db, id)
    && effectId in db.effects && db.effects[effectId].intent.publicationId == id
    && db.effects[effectId].receipt.Some?
  }

  // The ledger with each fetched observation at its check and time, and nothing else new.
  ghost predicate Recorded(m: Observations, n: Observations, os: Observed) {
    && (forall k | k in m :: k in n && n[k] == m[k])
    && (forall i | 0 <= i < |os| :: Filed(n, os[i]))
    && (forall k | k in n && k !in m :: exists i | 0 <= i < |os| :: n[k] == os[i])
  }

  // An observation that prints alike is stored at its publication, head, check and time.
  ghost predicate Filed(n: Observations, o: CheckRunObservation) {
    var k := ObservationKey(o.publicationId, o.headSha, o.checkName, o.observedAt);
    k in n && n[k].Canonical() == o.Canonical()
  }

  lemma {:induction false} AppendsRecord(db: Db, os: Observed)
    requires AppendObservations(db, os).out.Ok?
    ensures var d := AppendObservations(db, os).db;
            d == db.(observations := d.observations) && Recorded(db.observations, d.observations, os)
    decreases |os|
  {
    hide CheckRunObservation.Canonical;
    if os != [] {
      var a := db.AppendObservation(os[0]);
      AppendsRecord(a.db, os[1..]);
      RecordedThen(db.observations, a.db.observations, AppendObservations(db, os).db.observations, os);
    }
  }

  lemma RecordedThen(m: Observations, l: Observations, n: Observations, os: Observed)
    requires os != [] && Recorded(l, n, os[1..]) && Filed(l, os[0])
    requires l == m || (l == m[KeyOf(os[0]) := os[0]] && KeyOf(os[0]) !in m)
    ensures Recorded(m, n, os)
  {
    hide CheckRunObservation.Canonical;
    forall i | 0 <= i < |os| ensures Filed(n, os[i]) {
      if i > 0 { assert os[i] == os[1..][i - 1]; }
    }
    forall k | k in n && k !in m ensures exists i | 0 <= i < |os| :: n[k] == os[i] {
      if k in l {
        assert n[k] == os[0];
      } else {
        var i :| 0 <= i < |os[1..]| && n[k] == os[1..][i];
        assert n[k] == os[i + 1];
      }
    }
  }

  // Accepted observations that print alike are the same.
  lemma FiledExactly(n: Observations, o: CheckRunObservation)
    requires Filed(n, o) && o.Accepted() && forall k | k in n :: n[k].Accepted()
    ensures n[ObservationKey(o.publicationId, o.headSha, o.checkName, o.observedAt)] == o
  {
    hide CheckRunObservation.Accepted, CheckRunObservation.Canonical;
    ObservationsDetermined(n[ObservationKey(o.publicationId, o.headSha, o.checkName, o.observedAt)], o);
  }

  // What an answer says: the names it was asked about, the prepared head, and that each
  // required check's latest fetched observation is a completed success.
  ghost predicate Answers(db: Db, id: Text, os: Observed, required: seq<Text>, r: CheckGateResult) {
    && id in db.publications && db.publications[id].preparedHead.Some?
    && r.publicationId == id && r.headSha == db.publications[id].preparedHead.value.headSha
    && r.requiredChecks == required
    && (r.passed <==> forall i | 0 <= i < |required| :: LatestGreen(os, required[i]))
  }

  // An answer is true of both databases, with the same effect in both, so of no publication
  // that changed while its checks were fetched.
  lemma CheckAnswers(first: Db, second: Db, id: Text, effectId: Text, os: Observed, required: seq<Text>)
    requires Check(first, second, id, effectId, os, required).out.Ok?
    ensures var c := Check(first, second, id, effectId, os, required);
            && Answers(first, id, os, required, c.out.value) && Answers(second, id, os, required, c.out.value)
            && effectId in first.effects && effectId in second.effects
            && second.effects[effectId].intent.Canonical() == first.effects[effectId].intent.Canonical()
            && c.db == second.(observations := c.db.observations)
            && Recorded(second.observations, c.db.observations, os)
  {
    hide Fold, AppendObservations, LatestGreen, Verdict, SuccessfullyVerified, ReconciledTo, Recorded;
    StateParts(first, id, effectId);
    StateParts(second, id, effectId);
    var head := first.publications[id].preparedHead.value.headSha;
    GateMeaning(os, id, head, required);
    AppendsRecord(second, os);
  }

  lemma StateParts(db: Db, id: Text, effectId: Text)
    requires ValidatedState(db, id, effectId).Ok?
    ensures id in db.publications && db.publications[id].preparedHead.Some? && effectId in db.effects
  {
  }

  lemma PublishedMeans(db: Db, id: Text, effectId: Text)
    requires Inv(db)
    ensures ValidatedState(db, id, effectId).Ok? <==> Published(db, id, effectId)
  {
    hide Inv, PassedHead, SuccessfullyVerified, ReconciledTo, EffectsOk;
    VerifiedMeans(db, id);
    EffectsHeld(db);
    if PassedHead(db, id) && effectId in db.effects {
      PassedParts(db, id);
      PreparedLedgers(db, id);
      ReconciledMeans(db, id, effectId);
    }
  }

  lemma ReconciledMeans(db: Db, id: Text, effectId: Text)
    requires EffectsOk(db.publications, db.approvals, db.effects) && effectId in db.effects
    requires id in db.publications && db.publications[id].preparedHead.Some?
    requires PublicationOk(db.artifacts, db.sessions, db.results, id, db.publications[id])
    ensures ReconciledTo(db.effects[effectId], id, db.publications[id])
       <==> db.effects[effectId].intent.publicationId == id && db.effects[effectId].receipt.Some?
  {
    hide Shape, ImplementerOwns, PublicationIntent.Accepted;
    EffectStored(db, effectId);
    assert EffectOk(db.publications, db.approvals, db.effects[effectId]);
  }

  // Whatever was committed between its transactions, the whole call returns exactly if the
  // publication is published, the fuse is still off, every fetched observation is at the
  // head, none ties with the maximum its check had reached, and none contradicts another.
  lemma CheckExactly(first: Db, second: Db, id: Text, effectId: Text, os: Observed, required: seq<Text>)
    requires Inv(first) && Good(first, second)
    ensures Check(first, second, id, effectId, os, required).out.Ok? <==>
      && Published(first, id, effectId) && !second.fuse.engaged
      && AllAt(os, id, first.publications[id].preparedHead.value.headSha) && NoTies(os)
      && NoClash(second.observations, os)
    ensures Check(first, second, id, effectId, os, required).out.Err? ==>
      Check(first, second, id, effectId, os, required).db == second
  {
    hide Inv, Extends, Fold, RecordChecks, NoClash, AllAt, NoTies, ValidatedState, PassedHead;
    PublishedMeans(first, id, effectId);
    if Published(first, id, effectId) {
      PassedParts(first, id);
      AcceptedExactly(os, id, first.publications[id].preparedHead.value.headSha);
      if Fold(os, id, first.publications[id].preparedHead.value.headSha).Ok? {
        OnlyFuseOrConflict(first, second, id, effectId, os, required);
      } else {
        FoldRefuses(first, second, id, effectId, os, required);
      }
    }
  }

  lemma FoldRefuses(first: Db, second: Db, id: Text, effectId: Text, os: Observed, required: seq<Text>)
    requires ValidatedState(first, id, effectId).Ok?
    requires Fold(os, id, first.publications[id].preparedHead.value.headSha).Err?
    ensures Check(first, second, id, effectId, os, required).out.Err?
  {
    hide Fold, RecordChecks;
  }
}

// The publication services as they run: statements over the stores, and the blocks of
// publish and check over the in-memory unit of work.

module PublicationMethods {
  import opened Json
  import opened Domain
  import opened Records
  import opened Ledgers
  import opened Database
  import opened Heap
  import opened Memory
  import opened UnitOfWork
  import opened Services
  import opened Publication
  import opened CheckGate
  import opened LedgerInvariants
  import opened PublicationOutcomes
  import opened ServiceMethods

  lemma LinkedHeads(uow: Stores, maps: Maps)
    requires uow.BoundTo(maps)
    ensures uow.publications.all == maps && uow.publications.Linked()
    ensures uow.publicationApprovals.all == maps && uow.publicationApprovals.Linked()
    ensures uow.publicationEffects.all == maps && uow.publicationEffects.Linked()
    ensures uow.checkObservations.all == maps && uow.checkObservations.Linked()
    ensures uow.workerResults.all == maps && uow.workerResults.Linked()
  {
  }

  /******* PublicationPreparationService *******/

  method SourcesHold(uow: Stores, ghost maps: Maps, task: Task, intent: PublicationIntent) returns (ok: bool)
    requires uow.BoundTo(maps)
    ensures ok == SourcesEligible(maps.View(), task, intent)
    ensures maps.View() == old(maps.View()) && maps.All() == old(maps.All()) && maps.Valid() == old(maps.Valid())
  {
    hide Maps.View, Maps.All, Maps.Valid, Stores.BoundTo;
    LinkedHeads(uow, maps);
    LinkedSources(uow, maps);
    ApprovalParts(maps);
    var result := uow.workerResults.Get(intent.workerResultId);
    if result.None? || result.value.taskId != intent.taskId || result.value.worker.role != IMPLEMENTER
       || result.value.target != READY_TO_PUBLISH
    {
      return false;
    }
    var session := uow.runnerSessions.Get(result.value.sessionId);
    if session.None? || session.value.request.taskId != intent.taskId || session.value.request.role != IMPLEMENTER
       || session.value.state != SUCCEEDED
    {
      return false;
    }
    var artifact := uow.artifacts.Get(intent.patchDigest);
    ok := artifact.Some? && artifact.value.reference in task.artifacts
          && artifact.value.reference.digest == intent.patchDigest
          && artifact.value.reference.mediaType == TEXT_DIFF
          && artifact.value.sourceKind == OwnedBy(intent.workerResultId);
  }

  method Validate(uow: Stores, ghost maps: Maps, intent: PublicationIntent, granted: bool) returns (out: Outcome<()>)
    requires uow.BoundTo(maps)
    ensures out == PreparePreconditions(maps.View(), intent, granted)
    ensures maps.View() == old(maps.View()) && maps.All() == old(maps.All()) && maps.Valid() == old(maps.Valid())
  {
    hide Maps.View, Maps.All, Maps.Valid, Stores.BoundTo, SourcesEligible, TaskReady;
    LinkedWork(uow, maps);
    WorkParts(maps);
    if uow.fuse.Get().engaged { return Err(Validation); }
    var task := uow.tasks.Get(intent.taskId);
    if task.None? { return Err(TaskNotFound); }
    if !TaskReady(task.value, intent) || task.value.risk.governanceRevision.None? { return Err(Validation); }
    if task.value.version != intent.expectedTaskVersion || |uow.events.Read(intent.taskId)| != intent.expectedSequence {
      return Err(Validation);
    }
    if !granted { return Err(UnsupportedGovernance); }
    var hold := SourcesHold(uow, maps, task.value, intent);
    out := if hold then Ok(()) else Err(Validation);
  }

  method Prepare(uow: Stores, ghost maps: Maps, intent: PublicationIntent, granted: bool, patchIntact: bool,
                 prepared: PreparedHead)
      returns (out: Outcome<PreparedHead>)
    requires uow.BoundTo(maps) && maps.Valid()
    modifies maps.All()
    ensures maps.Valid() && forall o | o in maps.All() :: o in old(maps.All()) || fresh(o)
    ensures Step(maps.View(), out) == PreparePublication(old(maps.View()), intent, granted, patchIntact, prepared)
  {
    hide Maps.View, Maps.All, Maps.Valid, Stores.BoundTo, PreparePreconditions, PublicationReserve, RecordPrepared,
         CandidateMatches;
    LinkedHeads(uow, maps);
    var allowed := Validate(uow, maps, intent, granted);
    if allowed.Err? { return Err(allowed.error); }
    if !patchIntact { return Err(Validation); }
    if !CandidateMatches(prepared, intent) { return Err(IdempotencyConflict); }
    DictsInAll(maps);
    var reserved := uow.publications.Reserve(intent);
    if reserved.Err? { return Err(reserved.error); }
    var record := reserved.value.0;
    if record.preparedHead.Some? {
      if record.preparedHead.value != prepared { return Err(IdempotencyConflict); }
      return Ok(record.preparedHead.value);
    }
    if record.state != RESERVED { return Err(IdempotencyConflict); }
    DictsInAll(maps);
    var saved := uow.publications.Prepare(prepared, record.version);
    out := if saved.Err? then Err(saved.error) else Ok(prepared);
  }

  // What the command line does in one block: prepare, then record the verifier's answer.
  method PrepareVerified(uow: Stores, ghost maps: Maps, intent: PublicationIntent, granted: bool, patchIntact: bool,
                         prepared: PreparedHead, verification: VerificationResult) returns (out: Outcome<PreparedHead>)
    requires uow.BoundTo(maps) && maps.Valid()
    modifies maps.All()
    ensures maps.Valid() && forall o | o in maps.All() :: o in old(maps.All()) || fresh(o)
    ensures Step(maps.View(), out)
         == PrepareAndVerify(old(maps.View()), intent, granted, patchIntact, prepared, verification)
  {
    hide Maps.View, Maps.All, Maps.Valid, Stores.BoundTo, PreparePublication, RecordVerification;
    LinkedHeads(uow, maps);
    out := Prepare(uow, maps, intent, granted, patchIntact, prepared);
    if out.Err? { return; }
    ApprovalParts(maps);
    DictsInAll(maps);
    var record := uow.publications.Get(intent.publicationId);
    if record.None? { return Err(Validation); }
    var saved := uow.publications.Verify(verification, record.value.version);
    if saved.Err? { out := Err(saved.error); }
  }

  /******* PublicationApprovalService *******/

  method ReviewerHolds(uow: Stores, ghost maps: Maps, intent: PublicationIntent, resultId: Text) returns (ok: bool)
    requires uow.BoundTo(maps)
    ensures ok == ReviewerEligible(maps.View(), intent, resultId)
    ensures maps.View() == old(maps.View()) && maps.All() == old(maps.All()) && maps.Valid() == old(maps.Valid())
  {
    hide Maps.View, Maps.All, Maps.Valid, Stores.BoundTo;
    LinkedHeads(uow, maps);
    LinkedSources(uow, maps);
    ApprovalParts(maps);
    var result := uow.workerResults.Get(resultId);
    if result.None? || result.value.taskId != intent.taskId || result.value.worker.role != PATCH_REVIEWER
       || result.value.target != READY_TO_PUBLISH
    {
      return false;
    }
    var session := uow.runnerSessions.Get(result.value.sessionId);
    if session.None? || session.value.request.taskId != intent.taskId || session.value.request.role != PATCH_REVIEWER
       || session.value.state != SUCCEEDED || result.value.sessionId != session.value.request.sessionId
    {
      return false;
    }
    var patch := uow.artifacts.Get(intent.patchDigest);
    ok := patch.Some? && patch.value.reference in session.value.request.inputArtifacts;
  }

  method Approve(uow: Stores, ghost maps: Maps, publicationId: Text, approvalId: Text, resultId: Text,
                 artifactDigest: Text, at: Time)
      returns (out: Outcome<(PublicationReviewDecision, bool)>)
    requires uow.BoundTo(maps) && maps.Valid()
    modifies maps.All()
    ensures maps.Valid() && forall o | o in maps.All() :: o in old(maps.All()) || fresh(o)
    ensures Step(maps.View(), out)
         == ApprovePublication(old(maps.View()), publicationId, approvalId, resultId, artifactDigest, at)
  {
    hide Maps.View, Maps.All, Maps.Valid, Stores.BoundTo, SuccessfullyVerified, TaskReady, ReviewerEligible,
         ApprovalAppend,
         PublicationReviewDecision.Accepted;
    LinkedHeads(uow, maps);
    LinkedWork(uow, maps);
    LinkedSources(uow, maps);
    WorkParts(maps);
    ApprovalParts(maps);
    VerifiedHeads(maps.View());
    if uow.fuse.Get().engaged { return Err(Validation); }
    var record := uow.publications.Get(publicationId);
    if record.None? || !SuccessfullyVerified(record.value) { return Err(Validation); }
    var task := uow.tasks.Get(record.value.intent.taskId);
    if task.None? || !TaskReady(task.value, record.value.intent) { return Err(Validation); }
    var holds := ReviewerHolds(uow, maps, record.value.intent, resultId);
    if !holds { return Err(Validation); }
    ApprovalParts(maps);
    ReviewerResult(maps.View(), record.value.intent, resultId);
    var result := uow.workerResults.Get(resultId);
    var artifact := uow.artifacts.Get(artifactDigest);
    if artifact.None? || artifact.value.sourceKind != OwnedBy(resultId) { return Err(Validation); }
    var decision := Decision(publicationId, record.value, approvalId, result.value, artifact.value.reference, at);
    if !decision.Accepted() { return Err(Validation); }
    DictsInAll(maps);
    out := uow.publicationApprovals.Append(decision);
  }

  lemma VerifiedHeads(db: Db)
    ensures forall id | id in db.publications && SuccessfullyVerified(db.publications[id]) ::
      db.publications[id].preparedHead.Some?
  {
  }

  lemma ReviewerResult(db: Db, intent: PublicationIntent, resultId: Text)
    requires ReviewerEligible(db, intent, resultId)
    ensures resultId in db.results
  {
  }

  /******* The transactions of publish *******/

  // Over the approvals read for this publication and head, the match on all six fields.
  predicate AnyExact(found: set<PublicationReviewDecision>, p: PublicationRecord)
    requires p.preparedHead.Some?
  {
    exists d | d in found :: d.decision == APPROVED && ExactHead(p, d)
  }

  lemma ReadApprovals(store: InMemoryPublicationApprovalStore, publicationId: Text, p: PublicationRecord)
    requires p.preparedHead.Some?
    ensures AnyExact(store.Read(publicationId, p.preparedHead.value.headSha), p)
         == ExactlyApproved(store.records.it, publicationId, p)
  {
    var found := store.Read(publicationId, p.preparedHead.value.headSha);
    var m := store.records.it;
    if ExactlyApproved(m, publicationId, p) {
      var k :| k in m && m[k].publicationId == publicationId && m[k].decision == APPROVED && ExactHead(p, m[k]);
      assert m[k] in found;
    }
    if AnyExact(found, p) {
      var d :| d in found && d.decision == APPROVED && ExactHead(p, d);
      var k :| k in m && m[k] == d && m[k].publicationId == publicationId;
    }
  }

  method RequestPublication(uow: Stores, ghost maps: Maps, publicationId: Text, effectId: Text)
        returns (out: Outcome<Begun>)
    requires uow.BoundTo(maps) && maps.Valid()
    modifies maps.All()
    ensures maps.Valid() && forall o | o in maps.All() :: o in old(maps.All()) || fresh(o)
    ensures Step(maps.View(), out) == Begin(old(maps.View()), publicationId, effectId)
  {
    hide Maps.View, Maps.All, Maps.Valid, Stores.BoundTo, SuccessfullyVerified, TaskReady, ExactlyApproved,
         EffectRequest,
         PublicationEffectIntent.Accepted;
    LinkedHeads(uow, maps);
    LinkedWork(uow, maps);
    WorkParts(maps);
    ApprovalParts(maps);
    VerifiedHeads(maps.View());
    DictsInAll(maps);
    if uow.fuse.Get().engaged { return Err(Validation); }
    var record := uow.publications.Get(publicationId);
    if record.None? || !SuccessfullyVerified(record.value) { return Err(Validation); }
    var task := uow.tasks.Get(record.value.intent.taskId);
    var prepared := record.value.preparedHead.value;
    if task.None? || !TaskReady(task.value, record.value.intent)
       || prepared.deterministicRef != PublicationRef(publicationId)
    {
      return Err(Validation);
    }
    var approvals := uow.publicationApprovals.Read(publicationId, prepared.headSha);
    ReadApprovals(uow.publicationApprovals, publicationId, record.value);
    if !AnyExact(approvals, record.value) { return Err(Validation); }
    var intent := EffectIntent(effectId, publicationId, prepared);
    if !intent.Accepted() { return Err(Validation); }
    var effect := uow.publicationEffects.Request(intent);
    if effect.Err? { return Err(effect.error); }
    if effect.value.0.receipt.Some? { return Ok(Finished(effect.value.0.receipt.value)); }
    out := Ok(Proceed(Job(record.value.intent, prepared, effect.value.0.intent)));
  }

  lemma ReconciledHasReceipt(db: Db, receipt: PublicationReceipt)
    ensures var r := db.ReconcileEffect(receipt).out; r.Ok? ==> r.value.receipt.Some?
  {
  }

  // Whether the block commits, and what it returns or raises.
  method StoreReceipt(uow: Stores, ghost maps: Maps, effectId: Text, job: Job, receipt: PublicationReceipt)
      returns (commit: bool, out: Settled)
    requires uow.BoundTo(maps) && maps.Valid()
    modifies maps.All()
    ensures maps.Valid() && forall o | o in maps.All() :: o in old(maps.All()) || fresh(o)
    ensures (maps.View(), out) == SettleReceipt(old(maps.View()), effectId, job, receipt)
    ensures !commit ==> out.Rejected? || maps.View() == old(maps.View())
    ensures commit ==> out.Settled?
  {
    hide Maps.View, Maps.All, Maps.Valid, Stores.BoundTo, EffectReconcile;
    LinkedHeads(uow, maps);
    WorkParts(maps);
    DictsInAll(maps);
    ReconciledHasReceipt(maps.View(), receipt);
    var current := uow.publicationEffects.Get(effectId);
    if current.None? || current.value.intent.Canonical() != job.effect.Canonical() { return false, Rejected(Drifted); }
    if current.value.receipt.Some? {
      if current.value.receipt.value.Canonical() != receipt.Canonical() { return false, Rejected(Conflicting); }
      return false, Settled(current.value.receipt.value);
    }
    var stored := uow.publicationEffects.Reconcile(receipt);
    if stored.Err? { return false, Rejected(Refused(stored.error)); }
    return true, Settled(stored.value.receipt.value);
  }

  method BeginBlock(uow: InMemoryUnitOfWork, publicationId: Text, effectId: Text) returns (out: Outcome<Begun>)
    requires uow.Settled()
    modifies uow
    ensures uow.Settled() && (uow.committed == old(uow.committed) || fresh(uow.committed.All()))
    ensures var b := Begin(old(uow.committed.View()), publicationId, effectId);
            && out == b.out
            && uow.committed.View() == if b.out.Ok? && b.out.value.Proceed? then b.db else old(uow.committed.View())
  {
    hide Maps.View, Maps.Valid, Maps.All, Stores.BoundTo, Begin;
    OldOnes(uow.committed);
    uow.Enter();
    out := RequestPublication(uow.stores, uow.bound, publicationId, effectId);
    NoneWritten(uow.committed);
    uow.Finish(out.Ok? && out.value.Proceed?);
  }

  method SettleBlock(uow: InMemoryUnitOfWork, effectId: Text, job: Job, receipt: PublicationReceipt)
        returns (out: Settled)
    requires uow.Settled()
    modifies uow
    ensures uow.Settled() && (uow.committed == old(uow.committed) || fresh(uow.committed.All()))
    ensures var s := SettleReceipt(old(uow.committed.View()), effectId, job, receipt);
            && out == s.1
            && uow.committed.View() == if s.1.Settled? then s.0 else old(uow.committed.View())
  {
    hide Maps.View, Maps.Valid, Maps.All, Stores.BoundTo, SettleReceipt;
    OldOnes(uow.committed);
    uow.Enter();
    var commit: bool;
    commit, out := StoreReceipt(uow.stores, uow.bound, effectId, job, receipt);
    NoneWritten(uow.committed);
    uow.Finish(commit);
  }

  /******* The transactions of check *******/

  method ReadState(uow: Stores, ghost maps: Maps, publicationId: Text, effectId: Text)
      returns (out: Outcome<(PublicationRecord, PublicationEffectRecord)>)
    requires uow.BoundTo(maps)
    ensures out == ValidatedState(maps.View(), publicationId, effectId)
    ensures maps.View() == old(maps.View()) && maps.All() == old(maps.All()) && maps.Valid() == old(maps.Valid())
  {
    hide Maps.View, Maps.All, Maps.Valid, Stores.BoundTo, SuccessfullyVerified, ReconciledTo;
    LinkedHeads(uow, maps);
    LinkedWork(uow, maps);
    WorkParts(maps);
    ApprovalParts(maps);
    VerifiedHeads(maps.View());
    if uow.fuse.Get().engaged { return Err(Validation); }
    var record := uow.publications.Get(publicationId);
    var effect := uow.publicationEffects.Get(effectId);
    if record.None? || !SuccessfullyVerified(record.value) { return Err(Validation); }
    if effect.None? || !ReconciledTo(effect.value, publicationId, record.value) { return Err(Validation); }
    out := Ok((record.value, effect.value));
  }

  // The rest of the loop's work, from the i-th observation.
  lemma AppendFrom(db: Db, os: seq<CheckRunObservation>, i: nat)
    requires i < |os|
    ensures AppendObservations(db, os[i..])
         == var a := db.AppendObservation(os[i]);
            if a.out.Err? then Raise(a.db, a.out.error) else AppendObservations(a.db, os[i + 1..])
  {
    assert os[i..][0] == os[i] && os[i..][1..] == os[i + 1..];
  }

  method AppendAll(uow: Stores, ghost maps: Maps, os: seq<CheckRunObservation>) returns (out: Outcome<()>)
    requires uow.BoundTo(maps) && maps.Valid()
    modifies maps.All()
    ensures maps.Valid() && forall o | o in maps.All() :: o in old(maps.All()) || fresh(o)
    ensures Step(maps.View(), out) == AppendObservations(old(maps.View()), os)
  {
    hide Maps.View, Maps.All, Maps.Valid, Stores.BoundTo, ObservationAppend, AppendObservations;
    LinkedHeads(uow, maps);
    var i := 0;
    assert os[0..] == os;
    while i < |os|
      invariant 0 <= i <= |os|
      invariant maps.Valid() && forall o | o in maps.All() :: o in old(maps.All()) || fresh(o)
      invariant AppendObservations(old(maps.View()), os) == AppendObservations(maps.View(), os[i..])
    {
      DictsInAll(maps);
      AppendFrom(maps.View(), os, i);
      var appended := uow.checkObservations.Append(os[i]);
      if appended.Err? { return Err(appended.error); }
      i := i + 1;
    }
    AppendNone(maps.View(), os[i..]);
    out := Ok(());
  }

  lemma AppendNone(db: Db, os: seq<CheckRunObservation>)
    requires os == []
    ensures AppendObservations(db, os) == Step(db, Ok(()))
  {
  }

  method RecordAll(uow: Stores, ghost maps: Maps, publicationId: Text, effectId: Text, headSha: Text,
                   effectCanonical: string,
                   os: seq<CheckRunObservation>) returns (out: Outcome<()>)
    requires uow.BoundTo(maps) && maps.Valid()
    modifies maps.All()
    ensures maps.Valid() && forall o | o in maps.All() :: o in old(maps.All()) || fresh(o)
    ensures Step(maps.View(), out)
         == RecordChecks(old(maps.View()), publicationId, effectId, headSha, effectCanonical, os)
  {
    hide Maps.View, Maps.All, Maps.Valid, Stores.BoundTo, ValidatedState, AppendObservations;
    StateHasHead(maps.View(), publicationId, effectId);
    var state := ReadState(uow, maps, publicationId, effectId);
    if state.Err? { return Err(state.error); }
    if state.value.0.preparedHead.value.headSha != headSha || state.value.1.intent.Canonical() != effectCanonical {
      return Err(IdempotencyConflict);
    }
    out := AppendAll(uow, maps, os);
  }

  lemma StateHasHead(db: Db, publicationId: Text, effectId: Text)
    ensures var v := ValidatedState(db, publicationId, effectId); v.Ok? ==> v.value.0.preparedHead.Some?
  {
  }

  method ReadBlock(uow: InMemoryUnitOfWork, publicationId: Text, effectId: Text)
      returns (out: Outcome<(PublicationRecord, PublicationEffectRecord)>)
    requires uow.Settled()
    modifies uow
    ensures uow.Settled() && uow.committed == old(uow.committed) && uow.committed.View() == old(uow.committed.View())
    ensures out == ValidatedState(old(uow.committed.View()), publicationId, effectId)
  {
    hide Maps.View, Maps.Valid, Maps.All, Stores.BoundTo, ValidatedState;
    OldOnes(uow.committed);
    uow.Enter();
    out := ReadState(uow.stores, uow.bound, publicationId, effectId);
    NoneWritten(uow.committed);
    uow.Exit();
  }

  method RecordBlock(uow: InMemoryUnitOfWork, publicationId: Text, effectId: Text, headSha: Text,
                     effectCanonical: string,
                     os: seq<CheckRunObservation>) returns (out: Outcome<()>)
    requires uow.Settled()
    modifies uow
    ensures uow.Settled() && (uow.committed == old(uow.committed) || fresh(uow.committed.All()))
    ensures var s := RecordChecks(old(uow.committed.View()), publicationId, effectId, headSha, effectCanonical, os);
            && out == s.out
            && uow.committed.View() == if s.out.Ok? then s.db else old(uow.committed.View())
  {
    hide Maps.View, Maps.Valid, Maps.All, Stores.BoundTo, RecordChecks;
    OldOnes(uow.committed);
    uow.Enter();
    out := RecordAll(uow.stores, uow.bound, publicationId, effectId, headSha, effectCanonical, os);
    NoneWritten(uow.committed);
    uow.Finish(out.Ok?);
  }

  lemma CheckSpeaks(db: Db, publicationId: Text, effectId: Text, os: Observed, required: seq<Text>)
    ensures var c := Check(db, db, publicationId, effectId, os, required);
            if c.out.Ok?
            then && Answers(db, publicationId, os, required, c.out.value)
                 && c.db == db.(observations := c.db.observations)
                 && Recorded(db.observations, c.db.observations, os)
            else c.db == db
  {
    hide RecordChecks, ValidatedState, Fold, Answers, Recorded;
    if Check(db, db, publicationId, effectId, os, required).out.Ok? {
      CheckAnswers(db, db, publicationId, effectId, os, required);
    } else {
      StateHasHead(db, publicationId, effectId);
    }
  }

  // The whole call when nothing else commits between its transactions.
  method CheckPublication(uow: InMemoryUnitOfWork, publicationId: Text, effectId: Text, os: Observed,
                          required: seq<Text>)
      returns (out: Outcome<CheckGateResult>)
    requires uow.Settled()
    modifies uow
    ensures uow.Settled() && (uow.committed == old(uow.committed) || fresh(uow.committed.All()))
    ensures Step(uow.committed.View(), out)
         == Check(old(uow.committed.View()), old(uow.committed.View()), publicationId, effectId, os, required)
    ensures var db, db' := old(uow.committed.View()), uow.committed.View();
            if out.Ok?
            then && Answers(db, publicationId, os, required, out.value)
                 && db' == db.(observations := db'.observations)
                 && Recorded(db.observations, db'.observations, os)
            else db' == db
  {
    hide Maps.View, Maps.Valid, Maps.All, Stores.BoundTo, RecordChecks, ValidatedState, Fold, Answers, Recorded;
    CheckSpeaks(uow.committed.View(), publicationId, effectId, os, required);
    StateHasHead(uow.committed.View(), publicationId, effectId);
    var state := ReadBlock(uow, publicationId, effectId);
    if state.Err? { return Err(state.error); }
    var head := state.value.0.preparedHead.value.headSha;
    label Read:
    OldOnes@Read(uow.committed);
    var collected := Collect(os, publicationId, head);
    NoneWritten@Read(uow.committed);
    if collected.Err? { return Err(collected.error); }
    label Collected:
    OldOnes@Collected(uow.committed);
    var passed := Decide(collected.value, required);
    NoneWritten@Collected(uow.committed);
    var recorded := RecordBlock(uow, publicationId, effectId, head, state.value.1.intent.Canonical(), os);
    if recorded.Err? { return Err(recorded.error); }
    out := Ok(CheckGateResult(publicationId, head, required, passed));
  }
}

// Approvals replayed through the two stores: the service calls only ever store decisions
// that name their artifact as the catalogue does.

module ApprovalReplay {
  import opened Json
  import opened Domain
  import opened Records
  import opened CanonicalForms
  import opened Ledgers
  import opened Database
  import opened LedgerInvariants
  import opened Services
  import opened Coupling
  import opened Publication
  import opened ServiceRuns
  import opened SqlLedgers
  import opened Unpublishable
  import opened Provenance
  import opened SampleNames
  import opened SamplePublication

  ghost predicate AllCatalogued(db: Db) {
    forall k | k in db.approvals :: NamedAsCatalogued(db.artifacts, db.approvals[k])
  }

  // Every decision that was not there before is named as the catalogue has it.
  ghost predicate NewlyCatalogued(a: Db, b: Db) {
    forall k | k in b.approvals ::
      (k in a.approvals && b.approvals[k] == a.approvals[k]) || NamedAsCatalogued(b.artifacts, b.approvals[k])
  }

  lemma NoneNewlyStored(a: Db, b: Db)
    requires b.approvals == a.approvals
    ensures NewlyCatalogued(a, b)
  {
  }

  /******* Which calls store a decision *******/

  lemma ResultKeepsApprovals(db: Db, r: WorkerResult, blob: Blob, request: ArtifactRequest, now: Time, attached: Stamp,
                             moved: Stamp)
    requires TasksOk(db.tasks) && PublishResult(db, r, blob, request, now, attached, moved).out.Ok?
    ensures PublishResult(db, r, blob, request, now, attached, moved).db.approvals == db.approvals
  {
    hide FileResult, TasksOk;
    if r.resultId !in db.results { FileResultReaches(db, r, blob, request, now, attached, moved); }
  }

  lemma WorkCallKeepsApprovals(w: World, c: Call)
    requires TasksOk(w.db.tasks) && !OnTasks(c) && !OnPublications(c) && ServeDb(w, c).1
    ensures ServeDb(w, c).0.approvals == w.db.approvals
  {
    hide TasksOk, RequestSession, RunWorker, PublishResult, Allocate, ReleaseAllocation, StaysHalted;
    match c
    case CallSession(r, stamp) => RequestRests(w.db, r, stamp);
    case CallRun(id, answer) => RunRests(w.db, id, answer);
    case CallResult(r, blob, request, now, attached, moved) =>
      ResultKeepsApprovals(w.db, r, blob, request, now, attached, moved);
    case CallAllocate(r, granted, stamp) => AllocateRests(w.db, w.manager, r, granted, stamp);
    case CallReleaseWorkspace(id, stamp) => ReleaseRests(w.db, w.manager, id, stamp);
  }

  lemma PreparedKeepsApprovals(db: Db, i: PublicationIntent, granted: bool, intact: bool, h: PreparedHead)
    ensures PreparePublication(db, i, granted, intact, h).db.approvals == db.approvals
  {
    hide Db.Reserve, Db.Prepare, PreparePreconditions;
    var r := db.Reserve(i);
    StagesKeepApprovals(db, i, h, 0);
    if r.out.Ok? { StagesKeepApprovals(r.db, i, h, r.out.value.0.version); }
  }

  lemma StagesKeepApprovals(db: Db, i: PublicationIntent, h: PreparedHead, n: nat)
    ensures db.Reserve(i).db.approvals == db.approvals && db.Prepare(h, n).db.approvals == db.approvals
  {
    hide PublicationReserve, RecordPrepared;
  }

  lemma PrepareKeepsApprovals(db: Db, i: PublicationIntent, granted: bool, intact: bool, h: PreparedHead,
                              v: VerificationResult)
    ensures NewlyCatalogued(db, PrepareAndVerify(db, i, granted, intact, h, v).db)
  {
    hide PreparePublication, RecordVerification, NewlyCatalogued;
    PreparedKeepsApprovals(db, i, granted, intact, h);
    NoneNewlyStored(db, PrepareAndVerify(db, i, granted, intact, h, v).db);
  }

  lemma BeginKeepsApprovals(db: Db, id: Text, effectId: Text)
    ensures NewlyCatalogued(db, Begin(db, id, effectId).db)
  {
    hide Db.RequestEffect, SuccessfullyVerified, TaskReady, ExactlyApproved, NewlyCatalogued;
    NoneNewlyStored(db, db);
    if id in db.publications && SuccessfullyVerified(db.publications[id]) {
      VerifiedHasHead(db.publications[id]);
      EffectsKeepApprovals(db, EffectIntent(effectId, id, db.publications[id].preparedHead.value));
      NoneNewlyStored(db, Begin(db, id, effectId).db);
    }
  }

  lemma VerifiedHasHead(p: PublicationRecord)
    requires SuccessfullyVerified(p)
    ensures p.preparedHead.Some?
  {
  }

  lemma EffectsKeepApprovals(db: Db, e: PublicationEffectIntent)
    ensures db.RequestEffect(e).db.approvals == db.approvals
  {
    hide EffectRequest;
  }

  lemma SettleKeepsApprovals(db: Db, effectId: Text, job: Job, receipt: PublicationReceipt)
    ensures NewlyCatalogued(db, SettleReceipt(db, effectId, job, receipt).0)
  {
    hide EffectReconcile, NewlyCatalogued;
    NoneNewlyStored(db, SettleReceipt(db, effectId, job, receipt).0);
  }

  lemma {:induction false} ObservationsKeepApprovals(db: Db, os: seq<CheckRunObservation>)
    ensures AppendObservations(db, os).db.approvals == db.approvals
    decreases |os|
  {
    hide ObservationAppend;
    if os != [] { ObservationsKeepApprovals(db.AppendObservation(os[0]).db, os[1..]); }
  }

  lemma ChecksKeepApprovals(db: Db, id: Text, effectId: Text, head: Text, canonical: string,
                            os: seq<CheckRunObservation>)
    ensures NewlyCatalogued(db, RecordChecks(db, id, effectId, head, canonical, os).db)
  {
    hide AppendObservations, ValidatedState, NewlyCatalogued;
    ObservationsKeepApprovals(db, os);
    NoneNewlyStored(db, RecordChecks(db, id, effectId, head, canonical, os).db);
  }

  // Approve passes on the catalogue's own reference.
  lemma ApproveCatalogues(db: Db, id: Text, approvalId: Text, resultId: Text, digest: Text, at: Time)
    requires ArtifactsOk(db.artifacts)
    ensures var a := ApprovePublication(db, id, approvalId, resultId, digest, at).db;
            a.artifacts == db.artifacts && NewlyCatalogued(db, a)
  {
    hide ApprovalReferences, ExactHead, ReviewerMatches, ReviewerEligible, SuccessfullyVerified, TaskReady;
    hide PublicationReviewDecision.Canonical, PublicationReviewDecision.Accepted;
  }

  lemma PublicationCallCatalogues(w: World, c: Call)
    requires ArtifactsOk(w.db.artifacts) && OnPublications(c)
    ensures NewlyCatalogued(w.db, ServeDb(w, c).0)
  {
    hide PrepareAndVerify, ApprovePublication, Begin, SettleReceipt, RecordChecks, NewlyCatalogued, ArtifactsOk;
    match c
    case CallPrepare(i, granted, intact, h, v) => PrepareKeepsApprovals(w.db, i, granted, intact, h, v);
    case CallApprove(id, approvalId, resultId, digest, at) =>
      ApproveCatalogues(w.db, id, approvalId, resultId, digest, at);
    case CallBegin(id, effectId) => BeginKeepsApprovals(w.db, id, effectId);
    case CallSettle(effectId, job, receipt) => SettleKeepsApprovals(w.db, effectId, job, receipt);
    case CallChecks(id, effectId, head, canonical, os) => ChecksKeepApprovals(w.db, id, effectId, head, canonical, os);
  }

  lemma CallCatalogues(w: World, c: Call)
    requires TasksOk(w.db.tasks) && ArtifactsOk(w.db.artifacts) && ServeDb(w, c).1
    ensures NewlyCatalogued(w.db, ServeDb(w, c).0)
  {
    hide TasksOk, ArtifactsOk, ServeDb, Rests, NewlyCatalogued;
    if OnTasks(c) {
      TaskCallRests(w, c);
      RestsApprovals(w.db, ServeDb(w, c).0);
      NoneNewlyStored(w.db, ServeDb(w, c).0);
    } else if OnPublications(c) {
      PublicationCallCatalogues(w, c);
    } else {
      WorkCallKeepsApprovals(w, c);
      NoneNewlyStored(w.db, ServeDb(w, c).0);
    }
  }

  /******* Runs *******/

  lemma CatalogueStays(a: Db, b: Db)
    requires AllCatalogued(a) && NewlyCatalogued(a, b) && SubMap(a.artifacts, b.artifacts)
    ensures AllCatalogued(b)
  {
  }

  lemma HealthyLedgers(w: World)
    requires Healthy(w)
    ensures Inv(w.db) && TasksOk(w.db.tasks) && ArtifactsOk(w.db.artifacts)
  {
    hide EventsOk, SourcesOk, WorkspacesOk, PublicationsOk, ApprovalsOk, EffectsOk, ObservationsOk;
  }

  lemma OnwardArtifacts(a: World, b: World)
    requires Onward(a, b)
    ensures SubMap(a.db.artifacts, b.db.artifacts)
  {
    hide Healthy, SubMap;
  }

  lemma ServeCatalogues(w: World, c: Call)
    requires Healthy(w) && Sound(w, c) && AllCatalogued(w.db)
    ensures AllCatalogued(Serve(w, c).db)
  {
    hide Healthy, Sound, ServeDb, ServeManager, AllCatalogued, TasksOk, ArtifactsOk, NewlyCatalogued, Inv, Onward,
         SubMap;
    if ServeDb(w, c).1 {
      HealthyLedgers(w);
      CallCatalogues(w, c);
      ServeOnward(w, c);
      OnwardArtifacts(w, Serve(w, c));
      CatalogueStays(w.db, Serve(w, c).db);
    }
  }

  lemma {:induction false} RunCatalogues(w: World, cs: seq<Call>)
    requires Healthy(w) && SoundRun(w, cs) && AllCatalogued(w.db)
    ensures Healthy(RunCalls(w, cs)) && AllCatalogued(RunCalls(w, cs).db)
  {
    hide Healthy, Sound, Serve, AllCatalogued, Extends, Kept;
    if cs != [] {
      RunCatalogues(w, cs[..|cs| - 1]);
      ServeCatalogues(RunCalls(w, cs[..|cs| - 1]), cs[|cs| - 1]);
      ServeOnward(RunCalls(w, cs[..|cs| - 1]), cs[|cs| - 1]);
    }
  }

  // After any run of service calls from a database whose approvals are catalogued, the two
  // approval stores answer every decision alike.
  lemma ServicesAnswerAlike(w: World, cs: seq<Call>, d: PublicationReviewDecision)
    requires Healthy(w) && SoundRun(w, cs) && AllCatalogued(w.db)
    ensures var db := RunCalls(w, cs).db;
            var rows := ApprovalRows(db.approvals);
            var sql := SqlApproval(rows, db.publications, db.artifacts, db.sessions, db.results, d);
            var memory := ApprovalAppend(db.approvals, db.publications, db.artifacts, db.sessions, db.results, d);
            sql.m == ApprovalRows(memory.m) && (sql.out.Ok? <==> memory.out.Ok?)
            && (sql.out.Ok? ==> sql.out.value == memory.out.value)
  {
    hide RunCalls, SoundRun, Healthy, SqlApproval, ApprovalAppend, Inv, NamedAsCatalogued, ApprovalRows;
    RunCatalogues(w, cs);
    HealthyLedgers(RunCalls(w, cs));
    ApprovalsAgree(RunCalls(w, cs).db, d);
  }

  /******* A decision that names its artifact otherwise *******/

  // The catalogued review under another logical name.
  function Renamed(): ArtifactRef { Review().(logicalName := T) }

  // Appended to the stores directly, such a decision is taken by both, and its replay is
  // answered with the name it came with by the one and with the catalogue's by the other.
  lemma AnswersDiffer() returns (ops: seq<StoreOp>)
    ensures AllConstructible(ops) && ArtifactAccepted(Renamed())
    ensures var db, d := Run(EMPTY, ops), Approval(Renamed());
            var rows := ApprovalRows(db.approvals);
            var sql := SqlApproval(rows, db.publications, db.artifacts, db.sessions, db.results, d);
            var memory := ApprovalAppend(db.approvals, db.publications, db.artifacts, db.sessions, db.results, d);
            && memory.out == Ok((d, false)) && sql.out.Ok? && sql.out.value.0 != d
  {
    hide Run, Inv, SqlApproval, ApprovalRows, PublicationReviewDecision.Canonical, Identifier, Sha, NamedAsCatalogued;
    NamesAccepted();
    ops := SourceOps() + PublicationOps(Renamed());
    ApprovedRun(Renamed());
    RunInv(ops);
    RenamedIsOther();
    ApprovalsAgree(Approved(Renamed()), Approval(Renamed()));
  }

  // The two print alike, since only the digest is printed.
  lemma DecisionsCollide() returns (a: PublicationReviewDecision, b: PublicationReviewDecision)
    ensures a.Accepted() && b.Accepted() && a != b && a.Canonical() == b.Canonical()
    ensures ArtifactAccepted(a.approvalArtifact) && ArtifactAccepted(b.approvalArtifact)
  {
    hide PublicationReviewDecision.Canonical, Identifier, Sha;
    NamesAccepted();
    a, b := Approval(Review()), Approval(Renamed());
    SameByDigest(a, b);
  }

  lemma RenamedIsOther()
    ensures Approved(Renamed()).approvals == map[T := Approval(Renamed())] && ArtifactAccepted(Renamed())
    ensures !NamedAsCatalogued(Approved(Renamed()).artifacts, Approval(Renamed()))
  {
    NamesAccepted();
    SupportedSource();
  }
}

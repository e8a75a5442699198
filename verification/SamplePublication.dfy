// A publication taken through the stores from empty to an approved, verified head.

module SamplePublication {
  import opened Json
  import opened Domain
  import opened Records
  import opened Ledgers
  import opened Database
  import opened LedgerInvariants
  import opened SampleNames

  /******* Records *******/

  function Patch(): ArtifactRef { ArtifactRef(ZeroDigest(), R, TEXT_DIFF) }

  function Review(): ArtifactRef { ArtifactRef(OneDigest(), R, R) }

  function ReadyTask(): Task {
    Task(T, TaskSource(R, R), RepositoryTarget(REPOSITORY, ZeroSha()), RiskAssessment(R0, R0, R0, None, None), 0,
         READY_TO_PUBLISH, 0, 0, [Patch()])
  }

  const WRITING := RunnerSessionRequest(S, T, IMPLEMENTER, 0, 0, [], 60, T)
  const WRITTEN := RunnerSessionOutcome(S, SUCCEEDED, R)
  const WORK := WorkerResult(R, S, T, WorkerIdentity(W, IMPLEMENTER), READY_TO_PUBLISH, R, 0, 0)

  function Reviewing(): RunnerSessionRequest { RunnerSessionRequest(W, T, PATCH_REVIEWER, 0, 0, [Patch()], 60, T) }

  const REVIEWED := RunnerSessionOutcome(W, SUCCEEDED, R)
  const REVIEW := WorkerResult(T, W, T, WorkerIdentity(W, PATCH_REVIEWER), READY_TO_PUBLISH, R, 0, 0)

  function Intent(): PublicationIntent {
    PublicationIntent(T, T, R, ZeroDigest(), REPOSITORY, ZeroSha(), 0, 0, T, T)
  }

  function Head(): PreparedHead {
    PreparedHead(T, ZeroDigest(), ZeroSha(), OneSha(), OneSha(), PublicationRef(T))
  }

  function Verdict(): VerificationResult {
    VerificationResult(T, OneSha(), Lit("sha256:") + ZeroDigest(), VERIFY_SUCCEEDED, CODE_PASSED)
  }

  // The reviewer's approval, naming its artifact as given.
  function Approval(artifact: ArtifactRef): PublicationReviewDecision {
    PublicationReviewDecision(T, T, T, W, T, artifact, ZeroDigest(), ZeroSha(), OneSha(), OneSha(), W, APPROVED, 0)
  }

  /******* The run *******/

  function SourceOps(): seq<StoreOp> {
    [CreateTask(ReadyTask()), RegisterArtifact(CatalogedArtifact(Patch(), R, OwnedBy(R), 1)),
     RegisterArtifact(CatalogedArtifact(Review(), R, OwnedBy(T), 1)),
     RecordSession(WRITING), SetOutcome(WRITTEN), RecordResult(WORK),
     RecordSession(Reviewing()), SetOutcome(REVIEWED), RecordResult(REVIEW)]
  }

  function PublicationOps(artifact: ArtifactRef): seq<StoreOp> {
    [Reserve(Intent()), Prepare(Head(), 0), Verify(Verdict(), 1), AppendApproval(Approval(artifact))]
  }

  function Catalogue(): Artifacts {
    map[][ZeroDigest() := CatalogedArtifact(Patch(), R, OwnedBy(R), 1)]
         [OneDigest() := CatalogedArtifact(Review(), R, OwnedBy(T), 1)]
  }

  function Supported(): Db {
    Worked(Worked(Listed(), WRITING, WRITTEN, WORK), Reviewing(), REVIEWED, REVIEW)
  }

  function Record(): PublicationRecord {
    PublicationRecord(Intent(), VERIFIED, 2, Some(Head()), Some(Verdict()))
  }

  function Approved(artifact: ArtifactRef): Db {
    Supported().(publications := map[][T := Record()], approvals := map[][T := Approval(artifact)])
  }

  lemma RunMore(db: Db, ops: seq<StoreOp>, op: StoreOp)
    ensures Run(db, ops + [op]) == Apply(Run(db, ops), op)
  {
    assert (ops + [op])[..|ops|] == ops;
  }

  lemma RunNothing(db: Db)
    ensures Run(db, []) == db
  {
  }

  lemma {:induction false} RunThen(db: Db, ops: seq<StoreOp>, more: seq<StoreOp>)
    ensures Run(db, ops + more) == Run(Run(db, ops), more)
  {
    hide Apply;
    if more == [] {
      assert ops + more == ops;
    } else {
      var n := |more| - 1;
      RunThen(db, ops, more[..n]);
      assert ops + more == (ops + more[..n]) + [more[n]];
      RunMore(db, ops + more[..n], more[n]);
    }
  }

  lemma StepTo(db: Db, ops: seq<StoreOp>, i: nat, a: Db, b: Db)
    requires i < |ops| && Run(db, ops[..i]) == a && Apply(a, ops[i]) == b
    ensures Run(db, ops[..i + 1]) == b
  {
    hide Apply;
    assert ops[..i + 1] == ops[..i] + [ops[i]];
    RunMore(db, ops[..i], ops[i]);
  }

  // A session is recorded and succeeds, and its result is recorded.
  function Worked(db: Db, request: RunnerSessionRequest, outcome: RunnerSessionOutcome, result: WorkerResult): Db {
    db.(sessions := db.sessions[request.sessionId := RunnerSessionRecord(request, outcome.state, Some(outcome))],
        results := db.results[result.resultId := result])
  }

  lemma SessionSteps(ops: seq<StoreOp>, i: nat, db: Db, request: RunnerSessionRequest, outcome: RunnerSessionOutcome)
    requires i + 1 < |ops| && Run(EMPTY, ops[..i]) == db
    requires ops[i] == RecordSession(request) && ops[i + 1] == SetOutcome(outcome)
    requires request.sessionId !in db.sessions && outcome.sessionId == request.sessionId
    ensures var record := RunnerSessionRecord(request, outcome.state, Some(outcome));
            Run(EMPTY, ops[..i + 2]) == db.(sessions := db.sessions[request.sessionId := record])
  {
    hide Run;
    var a := db.(sessions := db.sessions[request.sessionId := RunnerSessionRecord(request, REQUESTED, None)]);
    var record := RunnerSessionRecord(request, outcome.state, Some(outcome));
    var b := db.(sessions := db.sessions[request.sessionId := record]);
    assert a.sessions[request.sessionId := record] == b.sessions;
    StepTo(EMPTY, ops, i, db, a);
    StepTo(EMPTY, ops, i + 1, a, b);
  }

  lemma WorkSteps(ops: seq<StoreOp>, i: nat, db: Db, request: RunnerSessionRequest, outcome: RunnerSessionOutcome,
                  result: WorkerResult)
    requires i + 2 < |ops| && Run(EMPTY, ops[..i]) == db
    requires ops[i] == RecordSession(request) && ops[i + 1] == SetOutcome(outcome)
    requires ops[i + 2] == RecordResult(result)
    requires request.sessionId !in db.sessions && outcome.sessionId == request.sessionId
    requires result.resultId !in db.results
    ensures Run(EMPTY, ops[..i + 3]) == Worked(db, request, outcome, result)
  {
    hide Run;
    SessionSteps(ops, i, db, request, outcome);
    StepTo(EMPTY, ops, i + 2, Run(EMPTY, ops[..i + 2]), Worked(db, request, outcome, result));
  }

  function Listed(): Db { EMPTY.(tasks := map[][T := ReadyTask()], artifacts := Catalogue()) }

  lemma ListedSteps()
    ensures Run(EMPTY, SourceOps()[..3]) == Listed()
  {
    hide Run;
    var ops := SourceOps();
    var a := EMPTY.(tasks := map[][T := ReadyTask()]);
    var b := a.(artifacts := map[][ZeroDigest() := CatalogedArtifact(Patch(), R, OwnedBy(R), 1)]);
    NamesAccepted();
    assert Run(EMPTY, ops[..0]) == EMPTY by { RunNothing(EMPTY); }
    StepTo(EMPTY, ops, 0, EMPTY, a);
    StepTo(EMPTY, ops, 1, a, b);
    StepTo(EMPTY, ops, 2, b, Listed());
  }

  lemma SupportedSteps()
    ensures Run(EMPTY, SourceOps()) == Supported()
  {
    hide Run, Apply;
    ListedSteps();
    var ops := SourceOps();
    WorkSteps(ops, 3, Listed(), WRITING, WRITTEN, WORK);
    WorkSteps(ops, 6, Worked(Listed(), WRITING, WRITTEN, WORK), Reviewing(), REVIEWED, REVIEW);
    assert ops[..9] == ops;
  }

  function Reserved(): PublicationRecord { PublicationRecord(Intent(), RESERVED, 0, None, None) }

  function Prepared(): PublicationRecord { PublicationRecord(Intent(), PREPARED, 1, Some(Head()), None) }

  function Holding(p: PublicationRecord): Db { Supported().(publications := map[][T := p]) }

  lemma SupportedSource()
    ensures var db := Supported();
            && db.publications == map[] && db.approvals == map[] && db.tasks == map[T := ReadyTask()]
            && History(db.events, T) == [] && db.artifacts == Catalogue() && !db.fuse.engaged
            && db.sessions == map[S := RunnerSessionRecord(WRITING, SUCCEEDED, Some(WRITTEN)),
                                  W := RunnerSessionRecord(Reviewing(), SUCCEEDED, Some(REVIEWED))]
            && db.results == map[R := WORK, T := REVIEW]
  {
  }

  lemma ReserveTaken()
    ensures var db := Supported();
            var p := PublicationReserve(map[], db.tasks, db.events, db.artifacts, db.results, db.sessions, Intent());
            p.m == map[][T := Reserved()]
  {
    hide Supported;
    SupportedSource();
    NamesAccepted();
    var db := Supported();
    assert ReferencesValid(db.tasks, db.events, db.artifacts, db.results, db.sessions, Intent());
  }

  lemma ReserveStep()
    ensures Apply(Supported(), Reserve(Intent())) == Holding(Reserved())
  {
    hide Supported, PublicationReserve, Intent, Reserved;
    SupportedSource();
    ReserveTaken();
  }

  lemma PrepareStep()
    ensures Apply(Holding(Reserved()), Prepare(Head(), 0)) == Holding(Prepared())
  {
    hide Supported;
    assert (map[][T := Reserved()])[T := Prepared()] == map[][T := Prepared()];
  }

  lemma VerifyStep()
    ensures Apply(Holding(Prepared()), Verify(Verdict(), 1)) == Holding(Record())
  {
    hide Supported;
    assert (map[][T := Prepared()])[T := Record()] == map[][T := Record()];
  }

  lemma ApprovalTaken(artifact: ArtifactRef)
    requires artifact.digest == OneDigest()
    ensures var db, d := Supported(), Approval(artifact);
            var p := ApprovalAppend(map[], map[][T := Record()], db.artifacts, db.sessions, db.results, d);
            p.m == map[][T := d]
  {
    hide Supported;
    SupportedSource();
    var db, m := Supported(), map[][T := Record()];
    assert ApprovalReferences(m, db.artifacts, db.sessions, db.results, Approval(artifact));
    assert ReviewerMatches(db.sessions, db.results, Approval(artifact));
  }

  lemma ApprovalStep(artifact: ArtifactRef)
    requires artifact.digest == OneDigest()
    ensures Apply(Holding(Record()), AppendApproval(Approval(artifact))) == Approved(artifact)
  {
    hide Supported, ApprovalAppend, Record, Approval;
    SupportedSource();
    ApprovalTaken(artifact);
  }

  lemma PublicationSteps(artifact: ArtifactRef)
    requires artifact.digest == OneDigest()
    ensures Run(Supported(), PublicationOps(artifact)) == Approved(artifact)
  {
    hide Run, Apply, Supported, Holding, Approved;
    var db, ops := Supported(), PublicationOps(artifact);
    assert Run(db, ops[..0]) == db by { RunNothing(db); }
    ReserveStep();
    StepTo(db, ops, 0, db, Holding(Reserved()));
    PrepareStep();
    StepTo(db, ops, 1, Holding(Reserved()), Holding(Prepared()));
    VerifyStep();
    StepTo(db, ops, 2, Holding(Prepared()), Holding(Record()));
    ApprovalStep(artifact);
    StepTo(db, ops, 3, Holding(Record()), Approved(artifact));
    assert ops[..4] == ops;
  }

  // The whole run: every record passes its own constructor, and the approval is stored
  // with the artifact as the reviewer names it.
  lemma ApprovedRun(artifact: ArtifactRef)
    requires artifact.digest == OneDigest()
    ensures AllConstructible(SourceOps() + PublicationOps(artifact))
    ensures Run(EMPTY, SourceOps() + PublicationOps(artifact)) == Approved(artifact)
  {
    hide Run, Supported, Approved;
    SupportedSteps();
    PublicationSteps(artifact);
    RunThen(EMPTY, SourceOps(), PublicationOps(artifact));
    OpsConstructible(artifact);
  }

  lemma OpsConstructible(artifact: ArtifactRef)
    requires artifact.digest == OneDigest()
    ensures AllConstructible(SourceOps() + PublicationOps(artifact))
  {
    NamesAccepted();
    RepositoryNamed();
    assert Verdict().verifierImageDigest[|Lit("sha256:")|..] == ZeroDigest();
    hide Identifier, Sha, RepositoryName;
    var ops, more := SourceOps(), PublicationOps(artifact);
    forall i | 0 <= i < |ops + more| ensures Constructible((ops + more)[i]) {
      if i < |ops| { assert (ops + more)[i] == ops[i]; } else { assert (ops + more)[i] == more[i - |ops|]; }
    }
  }

  /******* A verification that failed *******/

  function Failure(): VerificationResult { Verdict().(status := VERIFY_FAILED, resultCode := CODE_FAILED) }

  function FailedRecord(): PublicationRecord {
    PublicationRecord(Intent(), VERIFIED, 2, Some(Head()), Some(Failure()))
  }

  function FailingOps(): seq<StoreOp> { [Reserve(Intent()), Prepare(Head(), 0), Verify(Failure(), 1)] }

  lemma FailureStep()
    ensures Apply(Holding(Prepared()), Verify(Failure(), 1)) == Holding(FailedRecord())
  {
    hide Supported;
    assert (map[][T := Prepared()])[T := FailedRecord()] == map[][T := FailedRecord()];
  }

  // The same run up to the verifier's answer, which is a refusal: the state is VERIFIED.
  lemma FailedButVerified()
    ensures Verdict().Accepted() && Failure().Accepted() && FailedRecord().state == VERIFIED
    ensures Run(EMPTY, SourceOps() + FailingOps()) == Holding(FailedRecord())
  {
    hide Run, Apply, Supported, Holding;
    var db, ops := Supported(), FailingOps();
    NamesAccepted();
    assert Verdict().verifierImageDigest[|Lit("sha256:")|..] == ZeroDigest();
    SupportedSteps();
    RunThen(EMPTY, SourceOps(), ops);
    assert Run(db, ops[..0]) == db by { RunNothing(db); }
    ReserveStep();
    StepTo(db, ops, 0, db, Holding(Reserved()));
    PrepareStep();
    StepTo(db, ops, 1, Holding(Reserved()), Holding(Prepared()));
    FailureStep();
    StepTo(db, ops, 2, Holding(Prepared()), Holding(FailedRecord()));
    assert ops[..3] == ops;
  }
}

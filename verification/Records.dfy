// The immutable records of the application layer: constructor checks and the
// canonical text each ledger compares on replay.

module Records {
  import opened Json
  import opened Domain

  /******* Field formats *******/

  predicate Alphanumeric(c: CodePoint) {
    '0' as int <= c <= '9' as int || 'A' as int <= c <= 'Z' as int || 'a' as int <= c <= 'z' as int
  }

  predicate Identifier(t: Text) {
    && 1 <= |t| <= 128
    && Alphanumeric(t[0])
    && forall i | 0 <= i < |t| :: Alphanumeric(t[i]) || t[i] in {'.' as int, '_' as int, ':' as int, '-' as int}
  }

  predicate Sha(t: Text, length: nat) {
    && |t| == length
    && forall i | 0 <= i < |t| :: '0' as int <= t[i] <= '9' as int || 'a' as int <= t[i] <= 'f' as int
  }

  // Either case.
  predicate HexDigit(c: CodePoint) {
    '0' as int <= c <= '9' as int || 'a' as int <= c <= 'f' as int || 'A' as int <= c <= 'F' as int
  }

  predicate LogicalName(t: Text) {
    && 1 <= |t| <= 128
    && Alphanumeric(t[0])
    && (forall i | 0 <= i < |t| :: Alphanumeric(t[i]) || t[i] in {'.' as int, '_' as int, '-' as int})
    && forall i | 0 <= i < |t| - 1 :: !(t[i] == '.' as int && t[i + 1] == '.' as int)
  }

  predicate ArtifactAccepted(a: ArtifactRef) { Sha(a.digest, 64) && LogicalName(a.logicalName) && a.mediaType != [] }

  predicate RepositoryPart(t: Text) {
    && t != []
    && (forall i | 0 <= i < |t| :: Alphanumeric(t[i]) || t[i] in {'.' as int, '_' as int, '-' as int})
    && forall i | 0 <= i < |t| - 1 :: !(t[i] == '.' as int && t[i + 1] == '.' as int)
  }

  predicate RepositoryName(t: Text) {
    && |t| <= 128
    && exists i | 0 <= i < |t| :: t[i] == '/' as int && RepositoryPart(t[..i]) && RepositoryPart(t[i + 1..])
  }

  function PublicationRef(publicationId: Text): Text {
    Lit("refs/heads/meta-loop/") + publicationId
  }

  function LegacyRef(publicationId: Text): Text {
    Lit("refs/meta-loop/") + publicationId
  }

  predicate KnownRef(publicationId: Text, ref: Text) {
    ref == PublicationRef(publicationId) || ref == LegacyRef(publicationId)
  }

  predicate WorkerRole(r: Role) { r in {PLANNER, DESIGN_REVIEWER, IMPLEMENTER, PATCH_REVIEWER} }

  /******* Printed names *******/

  function RoleName(r: Role): Text {
    match r
    case SYSTEM => Lit("system")
    case VALIDATOR => Lit("validator")
    case PLANNER => Lit("planner")
    case DESIGN_REVIEWER => Lit("design_reviewer")
    case IMPLEMENTER => Lit("implementer")
    case PATCH_REVIEWER => Lit("patch_reviewer")
  }

  function StatusName(s: TaskStatus): Text {
    match s
    case RECEIVED => Lit("received")
    case VALIDATED => Lit("validated")
    case PLANNED => Lit("planned")
    case DESIGN_REVIEW => Lit("design_review")
    case IMPLEMENTING => Lit("implementing")
    case PREFLIGHT => Lit("preflight")
    case PATCH_REVIEW => Lit("patch_review")
    case READY_TO_PUBLISH => Lit("ready_to_publish")
    case PROPOSAL_READY => Lit("proposal_ready")
    case REWORK_REQUIRED => Lit("rework_required")
    case BLOCKED => Lit("blocked")
    case FAILED => Lit("failed")
    case COMPLETED => Lit("completed")
  }

  function RiskName(r: RiskClass): Text {
    match r case R0 => Lit("R0") case R1 => Lit("R1") case R2 => Lit("R2") case R3 => Lit("R3")
  }

  // Stands in for datetime.isoformat, whose calendar arithmetic is not modelled.
  function IsoFormat(t: Time): Text { Lit(Decimal(t)) }

  function Field(key: string, value: Json): Member { Member(Lit(key), value) }

  function SchemaVersion(): Member { Field("schema_version", Number(1)) }

  function OptionalText(t: Option<Text>): Json {
    match t case Some(s) => Str(s) case None => Null
  }

  function ArtifactMembers(a: ArtifactRef): seq<Member> {
    [Field("digest", Str(Lit("sha256:") + a.digest)), Field("logical_name", Str(a.logicalName)),
     Field("media_type", Str(a.mediaType)), SchemaVersion()]
  }

  function ArtifactJson(a: ArtifactRef): Json { Obj(ArtifactMembers(a)) }

  function TextList(s: seq<Text>): seq<Json> { seq(|s|, i requires 0 <= i < |s| => Str(s[i])) }

  function ArtifactList(s: seq<ArtifactRef>): seq<Json> {
    seq(|s|, i requires 0 <= i < |s| => ArtifactJson(s[i]))
  }

  /******* Control records *******/

  datatype FuseState = FuseState(engaged: bool, changedAt: Time, governanceRevision: Option<Text>)

  datatype ControlEvent = ControlEvent(action: Text, occurredAt: Time, governanceRevision: Option<Text>)

  datatype IntakeRecord = IntakeRecord(requestId: Text, canonicalRequest: string, taskId: Text)

  datatype IssueIngestionRecord =
    IssueIngestionRecord(sourceKey: Text, canonicalRequest: string, taskId: Text, triggerEventId: Text)

  datatype CatalogedArtifact =
    CatalogedArtifact(reference: ArtifactRef, classification: Text, sourceKind: Text, sizeBytes: nat)

  /******* Requests for new tasks *******/

  datatype IntakeRequest = IntakeRequest(
    requestId: Text,
    sourceKind: Text,
    sourceReference: Text,
    repositoryName: Text,
    repositoryRevision: Text,
    proposedRisk: RiskClass,
    validatedRisk: RiskClass,
    effectiveRisk: RiskClass,
    governanceRevision: Option<Text>,
    enqueue: bool,
    priority: int)
  {
    function RepositoryMembers(): seq<Member> {
      [Field("name", Str(repositoryName)), Field("revision", Str(repositoryRevision))]
    }

    function RiskMembers(): seq<Member> {
      [Field("effective", Str(RiskName(effectiveRisk))),
       Field("governance_revision", OptionalText(governanceRevision)),
       Field("proposed", Str(RiskName(proposedRisk))),
       Field("validated", Str(RiskName(validatedRisk)))]
    }

    function SourceMembers(): seq<Member> {
      [Field("kind", Str(sourceKind)), Field("reference", Str(sourceReference))]
    }

    function Members(): seq<Member> {
      [Field("enqueue", Bool(enqueue)),
       Field("priority", Number(priority)),
       Field("repository", Obj(RepositoryMembers())),
       Field("request_id", Str(requestId)),
       Field("risk", Obj(RiskMembers())),
       SchemaVersion(),
       Field("source", Obj(SourceMembers()))]
    }

    function Canonical(): string { Encode(Obj(Members())) }
  }

  datatype IssueTaskSpec =
    IssueTaskSpec(objective: Text, acceptanceCriteria: seq<Text>, revision: Text, risk: RiskClass)
  {
    function Members(): seq<Member> {
      [Field("acceptance_criteria", Arr(TextList(acceptanceCriteria))),
       Field("objective", Str(objective)), Field("revision", Str(revision)), Field("risk", Str(RiskName(risk))),
       SchemaVersion()]
    }

    function Document(): Json { Obj(Members()) }
  }

  // The part of a source reference before its first '#'.
  function BeforeHash(s: Text): Text {
    if s == [] || s[0] == '#' as int then [] else [s[0]] + BeforeHash(s[1..])
  }

  datatype IssueCandidate = IssueCandidate(
    provider: Text,
    sourceKey: Text,
    sourceReference: Text,
    triggerEventId: Text,
    triggerActor: Text,
    triggerLabel: Text,
    occurredAt: Time,
    spec: IssueTaskSpec)
  {
    predicate Accepted() {
      && provider != [] && sourceKey != [] && sourceReference != [] && triggerEventId != []
      && triggerActor != [] && triggerLabel != [] && '#' as int in sourceReference
    }

    function Members(): seq<Member> {
      [Field("occurred_at", Str(IsoFormat(occurredAt))),
       Field("provider", Str(provider)),
       SchemaVersion(),
       Field("source_key", Str(sourceKey)),
       Field("source_reference", Str(sourceReference)),
       Field("spec", spec.Document()),
       Field("trigger_actor", Str(triggerActor)),
       Field("trigger_event_id", Str(triggerEventId)),
       Field("trigger_label", Str(triggerLabel))]
    }

    function Canonical(): string { Encode(Obj(Members())) }
  }

  /******* Runner sessions and worker results *******/

  datatype RunnerSessionState = REQUESTED | SUCCEEDED | FAILED_SESSION | CANCELLED

  datatype RunnerSessionRequest = RunnerSessionRequest(
    sessionId: Text,
    taskId: Text,
    role: Role,
    expectedTaskVersion: nat,
    expectedSequence: nat,
    inputArtifacts: seq<ArtifactRef>,
    timeoutSeconds: int,
    correlationId: Text)
  {
    predicate Accepted() {
      && sessionId != [] && taskId != [] && correlationId != []
      && WorkerRole(role) && 1 <= timeoutSeconds <= 3600
    }

    function Members(): seq<Member> {
      [Field("correlation_id", Str(correlationId)),
       Field("expected_sequence", Number(expectedSequence)),
       Field("expected_task_version", Number(expectedTaskVersion)),
       Field("input_artifacts", Arr(ArtifactList(inputArtifacts))),
       Field("role", Str(RoleName(role))),
       SchemaVersion(),
       Field("session_id", Str(sessionId)),
       Field("task_id", Str(taskId)),
       Field("timeout_seconds", Number(timeoutSeconds))]
    }

    function Canonical(): string { Encode(Obj(Members())) }
  }

  datatype RunnerSessionOutcome = RunnerSessionOutcome(sessionId: Text, state: RunnerSessionState, summary: Text) {
    predicate Accepted() { sessionId != [] && state != REQUESTED && 1 <= |summary| <= 512 }
  }

  datatype RunnerSessionRecord =
    RunnerSessionRecord(request: RunnerSessionRequest, state: RunnerSessionState, outcome: Option<RunnerSessionOutcome>)

  datatype RunnerSessionReceipt = RunnerSessionReceipt(sessionId: Text, state: RunnerSessionState, created: bool)

  datatype WorkerIdentity = WorkerIdentity(workerId: Text, role: Role)

  datatype WorkerResult = WorkerResult(
    resultId: Text,
    sessionId: Text,
    taskId: Text,
    worker: WorkerIdentity,
    target: TaskStatus,
    summary: Text,
    expectedTaskVersion: nat,
    expectedSequence: nat)
  {
    predicate Accepted() {
      && resultId != [] && sessionId != [] && taskId != [] && 1 <= |summary| <= 512
      && worker.workerId != [] && WorkerRole(worker.role)
    }

    function Members(): seq<Member> {
      [Field("expected_sequence", Number(expectedSequence)),
       Field("expected_task_version", Number(expectedTaskVersion)),
       Field("result_id", Str(resultId)),
       Field("role", Str(RoleName(worker.role))),
       SchemaVersion(),
       Field("session_id", Str(sessionId)),
       Field("summary", Str(summary)),
       Field("target", Str(StatusName(target))),
       Field("task_id", Str(taskId)),
       Field("worker_id", Str(worker.workerId))]
    }

    function Canonical(): string { Encode(Obj(Members())) }
  }

  /******* Workspaces *******/

  datatype WorkspacePurpose = PLANNING | REVIEW | PROPOSAL | IMPLEMENTATION

  datatype WorkspaceState = ACTIVE | RELEASED

  function PurposeName(p: WorkspacePurpose): Text {
    match p
    case PLANNING => Lit("planning")
    case REVIEW => Lit("review")
    case PROPOSAL => Lit("proposal")
    case IMPLEMENTATION => Lit("implementation")
  }

  datatype WorkspaceRequest = WorkspaceRequest(
    allocationId: Text,
    taskId: Text,
    role: Role,
    purpose: WorkspacePurpose,
    sourceRevision: Text,
    expectedTaskVersion: nat,
    expectedSequence: nat,
    correlationId: Text,
    governanceRevision: Option<Text>)
  {
    predicate Accepted() {
      && allocationId != [] && taskId != [] && correlationId != [] && WorkerRole(role)
      && |sourceRevision| >= 40 && forall i | 0 <= i < |sourceRevision| :: HexDigit(sourceRevision[i])
    }

    function Members(): seq<Member> {
      [Field("allocation_id", Str(allocationId)),
       Field("correlation_id", Str(correlationId)),
       Field("expected_sequence", Number(expectedSequence)),
       Field("expected_task_version", Number(expectedTaskVersion)),
       Field("governance_revision", OptionalText(governanceRevision)),
       Field("purpose", Str(PurposeName(purpose))),
       Field("role", Str(RoleName(role))),
       SchemaVersion(),
       Field("source_revision", Str(sourceRevision)),
       Field("task_id", Str(taskId))]
    }

    function Canonical(): string { Encode(Obj(Members())) }
  }

  datatype WorkspaceRecord =
    WorkspaceRecord(request: WorkspaceRequest, readOnly: bool, repositoryName: Text, state: WorkspaceState)

  /******* Publication *******/

  // PUBLISH_REQUESTED and PUBLISHED exist in the enumeration but nothing assigns them.
  datatype PublicationState = RESERVED | PREPARED | VERIFIED | PUBLISH_REQUESTED | PUBLISHED

  datatype VerificationStatus = VERIFY_SUCCEEDED | VERIFY_FAILED

  datatype VerificationResultCode = CODE_PASSED | CODE_FAILED | CODE_TIMEOUT | CODE_BLOCKED

  datatype CheckRunStatus = QUEUED | IN_PROGRESS | CHECK_COMPLETED

  datatype CheckRunConclusion =
    | SUCCESS | FAILURE | NEUTRAL | SKIPPED | CHECK_CANCELLED | TIMED_OUT | ACTION_REQUIRED

  datatype ReviewDecision = APPROVED | REJECTED

  function DecisionName(d: ReviewDecision): Text {
    if d == APPROVED then Lit("approved") else Lit("rejected")
  }

  datatype PublicationEffectState = EFFECT_REQUESTED | RECONCILED

  datatype PublicationIntent = PublicationIntent(
    publicationId: Text,
    taskId: Text,
    workerResultId: Text,
    patchDigest: Text,
    repositoryName: Text,
    baseSha: Text,
    expectedTaskVersion: nat,
    expectedSequence: nat,
    correlationId: Text,
    governanceRevision: Text)
  {
    predicate Accepted() {
      && Identifier(publicationId) && Identifier(taskId) && Identifier(workerResultId)
      && Identifier(correlationId) && Identifier(governanceRevision)
      && RepositoryName(repositoryName) && Sha(patchDigest, 64) && Sha(baseSha, 40)
    }

    function Members(): seq<Member> {
      [Field("base_sha", Str(baseSha)),
       Field("correlation_id", Str(correlationId)),
       Field("expected_sequence", Number(expectedSequence)),
       Field("expected_task_version", Number(expectedTaskVersion)),
       Field("governance_revision", Str(governanceRevision)),
       Field("patch_digest", Str(patchDigest)),
       Field("publication_id", Str(publicationId)),
       Field("repository_name", Str(repositoryName)),
       SchemaVersion(),
       Field("task_id", Str(taskId)),
       Field("worker_result_id", Str(workerResultId))]
    }

    function Canonical(): string { Encode(Obj(Members())) }
  }

  datatype PreparedHead = PreparedHead(
    publicationId: Text,
    patchDigest: Text,
    baseSha: Text,
    treeSha: Text,
    headSha: Text,
    deterministicRef: Text)
  {
    predicate Accepted() {
      && Identifier(publicationId) && Sha(patchDigest, 64)
      && Sha(baseSha, 40) && Sha(treeSha, 40) && Sha(headSha, 40)
      && KnownRef(publicationId, deterministicRef)
    }

    function Members(): seq<Member> {
      [Field("base_sha", Str(baseSha)),
       Field("deterministic_ref", Str(deterministicRef)),
       Field("head_sha", Str(headSha)),
       Field("patch_digest", Str(patchDigest)),
       Field("publication_id", Str(publicationId)),
       SchemaVersion(),
       Field("tree_sha", Str(treeSha))]
    }

    function Canonical(): string { Encode(Obj(Members())) }
  }

  datatype VerificationResult = VerificationResult(
    publicationId: Text,
    headSha: Text,
    verifierImageDigest: Text,
    status: VerificationStatus,
    resultCode: VerificationResultCode)
  {
    predicate Accepted() {
      && Identifier(publicationId) && Sha(headSha, 40)
      && Lit("sha256:") <= verifierImageDigest && Sha(verifierImageDigest[|Lit("sha256:")|..], 64)
      && (status == VERIFY_SUCCEEDED <==> resultCode == CODE_PASSED)
    }
  }

  datatype PublicationReviewDecision = PublicationReviewDecision(
    approvalId: Text,
    publicationId: Text,
    taskId: Text,
    sessionId: Text,
    resultId: Text,
    approvalArtifact: ArtifactRef,
    patchDigest: Text,
    baseSha: Text,
    treeSha: Text,
    headSha: Text,
    reviewerId: Text,
    decision: ReviewDecision,
    decidedAt: Time)
  {
    predicate Accepted() {
      && Identifier(approvalId) && Identifier(publicationId) && Identifier(taskId)
      && Identifier(sessionId) && Identifier(resultId) && Identifier(reviewerId)
      && Sha(approvalArtifact.digest, 64) && Sha(patchDigest, 64)
      && Sha(baseSha, 40) && Sha(treeSha, 40) && Sha(headSha, 40)
    }

    // Only the digest of the approval artifact is printed.
    function Members(): seq<Member> {
      [Field("approval_artifact_digest", Str(approvalArtifact.digest)),
       Field("approval_id", Str(approvalId)),
       Field("base_sha", Str(baseSha)),
       Field("decided_at", Str(IsoFormat(decidedAt))),
       Field("decision", Str(DecisionName(decision))),
       Field("head_sha", Str(headSha)),
       Field("patch_digest", Str(patchDigest)),
       Field("publication_id", Str(publicationId)),
       Field("result_id", Str(resultId)),
       Field("reviewer_id", Str(reviewerId)),
       SchemaVersion(),
       Field("session_id", Str(sessionId)),
       Field("task_id", Str(taskId)),
       Field("tree_sha", Str(treeSha))]
    }

    function Canonical(): string { Encode(Obj(Members())) }
  }

  datatype PullRequestReceipt = PullRequestReceipt(
    publicationId: Text,
    number: int,
    baseSha: Text,
    treeSha: Text,
    headSha: Text)
  {
    predicate Accepted() {
      && Identifier(publicationId) && number > 0
      && Sha(baseSha, 40) && Sha(treeSha, 40) && Sha(headSha, 40)
    }

    function Members(): seq<Member> {
      [Field("base_sha", Str(baseSha)),
       Field("head_sha", Str(headSha)),
       Field("publication_id", Str(publicationId)),
       Field("pull_request_number", Number(number)),
       SchemaVersion(),
       Field("tree_sha", Str(treeSha))]
    }
  }

  datatype PublicationReceipt = PublicationReceipt(
    publicationId: Text,
    effectId: Text,
    state: PublicationEffectState,
    pullRequest: Option<PullRequestReceipt>)
  {
    predicate Accepted() {
      && Identifier(publicationId) && Identifier(effectId)
      && (pullRequest.Some? ==> pullRequest.value.Accepted() && pullRequest.value.publicationId == publicationId)
      && (state == RECONCILED <==> pullRequest.Some?)
    }

    function Members(): seq<Member> {
      [Field("effect_id", Str(effectId)),
       Field("publication_id", Str(publicationId)),
       Field("pull_request", if pullRequest.Some? then Obj(pullRequest.value.Members()) else Null),
       SchemaVersion(),
       Field("state", Str(if state == RECONCILED then Lit("reconciled") else Lit("requested")))]
    }

    function Canonical(): string { Encode(Obj(Members())) }
  }

  function CheckStatusName(s: CheckRunStatus): Text {
    match s case QUEUED => Lit("queued") case IN_PROGRESS => Lit("in_progress") case CHECK_COMPLETED => Lit("completed")
  }

  function ConclusionName(c: CheckRunConclusion): Text {
    match c
    case SUCCESS => Lit("success")
    case FAILURE => Lit("failure")
    case NEUTRAL => Lit("neutral")
    case SKIPPED => Lit("skipped")
    case CHECK_CANCELLED => Lit("cancelled")
    case TIMED_OUT => Lit("timed_out")
    case ACTION_REQUIRED => Lit("action_required")
  }

  datatype CheckRunObservation = CheckRunObservation(
    publicationId: Text,
    headSha: Text,
    checkName: Text,
    status: CheckRunStatus,
    conclusion: Option<CheckRunConclusion>,
    observedAt: Time)
  {
    predicate Accepted() {
      && Identifier(publicationId) && Sha(headSha, 40) && Identifier(checkName)
      && (status == CHECK_COMPLETED <==> conclusion.Some?)
    }

    function Members(): seq<Member> {
      [Field("check_name", Str(checkName)),
       Field("conclusion", if conclusion.Some? then Str(ConclusionName(conclusion.value)) else Null),
       Field("head_sha", Str(headSha)),
       Field("observed_at", Str(IsoFormat(observedAt))),
       Field("publication_id", Str(publicationId)),
       SchemaVersion(),
       Field("status", Str(CheckStatusName(status)))]
    }

    function Canonical(): string { Encode(Obj(Members())) }
  }

  datatype CheckGateResult =
    CheckGateResult(publicationId: Text, headSha: Text, requiredChecks: seq<Text>, passed: bool)

  datatype PublicationRecord = PublicationRecord(
    intent: PublicationIntent,
    state: PublicationState,
    version: nat,
    preparedHead: Option<PreparedHead>,
    verification: Option<VerificationResult>)
  {
    predicate Accepted() {
      && (preparedHead.Some? ==> preparedHead.value.publicationId == intent.publicationId)
      && (verification.Some? ==> preparedHead.Some? && verification.value.headSha == preparedHead.value.headSha)
    }
  }

  datatype PublicationEffectIntent =
    PublicationEffectIntent(effectId: Text, publicationId: Text, headSha: Text, deterministicRef: Text)
  {
    predicate Accepted() {
      && Identifier(effectId) && Identifier(publicationId) && Sha(headSha, 40)
      && KnownRef(publicationId, deterministicRef)
    }

    function Members(): seq<Member> {
      [Field("deterministic_ref", Str(deterministicRef)),
       Field("effect_id", Str(effectId)),
       Field("head_sha", Str(headSha)),
       Field("publication_id", Str(publicationId)),
       SchemaVersion()]
    }

    function Canonical(): string { Encode(Obj(Members())) }
  }

  datatype PublicationEffectRecord =
    PublicationEffectRecord(intent: PublicationEffectIntent, receipt: Option<PublicationReceipt>)
  {
    predicate Accepted() {
      receipt.Some? ==> receipt.value.publicationId == intent.publicationId && receipt.value.effectId == intent.effectId
    }
  }
}

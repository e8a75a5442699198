// Enumerations, errors, events and the Task state machine of the domain layer.

module Domain {
  import opened Json

  type Time = int

  datatype Option<+T> = None | Some(value: T)

  datatype RiskClass = R0 | R1 | R2 | R3

  datatype Role = SYSTEM | VALIDATOR | PLANNER | DESIGN_REVIEWER | IMPLEMENTER | PATCH_REVIEWER

  datatype TaskStatus =
    | RECEIVED | VALIDATED | PLANNED | DESIGN_REVIEW | IMPLEMENTING | PREFLIGHT | PATCH_REVIEW
    | READY_TO_PUBLISH | PROPOSAL_READY | REWORK_REQUIRED | BLOCKED | FAILED | COMPLETED

  datatype EventType =
    | TASK_RECEIVED | TASK_TRANSITIONED | TASK_BLOCKED | REVIEW_REWORK_REQUIRED | ARTIFACT_REGISTERED
    | RUNNER_SESSION_REQUESTED | WORKSPACE_ALLOCATED | WORKSPACE_RELEASED | SOURCE_INGESTED

  datatype Error =
    | Validation | OptimisticConflict | CreateConflict | IdempotencyConflict | SequenceConflict
    | LeaseLost | TaskNotFound | UnsupportedGovernance | InvalidTransition | MissingKey

  // What a call returns or raises.
  datatype Outcome<+T> = Ok(value: T) | Err(error: Error)

  datatype ArtifactRef = ArtifactRef(digest: Text, logicalName: Text, mediaType: Text)

  datatype Event = Event(
    eventId: Text,
    taskId: Text,
    kind: EventType,
    occurredAt: Time,
    actor: Role,
    payload: Json,
    causationId: Option<Text>,
    correlationId: Text,
    sequence: nat)

  datatype TaskSource = TaskSource(kind: Text, reference: Text)

  datatype RepositoryTarget = RepositoryTarget(name: Text, revision: Text)

  datatype RiskAssessment = RiskAssessment(
    proposed: RiskClass,
    validated: RiskClass,
    effective: RiskClass,
    escalationReason: Option<Text>,
    governanceRevision: Option<Text>)

  function Rank(r: RiskClass): nat {
    match r case R0 => 0 case R1 => 1 case R2 => 2 case R3 => 3
  }

  predicate Given(t: Option<Text>) { t.Some? && t.value != [] }

  predicate RiskAccepted(r: RiskAssessment) {
    && Rank(r.effective) >= Rank(r.validated)
    && Rank(r.effective) >= Rank(r.proposed)
    && (r.effective != r.proposed ==> Given(r.escalationReason))
  }

  predicate SourceAccepted(s: TaskSource) { s.kind != [] && s.reference != [] }

  predicate RepositoryAccepted(r: RepositoryTarget) {
    r.name != [] && r.revision != [] && r.name[0] != '/' as int && r.name[0] != '\\' as int
  }

  datatype Task = Task(
    taskId: Text,
    source: TaskSource,
    repository: RepositoryTarget,
    risk: RiskAssessment,
    createdAt: Time,
    status: TaskStatus,
    version: nat,
    reworkRound: nat,
    artifacts: seq<ArtifactRef>)
  {
    static function Create(taskId: Text, source: TaskSource, repository: RepositoryTarget,
                           risk: RiskAssessment, createdAt: Time): Outcome<Task>
    {
      if taskId == [] || !SourceAccepted(source) || !RepositoryAccepted(repository) || !RiskAccepted(risk)
      then Err(Validation)
      else Ok(Task(taskId, source, repository, risk, createdAt, RECEIVED, 0, 0, []))
    }

    predicate Terminal() { status in {FAILED, COMPLETED} }

    function Move(target: TaskStatus): Task {
      this.(status := target, version := version + 1)
    }

    function Transition(target: TaskStatus, actor: Role): Outcome<Task> {
      if Terminal() then Err(InvalidTransition)
      else if target in {FAILED, BLOCKED, COMPLETED} then Err(InvalidTransition)
      else if status == DESIGN_REVIEW && target == PROPOSAL_READY then
        if actor == DESIGN_REVIEWER && risk.effective == R3 then Ok(Move(target)) else Err(InvalidTransition)
      else if status == DESIGN_REVIEW && target == IMPLEMENTING && risk.effective == R3 then Ok(Move(BLOCKED))
      else if Allowed(status) != Some((target, actor)) then Err(InvalidTransition)
      else if target in {IMPLEMENTING, READY_TO_PUBLISH} && !Given(risk.governanceRevision) then Ok(Move(BLOCKED))
      else Ok(Move(target))
    }

    function Block(): Outcome<Task> {
      if Terminal() then Err(InvalidTransition) else Ok(Move(BLOCKED))
    }

    function Fail(actor: Role): Outcome<Task> {
      if Terminal() || actor != SYSTEM then Err(InvalidTransition) else Ok(Move(FAILED))
    }

    function RequestRework(actor: Role): Outcome<Task> {
      if actor !in {DESIGN_REVIEWER, PATCH_REVIEWER} then Err(InvalidTransition)
      else
        var next := reworkRound + 1;
        Ok(Move(if next >= 3 then BLOCKED else REWORK_REQUIRED).(reworkRound := next))
    }

    function RestartRework(actor: Role): Outcome<Task> {
      if status != REWORK_REQUIRED || actor != PLANNER then Err(InvalidTransition) else Ok(Move(PLANNED))
    }

    function Unblock(actor: Role): Outcome<Task> {
      if status != BLOCKED || actor != VALIDATOR then Err(InvalidTransition) else Ok(Move(VALIDATED))
    }

    function AttachArtifact(artifact: ArtifactRef): Task {
      if artifact in artifacts then this
      else this.(artifacts := artifacts + [artifact], version := version + 1)
    }
  }

  // The role-checked forward transitions.
  function Allowed(s: TaskStatus): Option<(TaskStatus, Role)> {
    match s
    case RECEIVED => Some((VALIDATED, VALIDATOR))
    case VALIDATED => Some((PLANNED, PLANNER))
    case PLANNED => Some((DESIGN_REVIEW, DESIGN_REVIEWER))
    case DESIGN_REVIEW => Some((IMPLEMENTING, IMPLEMENTER))
    case IMPLEMENTING => Some((PREFLIGHT, IMPLEMENTER))
    case PREFLIGHT => Some((PATCH_REVIEW, PATCH_REVIEWER))
    case PATCH_REVIEW => Some((READY_TO_PUBLISH, PATCH_REVIEWER))
    case _ => None
  }
}

// Every run of Task operations: what a status says about the risk, the rework
// bound, the terminal states, and the only road to READY_TO_PUBLISH.

module TaskLifecycle {
  import opened Json
  import opened Domain

  datatype Call =
    | Transition(target: TaskStatus, actor: Role)
    | Block
    | Fail(actor: Role)
    | RequestRework(actor: Role)
    | RestartRework(actor: Role)
    | Unblock(actor: Role)
    | AttachArtifact(artifact: ArtifactRef)

  function Perform(t: Task, c: Call): Outcome<Task> {
    match c
    case Transition(target, actor) => t.Transition(target, actor)
    case Block => t.Block()
    case Fail(actor) => t.Fail(actor)
    case RequestRework(actor) => t.RequestRework(actor)
    case RestartRework(actor) => t.RestartRework(actor)
    case Unblock(actor) => t.Unblock(actor)
    case AttachArtifact(artifact) => Ok(t.AttachArtifact(artifact))
  }

  // A rejected call leaves the (immutable) task as it was.
  function After(t: Task, c: Call): Task {
    match Perform(t, c) case Ok(u) => u case Err(_) => t
  }

  function Run(t: Task, calls: seq<Call>): Task {
    if calls == [] then t
    else After(Run(t, calls[..|calls| - 1]), calls[|calls| - 1])
  }

  ghost predicate New(t: Task) {
    t.status == RECEIVED && t.version == 0 && t.reworkRound == 0 && t.artifacts == []
  }

  lemma CreatedIsNew(taskId: Text, source: TaskSource, repository: RepositoryTarget,
                     risk: RiskAssessment, at: Time)
    ensures var r := Task.Create(taskId, source, repository, risk, at);
            && (r.Ok? <==>
                  && taskId != [] && source.kind != [] && source.reference != [] && RepositoryAccepted(repository)
                  && RiskAccepted(risk))
            && (r.Ok? ==>
                  && New(r.value) && r.value.taskId == taskId && r.value.createdAt == at
                  && r.value.source == source && r.value.repository == repository && r.value.risk == risk)
  {
  }

  /******* Single calls *******/

  // The call is accepted and leads to this status.
  ghost predicate Leads(t: Task, c: Call, s: TaskStatus) {
    var live := t.status != FAILED && t.status != COMPLETED;
    var governed := t.risk.governanceRevision.Some? && t.risk.governanceRevision.value != [];
    match c
    case Transition(target, actor) =>
      || (t.status == RECEIVED && target == s == VALIDATED && actor == VALIDATOR)
      || (t.status == VALIDATED && target == s == PLANNED && actor == PLANNER)
      || (t.status == PLANNED && target == s == DESIGN_REVIEW && actor == DESIGN_REVIEWER)
      || (t.status == DESIGN_REVIEW && t.risk.effective == R3 && target == s == PROPOSAL_READY
          && actor == DESIGN_REVIEWER)
      || (t.status == DESIGN_REVIEW && t.risk.effective == R3 && target == IMPLEMENTING && s == BLOCKED)
      || (t.status == DESIGN_REVIEW && t.risk.effective != R3 && target == IMPLEMENTING && actor == IMPLEMENTER
          && s == if governed then IMPLEMENTING else BLOCKED)
      || (t.status == IMPLEMENTING && target == s == PREFLIGHT && actor == IMPLEMENTER)
      || (t.status == PREFLIGHT && target == s == PATCH_REVIEW && actor == PATCH_REVIEWER)
      || (t.status == PATCH_REVIEW && target == READY_TO_PUBLISH && actor == PATCH_REVIEWER
          && s == if governed then READY_TO_PUBLISH else BLOCKED)
    case Block => live && s == BLOCKED
    case Fail(actor) => live && actor == SYSTEM && s == FAILED
    case RequestRework(actor) =>
      actor in {DESIGN_REVIEWER, PATCH_REVIEWER} && s == if t.reworkRound < 2 then REWORK_REQUIRED else BLOCKED
    case RestartRework(actor) => t.status == REWORK_REQUIRED && actor == PLANNER && s == PLANNED
    case Unblock(actor) => t.status == BLOCKED && actor == VALIDATOR && s == VALIDATED
    case AttachArtifact(_) => s == t.status
  }

  // Which call takes which task where; a status is reached by no other call.
  lemma CallsExactly(t: Task, c: Call, s: TaskStatus)
    ensures Perform(t, c).Ok? && After(t, c).status == s <==> Leads(t, c, s)
    ensures After(t, c).reworkRound == t.reworkRound + if c.RequestRework? && Perform(t, c).Ok? then 1 else 0
  {
  }

  /******* Risk and governance *******/

  ghost predicate Governed(t: Task) {
    && t.status != COMPLETED
    && (t.status in {IMPLEMENTING, PREFLIGHT, PATCH_REVIEW, READY_TO_PUBLISH} ==>
          t.risk.effective != R3 && Given(t.risk.governanceRevision))
    && (t.status == PROPOSAL_READY ==> t.risk.effective == R3)
  }

  ghost predicate SameIdentity(t: Task, u: Task) {
    && u.taskId == t.taskId && u.source == t.source && u.repository == t.repository
    && u.risk == t.risk && u.createdAt == t.createdAt
  }

  lemma GovernedStep(t: Task, c: Call)
    requires Governed(t)
    ensures Governed(After(t, c)) && SameIdentity(t, After(t, c))
  {
  }

  // From creation, by any calls: implementation statuses need a non-R3 risk with a
  // governance revision, proposals are R3, nothing completes, and the identity,
  // source, repository and risk of the task never change.
  lemma {:induction false} StatusesAreGoverned(t: Task, calls: seq<Call>)
    requires New(t)
    ensures Governed(Run(t, calls)) && SameIdentity(t, Run(t, calls))
  {
    if calls != [] {
      var n := |calls| - 1;
      StatusesAreGoverned(t, calls[..n]);
      GovernedStep(Run(t, calls[..n]), calls[n]);
    }
  }

  /******* Rework bound *******/

  // How many calls of the run produced REWORK_REQUIRED.
  function Reworks(t: Task, calls: seq<Call>): nat {
    if calls == [] then 0
    else
      var n := |calls| - 1;
      var before := Run(t, calls[..n]);
      Reworks(t, calls[..n])
      + (if calls[n].RequestRework? && Perform(before, calls[n]).Ok?
            && Perform(before, calls[n]).value.status == REWORK_REQUIRED then 1 else 0)
  }

  lemma {:induction false} ReworksCounted(t: Task, calls: seq<Call>)
    requires New(t)
    ensures Reworks(t, calls) == if Run(t, calls).reworkRound <= 2 then Run(t, calls).reworkRound else 2
  {
    if calls != [] { ReworksCounted(t, calls[..|calls| - 1]); }
  }

  // Unblocking never restores a rework round.
  lemma AtMostTwoReworks(t: Task, calls: seq<Call>)
    requires New(t)
    ensures Reworks(t, calls) <= 2
  {
    ReworksCounted(t, calls);
  }

  /******* Failure *******/

  // A failed task leaves FAILED exactly through a reviewer's rework request, which
  // has no terminal check.
  lemma OnlyReworkLeavesFailed(t: Task, c: Call)
    requires t.status == FAILED
    ensures After(t, c).status != FAILED <==> c.RequestRework? && c.actor in {DESIGN_REVIEWER, PATCH_REVIEWER}
  {
  }

  lemma FailedCanLeave(t: Task)
    requires t.status == FAILED && t.reworkRound == 0
    ensures After(t, RequestRework(PATCH_REVIEWER)).status == REWORK_REQUIRED
  {
  }

  /******* The road to READY_TO_PUBLISH *******/

  // One accepted call, with the status it was made in.
  datatype Stride = Stride(from: TaskStatus, call: Call)

  predicate Strides(t: Task, c: Call) {
    !c.AttachArtifact? && Perform(t, c).Ok?
  }

  // The accepted calls of a run, artifact attachments left out.
  function Trail(t: Task, calls: seq<Call>): seq<Stride> {
    if calls == [] then []
    else
      var n := |calls| - 1;
      var before := Run(t, calls[..n]);
      Trail(t, calls[..n])
      + (if Strides(before, calls[n]) then [Stride(before.status, calls[n])] else [])
  }

  const ROAD: seq<Stride> := [
    Stride(PLANNED, Transition(DESIGN_REVIEW, DESIGN_REVIEWER)),
    Stride(DESIGN_REVIEW, Transition(IMPLEMENTING, IMPLEMENTER)),
    Stride(IMPLEMENTING, Transition(PREFLIGHT, IMPLEMENTER)),
    Stride(PREFLIGHT, Transition(PATCH_REVIEW, PATCH_REVIEWER)),
    Stride(PATCH_REVIEW, Transition(READY_TO_PUBLISH, PATCH_REVIEWER))]

  // Over any run the version counts the accepted calls and the artifacts attached.
  lemma {:induction false} VersionsCount(t: Task, calls: seq<Call>)
    requires New(t)
    ensures Run(t, calls).version == |Trail(t, calls)| + |Run(t, calls).artifacts|
  {
    if calls != [] { VersionsCount(t, calls[..|calls| - 1]); }
  }

  // How many steps of the road a status has behind it.
  function Stage(s: TaskStatus): nat {
    match s
    case DESIGN_REVIEW => 1
    case IMPLEMENTING => 2
    case PREFLIGHT => 3
    case PATCH_REVIEW => 4
    case READY_TO_PUBLISH => 5
    case _ => 0
  }

  ghost predicate EndsWith<T>(s: seq<T>, suffix: seq<T>) {
    |suffix| <= |s| && s[|s| - |suffix|..] == suffix
  }

  lemma OneStride(t: Task, c: Call)
    requires Strides(t, c) && Stage(After(t, c).status) > 0
    ensures var k := Stage(After(t, c).status);
            Stage(t.status) == k - 1 && Stride(t.status, c) == ROAD[k - 1]
  {
  }

  lemma StandStill(t: Task, c: Call)
    requires !Strides(t, c)
    ensures After(t, c).status == t.status
  {
  }

  lemma {:induction false} RoadTravelled(t: Task, calls: seq<Call>)
    requires New(t)
    ensures EndsWith(Trail(t, calls), ROAD[..Stage(Run(t, calls).status)])
  {
    if calls != [] {
      var n := |calls| - 1;
      RoadTravelled(t, calls[..n]);
      var before := Run(t, calls[..n]);
      if !Strides(before, calls[n]) {
        StandStill(before, calls[n]);
      } else if Stage(Run(t, calls).status) > 0 {
        OneStride(before, calls[n]);
        var k := Stage(Run(t, calls).status);
        assert ROAD[..k] == ROAD[..k - 1] + [ROAD[k - 1]];
      }
    }
  }

  // A run at READY_TO_PUBLISH ends with the five role-checked steps from PLANNED,
  // with nothing but artifact attachments and rejected calls in between.
  lemma ReadyMeansReviewed(t: Task, calls: seq<Call>)
    requires New(t) && Run(t, calls).status == READY_TO_PUBLISH
    ensures EndsWith(Trail(t, calls), ROAD)
  {
    RoadTravelled(t, calls);
    assert ROAD[..5] == ROAD;
  }
}

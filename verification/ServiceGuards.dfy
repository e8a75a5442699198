// When the remaining services return, condition by condition, and what they write.

module ServiceGuards {
  import opened Json
  import opened Domain
  import opened Records
  import opened CanonicalForms
  import opened Ledgers
  import opened Database
  import opened LedgerInvariants
  import opened Services
  import opened Coupling
  import opened ServiceRuns
  import opened ServiceOutcomes
  import opened ResultOutcomes
  import Queue

  // The task stands at this version and number of events.
  ghost predicate Stands(db: Db, id: Text, version: nat, sequence: nat) {
    && id in db.tasks && db.tasks[id].version == version
    && (if id in db.events then |db.events[id]| else 0) == sequence
  }

  ghost predicate Live(task: Task) { task.status != FAILED && task.status != COMPLETED }

  ghost predicate GivenText(t: Option<Text>) { t.Some? && t.value != [] }

  // One more event on one task, and nothing else but the named ledgers.
  ghost predicate OneEvent(db: Db, db': Db, e: Event) {
    && History(db'.events, e.taskId) == History(db.events, e.taskId) + [e]
    && (forall id | id != e.taskId :: History(db'.events, id) == History(db.events, id))
    && db'.eventIds == db.eventIds[e.eventId := e]
  }

  lemma AppendedIsOne(db: Db, e: Event)
    ensures OneEvent(db, Appended(db, e), e)
  {
  }

  // The task in this version, and its event.
  ghost predicate TaskWritten(db: Db, db': Db, x: Task, e: Event) {
    && db' == db.(tasks := db.tasks[x.taskId := x], events := db'.events, eventIds := db'.eventIds)
    && OneEvent(db, db', e)
  }

  // The workspace record, and its event.
  ghost predicate WorkspaceWritten(db: Db, db': Db, id: Text, w: WorkspaceRecord, e: Event) {
    && db' == db.(workspaces := db.workspaces[id := w], events := db'.events, eventIds := db'.eventIds)
    && OneEvent(db, db', e)
  }

  /******* Task transitions *******/

  // The guarded targets need a governance revision that is given and granted.
  ghost predicate Governed(task: Task, target: TaskStatus, granted: bool) {
    target in {Domain.IMPLEMENTING, READY_TO_PUBLISH} ==> GivenText(task.risk.governanceRevision) && granted
  }

  // The highest risk is never implemented.
  ghost predicate TooRisky(task: Task, target: TaskStatus) {
    task.status == DESIGN_REVIEW && target == Domain.IMPLEMENTING && task.risk.effective == R3
  }

  // Which transitions may be asked for: those that block anyway, and the role's own steps.
  ghost predicate CanStep(task: Task, target: TaskStatus, actor: Role, granted: bool) {
    Live(task) &&
    (|| !Governed(task, target, granted) || TooRisky(task, target)
     || WorkerStep(task.status, task.risk.effective, target, actor)
     || (task.status == DESIGN_REVIEW && target == Domain.IMPLEMENTING && actor == IMPLEMENTER)
     || (task.status == PATCH_REVIEW && target == READY_TO_PUBLISH && actor == PATCH_REVIEWER))
  }

  ghost function Destination(task: Task, target: TaskStatus, granted: bool): TaskStatus {
    if !Governed(task, target, granted) || TooRisky(task, target) then BLOCKED else target
  }

  lemma TargetMeans(task: Task, target: TaskStatus, actor: Role, granted: bool)
    ensures Target(task, target, actor, granted).Ok? <==> CanStep(task, target, actor, granted)
    ensures CanStep(task, target, actor, granted) ==>
      Target(task, target, actor, granted).value
      == task.(status := Destination(task, target, granted), version := task.version + 1)
  {
  }

  // With an event of its own, a transition returns exactly if there is evidence, the task
  // stands where the caller saw it and the step exists; it writes one version and one event.
  lemma TransitionExactly(db: Db, id: Text, target: TaskStatus, actor: Role, e: Event, v: nat, n: nat, evidence: bool,
                          granted: bool)
    requires TasksOk(db.tasks) && e.eventId !in db.eventIds && e.taskId == id
    ensures var t := Transition(db, id, target, actor, e, v, n, evidence, granted);
            && (t.out.Ok? <==>
                  && evidence && Stands(db, id, v, n) && e.sequence == n + 1
                  && CanStep(db.tasks[id], target, actor, granted))
            && (t.out.Ok? ==>
                  && t.out.value
                     == db.tasks[id].(status := Destination(db.tasks[id], target, granted), version := v + 1)
                  && TaskWritten(db, t.db, t.out.value, e))
  {
    hide Advance, Target, Destination, CanStep, TaskWritten, Changed;
    if id in db.tasks {
      TargetMeans(db.tasks[id], target, actor, granted);
      if Target(db.tasks[id], target, actor, granted).Ok? {
        var x := Target(db.tasks[id], target, actor, granted).value;
        AdvanceShape(db, x, v, e, n);
        ChangedWrites(db, x, e);
      }
    }
  }

  lemma ChangedWrites(db: Db, x: Task, e: Event)
    ensures TaskWritten(db, Changed(db, x, e), x, e)
  {
  }

  /******* Artifacts *******/

  // A registration returns exactly if the artifact is clean and fits the catalogue, and the
  // task stands where the caller saw it; an artifact the task has already asks no version.
  lemma RegisterExactly(db: Db, id: Text, blob: Blob, request: ArtifactRequest, v: nat, n: nat, stamp: Stamp)
    requires TasksOk(db.tasks) && stamp.eventId !in db.eventIds
    ensures var r := Register(db, id, blob, request, v, n, stamp);
            var a := Catalogued(blob, request);
            && (r.out.Ok? <==>
                  && !request.containsSecrets && id in db.tasks
                  && (blob.digest in db.artifacts ==> db.artifacts[blob.digest] == a)
                  && (a.reference in db.tasks[id].artifacts || db.tasks[id].version == v)
                  && (if id in db.events then |db.events[id]| else 0) == n)
            && (r.out.Ok? ==>
                  && r.out.value == ArtifactRef(blob.digest, request.logicalName, request.mediaType)
                  && blob.digest in r.db.artifacts && r.db.artifacts[blob.digest] == a
                  && id in r.db.tasks && a.reference in r.db.tasks[id].artifacts
                  && OneEvent(db, r.db, ArtifactEvent(id, a.reference, stamp, n)))
  {
    hide EventAppend, TaskUpdate, ArtifactJson, OneEvent;
    var a := Catalogued(blob, request);
    if id in db.tasks {
      var d := db.(artifacts := db.artifacts[blob.digest := a]);
      var t := db.tasks[id].AttachArtifact(a.reference);
      UpdateShape(d, t, v);
      var e := ArtifactEvent(id, a.reference, stamp, n);
      AppendShape(d, e, n);
      AppendShape(d.(tasks := d.tasks[id := t]), e, n);
      AppendedIsOne(d, e);
      AppendedIsOne(d.(tasks := d.tasks[id := t]), e);
      SameEvents(db, d, Appended(d, e), e);
      SameEvents(db, d.(tasks := d.tasks[id := t]), Appended(d.(tasks := d.tasks[id := t]), e), e);
    }
  }

  lemma SameEvents(a: Db, b: Db, c: Db, e: Event)
    requires a.events == b.events && a.eventIds == b.eventIds
    ensures OneEvent(b, c, e) ==> OneEvent(a, c, e)
  {
  }

  /******* Intake *******/

  // The constructor's checks, for a request that states no reason to escalate.
  ghost predicate Constructible(r: IntakeRequest) {
    && r.requestId != [] && r.sourceKind != [] && r.sourceReference != []
    && r.repositoryName != [] && r.repositoryRevision != [] && r.repositoryName[0] !in {'/' as int, '\\' as int}
    && r.effectiveRisk == r.proposedRisk && (r.effectiveRisk == r.validatedRisk || RiskAbove(r))
  }

  ghost predicate RiskAbove(r: IntakeRequest) {
    || (r.validatedRisk == R0 && r.effectiveRisk in {R1, R2, R3})
    || (r.validatedRisk == R1 && r.effectiveRisk in {R2, R3})
    || (r.validatedRisk == R2 && r.effectiveRisk == R3)
  }

  lemma IntakeTaskMeans(r: IntakeRequest, now: Time)
    ensures IntakeTask(r, now).Ok? <==> Constructible(r)
    ensures Constructible(r) ==>
      IntakeTask(r, now).value
      == Task(r.requestId, TaskSource(r.sourceKind, r.sourceReference),
              RepositoryTarget(r.repositoryName, r.repositoryRevision),
              RiskAssessment(r.proposedRisk, r.validatedRisk, r.effectiveRisk, None, r.governanceRevision), now,
              RECEIVED, 0, 0, [])
  {
  }

  function RowFor(r: IntakeRequest, at: Time): Queue.Rows {
    if r.enqueue then [Queue.Row(r.requestId, r.priority, at, r.requestId, None, None, 0)] else []
  }

  // A new intake returns exactly if the fuse is off, its task is constructible and no task
  // has its id; it leaves the task, its record, its first event and, if asked, its queue row.
  lemma StartExactly(db: Db, r: IntakeRequest, stamp: Stamp)
    requires Coupled(db) && stamp.eventId !in db.eventIds && r.requestId !in db.intakes
    ensures var s := Start(db, r, stamp);
            && (s.out.Ok? <==> !db.fuse.engaged && Constructible(r) && r.requestId !in db.tasks)
            && (s.out.Ok? ==>
                  && s.out.value.taskId == r.requestId && s.out.value.status == RECEIVED && s.out.value.version == 0
                  && s.db.tasks == db.tasks[r.requestId := s.out.value]
                  && OneEvent(db, s.db, ReceivedEvent(r, stamp))
                  && s.db.intakes
                     == db.intakes[r.requestId := IntakeRecord(r.requestId, r.Canonical(), r.requestId)]
                  && s.db.queue == db.queue + RowFor(r, stamp.at)
                  && s.db == db.(tasks := s.db.tasks, events := s.db.events, eventIds := s.db.eventIds,
                                 intakes := s.db.intakes, queue := s.db.queue))
  {
    hide FileIntake, IntakeRequest.Canonical, Coupled, OneEvent, ReceivedEvent, IntakeTask, Constructible;
    IntakeTaskMeans(r, stamp.at);
    if IntakeTask(r, stamp.at).Ok? {
      NamedIntake(r);
      FileIntakeShape(db, r, IntakeTask(r, stamp.at).value, stamp);
      FiledEvents(db, r, IntakeTask(r, stamp.at).value, stamp);
    }
  }

  lemma NamedIntake(r: IntakeRequest)
    requires Constructible(r)
    ensures r.requestId != []
  {
  }

  lemma FiledEvents(db: Db, r: IntakeRequest, task: Task, stamp: Stamp)
    requires task.taskId == r.requestId
    ensures OneEvent(db, IntakeFiled(db, r, task, stamp), ReceivedEvent(r, stamp))
  {
  }

  /******* The fuse *******/

  // The fuse may be engaged at any time; releasing it takes a governance revision that is
  // given and granted. Either leaves one control event.
  lemma FuseExactly(db: Db, now: Time, granted: bool, revision: Option<Text>)
    ensures var e := Engage(db, now);
            e.out.Ok? && e.db == db.(fuse := FuseState(true, now, None),
                                     control := db.control + [ControlEvent(Lit("fuse_engaged"), now, None)])
    ensures var r := Release(db, now, granted, revision);
            && (r.out.Ok? <==> granted && revision.Some? && revision.value != [])
            && r.db == if r.out.Err? then db
                       else db.(fuse := FuseState(false, now, revision),
                                control := db.control + [ControlEvent(Lit("fuse_released"), now, revision)])
  {
  }

  /******* Runner sessions *******/

  ghost predicate MayRequest(db: Db, r: RunnerSessionRequest) {
    r.taskId in db.tasks &&
    if r.sessionId in db.sessions then RequestUnits(db.sessions[r.sessionId].request) == RequestUnits(r)
    else
      && !db.fuse.engaged
      && !(db.tasks[r.taskId].risk.effective == R3 && r.role == IMPLEMENTER)
      && Stands(db, r.taskId, r.expectedTaskVersion, r.expectedSequence)
      && forall i | 0 <= i < |r.inputArtifacts| :: r.inputArtifacts[i] in db.tasks[r.taskId].artifacts
  }

  // A session is requested exactly under these conditions; a known one writes nothing.
  lemma RequestExactly(db: Db, r: RunnerSessionRequest, stamp: Stamp)
    requires stamp.eventId !in db.eventIds
    ensures var q := RequestSession(db, r, stamp);
            && (q.out.Ok? <==> MayRequest(db, r))
            && (q.out.Ok? && r.sessionId in db.sessions ==>
                  q.db == db && q.out.value == RunnerSessionReceipt(r.sessionId, db.sessions[r.sessionId].state, false))
            && (q.out.Ok? && r.sessionId !in db.sessions ==>
                  && q.out.value == RunnerSessionReceipt(r.sessionId, REQUESTED, true)
                  && q.db == db.(sessions := db.sessions[r.sessionId := RunnerSessionRecord(r, REQUESTED, None)],
                                 events := q.db.events, eventIds := q.db.eventIds)
                  && OneEvent(db, q.db, SessionEvent(r, stamp)))
  {
    hide RunnerSessionRequest.Canonical, EventAppend, OneEvent;
    if r.taskId in db.tasks {
      if r.sessionId in db.sessions {
        RequestsDetermined(db.sessions[r.sessionId].request, r);
      } else {
        var d := db.(sessions := db.sessions[r.sessionId := RunnerSessionRecord(r, REQUESTED, None)]);
        SessionEventFields(r, stamp);
        AppendShape(d, SessionEvent(r, stamp), r.expectedSequence);
        AppendedIsOne(d, SessionEvent(r, stamp));
        SameEvents(db, d, Appended(d, SessionEvent(r, stamp)), SessionEvent(r, stamp));
        InputsHeld(r.inputArtifacts, db.tasks[r.taskId].artifacts);
        hide SessionEvent;
      }
    }
  }

  lemma InputsHeld(inputs: seq<ArtifactRef>, held: seq<ArtifactRef>)
    ensures (exists a | a in inputs :: a !in held) <==> !forall i | 0 <= i < |inputs| :: inputs[i] in held
  {
  }

  lemma SessionEventFields(r: RunnerSessionRequest, stamp: Stamp)
    ensures var e := SessionEvent(r, stamp);
            e.eventId == stamp.eventId && e.taskId == r.taskId && e.sequence == r.expectedSequence + 1
  {
  }

  // A run returns exactly if the fuse is off, the session is known, and it has an outcome
  // already or the answer is about it; an outcome is recorded once.
  lemma RunExactly(db: Db, id: Text, answer: RunnerSessionOutcome)
    ensures var r := RunWorker(db, id, answer);
            && (r.out.Ok? <==>
                  !db.fuse.engaged && id in db.sessions && (db.sessions[id].outcome.Some? || answer.sessionId == id))
            && (r.out.Ok? ==>
                  if db.sessions[id].outcome.Some? then r.out.value == db.sessions[id].outcome.value && r.db == db
                  else
                    && r.out.value == answer
                    && r.db == db.(sessions := db.sessions[id := RunnerSessionRecord(db.sessions[id].request,
                                                                                   answer.state, Some(answer))]))
            && (r.out.Err? ==> r.db == db)
  {
  }

  /******* Cancellation *******/

  // A worker's execution is cancelled exactly under governance, by the holder of its lease,
  // while the task lives; the task is blocked with one event and its row is gone.
  lemma CancelExactly(db: Db, id: Text, w: Text, now: Time, granted: bool, revision: Option<Text>, n: nat, stamp: Stamp)
    requires TasksOk(db.tasks) && stamp.eventId !in db.eventIds
    ensures var c := Cancel(db, id, w, now, granted, revision, n, stamp);
            && (c.out.Ok? <==>
                  && granted && revision.Some? && revision.value != []
                  && id in db.tasks && Live(db.tasks[id]) && Stands(db, id, db.tasks[id].version, n)
                  && Leased(db, id, w, now))
            && (c.out.Ok? ==>
                  && c.db.queue == Queue.Remove(db.queue, id)
                  && TaskWritten(db, c.db.(queue := db.queue),
                                 db.tasks[id].(status := BLOCKED, version := db.tasks[id].version + 1),
                                 CancelEvent(id, stamp, n)))
  {
    hide Advance, Leased, TaskWritten, Queue.Holds, CancelEvent, Changed;
    if id in db.tasks && db.tasks[id].Block().Ok? {
      var x, e := db.tasks[id].Block().value, CancelEvent(id, stamp, n);
      CancelEventFields(id, stamp, n);
      AdvanceShape(db, x, db.tasks[id].version, e, n);
      LeasedMeans(db, id, w, now);
      ChangedWrites(db, x, e);
      QueueAfter(db, x, e, Queue.Remove(db.queue, id));
    }
  }

  lemma QueueAfter(db: Db, x: Task, e: Event, rows: Queue.Rows)
    ensures Changed(db, x, e).queue == db.queue
    ensures Changed(db, x, e).(queue := rows).(queue := db.queue) == Changed(db, x, e)
  {
  }

  lemma CancelEventFields(id: Text, stamp: Stamp, n: nat)
    ensures var e := CancelEvent(id, stamp, n); e.eventId == stamp.eventId && e.taskId == id && e.sequence == n + 1
  {
  }

  /******* Failure reports *******/

  // A failure is reported exactly by the holder of the lease, with an event that is next in
  // the task's history; the answer says when the row is tried again, if it is. What it then
  // leaves is ServiceOutcomes.FailureReport.
  lemma FailureExactly(db: Db, id: Text, w: Text, now: Time, e: Event, n: nat)
    requires TasksOk(db.tasks) && Queue.QueueOk(db.queue) && Coupled(db) && e.eventId !in db.eventIds && e.taskId == id
    ensures var f := QueueFail(db, id, w, now, e, n);
            && (f.out.Ok? <==>
                  && Leased(db, id, w, now) && e.sequence == n + 1
                  && Stands(db, id, db.tasks[id].version, n)
                  && (Queue.Find(db.queue, id).value.attempt >= 3 ==> Live(db.tasks[id])))
            && (f.out.Ok? ==>
                  f.out.value
                  == match Queue.Find(db.queue, id).value.attempt
                     case 1 => Queue.FailureResult(id, Some(now + 30), false)
                     case 2 => Queue.FailureResult(id, Some(now + 60), false)
                     case _ => Queue.FailureResult(id, None, true))
  {
    hide FailTask, Coupled, EventAppend, TasksOk, Queue.QueueOk, Queue.Fail, Leased, Queue.Backoff, Queue.Holds;
    LeasedMeans(db, id, w, now);
    if Leased(db, id, w, now) { LeasedIsLive(db, id, w, now); }
    FailedRow(db.queue, id, w, now);
    if Leased(db, id, w, now) { LeasedAttempt(db, id, w, now); }
    if id in db.tasks && Leased(db, id, w, now) {
      var rows := Queue.Fail(db.queue, id, w, now).rows;
      var d := db.(queue := rows);
      AppendShape(d, e, n);
      FailTaskDecides(d, id, e, n);
    }
  }

  lemma LeasedIsLive(db: Db, id: Text, w: Text, now: Time)
    requires Coupled(db) && Leased(db, id, w, now)
    ensures id in db.tasks
  {
  }

  lemma FailedRow(q: Queue.Rows, id: Text, w: Text, now: Time)
    ensures var f := Queue.Fail(q, id, w, now);
            && (f.out.Ok? <==> Queue.Holds(q, id, w, now))
            && (f.out.Ok? ==>
                  && (f.out.value.terminal <==> Queue.Find(q, id).value.attempt >= 3)
                  && (Queue.Find(q, id).value.attempt in {1, 2, 3} ==>
                        f.out.value
                        == match Queue.Find(q, id).value.attempt
                           case 1 => Queue.FailureResult(id, Some(now + 30), false)
                           case 2 => Queue.FailureResult(id, Some(now + 60), false)
                           case _ => Queue.FailureResult(id, None, true)))
  {
    assert Queue.Pow2(0) == 1 && Queue.Pow2(1) == 2;
  }

  // A leased row is on its first, second or third attempt.
  lemma LeasedAttempt(db: Db, id: Text, w: Text, now: Time)
    requires Queue.QueueOk(db.queue) && Leased(db, id, w, now)
    ensures Queue.Find(db.queue, id).value.attempt in {1, 2, 3}
  {
  }

  lemma FailTaskDecides(db: Db, id: Text, e: Event, n: nat)
    requires TasksOk(db.tasks) && id in db.tasks && e.eventId !in db.eventIds && e.taskId == id
    ensures FailTask(db, db.tasks[id], e, n).out.Ok? <==>
      Live(db.tasks[id]) && Sequence(db, id) == n && e.sequence == n + 1
  {
    hide Advance;
    if db.tasks[id].Fail(SYSTEM).Ok? {
      AdvanceShape(db, db.tasks[id].Fail(SYSTEM).value, db.tasks[id].version, e, n);
    }
  }

  /******* Workspaces *******/

  // Which role may have a workspace for which purpose, and whether it may write.
  ghost predicate Permitted(task: Task, r: WorkspaceRequest, granted: bool, readOnly: bool) {
    || (task.risk.effective == R3 && r.role != IMPLEMENTER && r.purpose == PROPOSAL && readOnly)
    || (task.risk.effective != R3 && !readOnly
        && r.role == IMPLEMENTER && r.purpose == IMPLEMENTATION && task.status == Domain.IMPLEMENTING
        && GivenText(r.governanceRevision) && granted)
    || (task.risk.effective != R3 && readOnly
        && ((r.role == PLANNER && r.purpose == PLANNING)
            || (r.role in {DESIGN_REVIEWER, PATCH_REVIEWER} && r.purpose == REVIEW)))
  }

  ghost predicate Permits(task: Task, r: WorkspaceRequest, granted: bool) {
    exists b :: Permitted(task, r, granted, b)
  }

  lemma PolicyMeans(task: Task, r: WorkspaceRequest, granted: bool)
    ensures Policy(task, r, granted).Ok? <==> Permits(task, r, granted)
    ensures Policy(task, r, granted).Ok? ==> Permitted(task, r, granted, Policy(task, r, granted).value)
  {
    assert Policy(task, r, granted).Ok? ==> Permitted(task, r, granted, Policy(task, r, granted).value);
  }

  // Some active workspace serves the purpose.
  ghost predicate Occupied(db: Db, taskId: Text, purpose: WorkspacePurpose) {
    exists k | k in db.workspaces ::
      && db.workspaces[k].state == ACTIVE
      && db.workspaces[k].request.taskId == taskId && db.workspaces[k].request.purpose == purpose
  }

  ghost predicate MayAllocate(db: Db, m: Manager, r: WorkspaceRequest, granted: bool) {
    if r.allocationId in db.workspaces
    then WorkspaceUnits(db.workspaces[r.allocationId].request) == WorkspaceUnits(r)
    else
      && !db.fuse.engaged && Stands(db, r.taskId, r.expectedTaskVersion, r.expectedSequence)
      && Permits(db.tasks[r.taskId], r, granted)
      && (r.allocationId in m ==> WorkspaceUnits(m[r.allocationId].request) == WorkspaceUnits(r))
      && !Occupied(db, r.taskId, r.purpose)
  }

  // What a new workspace is recorded as; one the manager knows keeps the manager's record.
  ghost predicate RecordedAs(db: Db, m: Manager, r: WorkspaceRequest, granted: bool, w: WorkspaceRecord)
    requires r.taskId in db.tasks
  {
    if r.allocationId in m then w == m[r.allocationId]
    else
      && w.request == r && w.state == ACTIVE && w.repositoryName == db.tasks[r.taskId].repository.name
      && Permitted(db.tasks[r.taskId], r, granted, w.readOnly)
  }

  lemma TakenMeans(db: Db, taskId: Text, purpose: WorkspacePurpose)
    ensures PurposeTaken(db.workspaces, taskId, purpose) <==> Occupied(db, taskId, purpose)
  {
  }

  // Where the manager's records are of their own ids, tasks and purposes as sent, an
  // allocation returns exactly under these conditions, and a new one leaves its record and
  // one event.
  lemma AllocateExactly(db: Db, m: Manager, r: WorkspaceRequest, granted: bool, stamp: Stamp)
    requires stamp.eventId !in db.eventIds
    requires r.allocationId in m ==>
      && m[r.allocationId].request.allocationId == r.allocationId
      && (WorkspaceUnits(m[r.allocationId].request) == WorkspaceUnits(r) ==> m[r.allocationId].request == r)
    ensures var a := Allocate(db, m, r, granted, stamp).0;
            && (a.out.Ok? <==> MayAllocate(db, m, r, granted))
            && (a.out.Ok? ==>
                  if r.allocationId in db.workspaces
                  then && a.db == db
                       && a.out.value.created == false && a.out.value.state == db.workspaces[r.allocationId].state
                  else && r.taskId in db.tasks && r.allocationId in a.db.workspaces
                       && RecordedAs(db, m, r, granted, a.db.workspaces[r.allocationId])
                       && a.out.value
                          == WorkspaceReceipt(r.allocationId, a.db.workspaces[r.allocationId].state, true)
                       && WorkspaceWritten(db, a.db, r.allocationId, a.db.workspaces[r.allocationId],
                                           AllocatedEvent(r, stamp)))
  {
    hide WorkspaceRequest.Canonical, Permits, RecordedAs, WorkspaceWritten, Policy, Occupied, FileWorkspace,
         ManagerAllocate;
    hide AllocatedEvent;
    if r.allocationId in db.workspaces {
      WorkspacesDetermined(db.workspaces[r.allocationId].request, r);
    } else if !db.fuse.engaged && Stands(db, r.taskId, r.expectedTaskVersion, r.expectedSequence) {
      PolicyMeans(db.tasks[r.taskId], r, granted);
      if Policy(db.tasks[r.taskId], r, granted).Ok? { NewlyAllocated(db, m, r, granted, stamp); }
    }
  }

  // Once the fuse, the task and the policy have let it through.
  lemma NewlyAllocated(db: Db, m: Manager, r: WorkspaceRequest, granted: bool, stamp: Stamp)
    requires stamp.eventId !in db.eventIds && r.allocationId !in db.workspaces
    requires Stands(db, r.taskId, r.expectedTaskVersion, r.expectedSequence)
    requires Policy(db.tasks[r.taskId], r, granted).Ok?
    requires r.allocationId in m ==>
      && m[r.allocationId].request.allocationId == r.allocationId
      && (WorkspaceUnits(m[r.allocationId].request) == WorkspaceUnits(r) ==> m[r.allocationId].request == r)
    ensures var p := ManagerAllocate(m, r, db.tasks[r.taskId].repository.name,
                                     Policy(db.tasks[r.taskId], r, granted).value);
            && (p.out.Ok? <==>
                  r.allocationId in m ==> WorkspaceUnits(m[r.allocationId].request) == WorkspaceUnits(r))
            && (p.out.Ok? ==>
                  var f := FileWorkspace(db, p.out.value, r, stamp);
                  && (f.out.Ok? <==> !Occupied(db, r.taskId, r.purpose))
                  && (f.out.Ok? ==>
                        && r.allocationId in f.db.workspaces
                        && RecordedAs(db, m, r, granted, f.db.workspaces[r.allocationId])
                        && f.out.value
                           == WorkspaceReceipt(r.allocationId, f.db.workspaces[r.allocationId].state, true)
                        && WorkspaceWritten(db, f.db, r.allocationId, f.db.workspaces[r.allocationId],
                                            AllocatedEvent(r, stamp))))
  {
    hide WorkspaceRequest.Canonical, Permitted, WorkspaceWritten, Policy, Occupied, FileWorkspace, ManagerAllocate;
    hide AllocatedEvent, WorkspaceUnits, PurposeTaken;
    var name, readOnly := db.tasks[r.taskId].repository.name, Policy(db.tasks[r.taskId], r, granted).value;
    PolicyMeans(db.tasks[r.taskId], r, granted);
    ManagerDecides(m, r, name, readOnly);
    TakenMeans(db, r.taskId, r.purpose);
    var p := ManagerAllocate(m, r, name, readOnly);
    if p.out.Ok? { WorkspaceFiled(db, p.out.value, r, stamp); }
  }

  lemma ManagerDecides(m: Manager, r: WorkspaceRequest, name: Text, readOnly: bool)
    ensures var p := ManagerAllocate(m, r, name, readOnly);
            && (p.out.Ok? <==>
                  r.allocationId in m ==> WorkspaceUnits(m[r.allocationId].request) == WorkspaceUnits(r))
            && (p.out.Ok? ==>
                  p.out.value == if r.allocationId in m then m[r.allocationId]
                                 else WorkspaceRecord(r, readOnly, name, ACTIVE))
  {
    hide WorkspaceRequest.Canonical;
    if r.allocationId in m { WorkspacesDetermined(m[r.allocationId].request, r); }
  }

  lemma WorkspaceFiled(db: Db, w: WorkspaceRecord, r: WorkspaceRequest, stamp: Stamp)
    requires r.allocationId !in db.workspaces && w.request == r && stamp.eventId !in db.eventIds
    requires Sequence(db, r.taskId) == r.expectedSequence
    ensures var f := FileWorkspace(db, w, r, stamp);
            && (f.out.Ok? <==> !PurposeTaken(db.workspaces, r.taskId, r.purpose))
            && (f.out.Ok? ==>
                  && f.out.value == WorkspaceReceipt(r.allocationId, w.state, true)
                  && r.allocationId in f.db.workspaces && f.db.workspaces[r.allocationId] == w
                  && WorkspaceWritten(db, f.db, r.allocationId, w, AllocatedEvent(r, stamp)))
  {
    hide EventAppend, PurposeTaken, OneEvent, AllocatedEvent, WorkspaceRequest.Canonical;
    var d, e := db.(workspaces := db.workspaces[r.allocationId := w]), AllocatedEvent(r, stamp);
    AllocatedEventFields(r, stamp);
    AppendShape(d, e, r.expectedSequence);
    AppendedIsOne(d, e);
    SameEvents(db, d, Appended(d, e), e);
  }

  lemma AllocatedEventFields(r: WorkspaceRequest, stamp: Stamp)
    ensures var e := AllocatedEvent(r, stamp);
            e.eventId == stamp.eventId && e.taskId == r.taskId && e.sequence == r.expectedSequence + 1
  {
  }

  // A release never fails. It says whether it released anything, which is so exactly if the
  // ledger and the manager both have the workspace active; it then leaves the record
  // released in both, with one event, and otherwise leaves everything.
  lemma ReleaseExactly(db: Db, m: Manager, id: Text, stamp: Stamp)
    requires stamp.eventId !in db.eventIds
    requires id in db.workspaces ==> db.workspaces[id].request.allocationId == id
    ensures var a := ReleaseAllocation(db, m, id, stamp);
            && a.0.out.Ok?
            && (a.0.out.value <==>
                  id in db.workspaces && db.workspaces[id].state == ACTIVE && id in m && m[id].state == ACTIVE)
            && (!a.0.out.value ==> a.0.db == db && a.1 == m)
            && (a.0.out.value ==>
                  && a.1 == m[id := m[id].(state := RELEASED)]
                  && WorkspaceWritten(db, a.0.db, id, db.workspaces[id].(state := RELEASED),
                                      ReleasedEvent(db.workspaces[id], stamp,
                                                    Sequence(db, db.workspaces[id].request.taskId))))
  {
    hide EventAppend, OneEvent;
    if id in db.workspaces && db.workspaces[id].state == ACTIVE {
      var w := db.workspaces[id].(state := RELEASED);
      var d, n := db.(workspaces := db.workspaces[id := w]), Sequence(db, w.request.taskId);
      var e := ReleasedEvent(w, stamp, n);
      AppendShape(d, e, n);
      AppendedIsOne(d, e);
      SameEvents(db, d, Appended(d, e), e);
    }
  }

  /******* What the events say *******/

  ghost predicate Says(e: Event, stamp: Stamp, taskId: Text, kind: EventType, actor: Role, cause: Option<Text>,
                       correlation: Text, sequence: nat) {
    && e.eventId == stamp.eventId && e.occurredAt == stamp.at
    && e.taskId == taskId && e.kind == kind && e.actor == actor && e.causationId == cause
    && e.correlationId == correlation && e.sequence == sequence
  }

  // Every event is the next of its task, at the time it was drawn; only a worker's result
  // names a cause and another actor than the system.
  lemma EventsSay(stamp: Stamp, id: Text, a: ArtifactRef, n: nat, i: IntakeRequest, c: IssueCandidate,
                  s: RunnerSessionRequest, w: WorkspaceRequest, x: WorkspaceRecord, r: WorkerResult, digest: Text)
    ensures Says(ReceivedEvent(i, stamp), stamp, i.requestId, TASK_RECEIVED, SYSTEM, None, i.requestId, 1)
    ensures Says(ArtifactEvent(id, a, stamp, n), stamp, id, ARTIFACT_REGISTERED, SYSTEM, None, id, n + 1)
    ensures Says(SourceEvent(c, id, digest, stamp, n), stamp, id, SOURCE_INGESTED, SYSTEM, None, c.sourceKey, n + 1)
    ensures Says(CancelEvent(id, stamp, n), stamp, id, TASK_BLOCKED, SYSTEM, None, id, n + 1)
    ensures Says(SessionEvent(s, stamp), stamp, s.taskId, RUNNER_SESSION_REQUESTED, SYSTEM, None, s.correlationId,
                 s.expectedSequence + 1)
    ensures Says(AllocatedEvent(w, stamp), stamp, w.taskId, WORKSPACE_ALLOCATED, SYSTEM, None, w.correlationId,
                 w.expectedSequence + 1)
    ensures Says(ReleasedEvent(x, stamp, n), stamp, x.request.taskId, WORKSPACE_RELEASED, SYSTEM, None,
                 x.request.correlationId, n + 1)
    ensures Says(ResultEvent(r, a, stamp), stamp, r.taskId, TASK_TRANSITIONED, r.worker.role, Some(r.sessionId),
                 r.sessionId, r.expectedSequence + 2)
  {
  }
}

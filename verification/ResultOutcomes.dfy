// When a worker result is accepted, condition by condition, what it writes, and what
// every stored result therefore has behind it.

module ResultOutcomes {
  import opened Json
  import opened Domain
  import opened Records
  import opened CanonicalForms
  import opened Ledgers
  import opened Database
  import opened LedgerInvariants
  import opened Services
  import opened Coupling
  import opened ServiceRuns
  import opened ServiceOutcomes
  import opened Unpublishable
  import Queue

  /******* The conditions *******/

  // The result's session succeeded, for the result's task and in its worker's role.
  ghost predicate SessionSucceeded(db: Db, r: WorkerResult) {
    && r.sessionId in db.sessions
    && db.sessions[r.sessionId].outcome.Some? && db.sessions[r.sessionId].outcome.value.state == SUCCEEDED
    && db.sessions[r.sessionId].request.taskId == r.taskId
    && db.sessions[r.sessionId].request.role == r.worker.role
  }

  // Nothing happened to the task since the worker looked.
  ghost predicate TaskUnmoved(db: Db, r: WorkerResult) {
    && r.taskId in db.tasks && db.tasks[r.taskId].version == r.expectedTaskVersion
    && (if r.taskId in db.events then |db.events[r.taskId]| else 0) == r.expectedSequence
  }

  // The steps a worker may take by a result, besides those that block for want of governance.
  ghost predicate WorkerStep(s: TaskStatus, risk: RiskClass, target: TaskStatus, role: Role) {
    || (s == RECEIVED && target == VALIDATED && role == VALIDATOR)
    || (s == VALIDATED && target == PLANNED && role == PLANNER)
    || (s == PLANNED && target == DESIGN_REVIEW && role == DESIGN_REVIEWER)
    || (s == DESIGN_REVIEW && risk == R3 && target == PROPOSAL_READY && role == DESIGN_REVIEWER)
    || (s == Domain.IMPLEMENTING && target == PREFLIGHT && role == IMPLEMENTER)
    || (s == PREFLIGHT && target == PATCH_REVIEW && role == PATCH_REVIEWER)
  }

  ghost predicate Reachable(task: Task, r: WorkerResult) {
    && task.status != FAILED && task.status != COMPLETED
    && (r.target in GUARDED || WorkerStep(task.status, task.risk.effective, r.target, r.worker.role))
  }

  // The task as the result leaves it.
  ghost predicate MovedBy(task: Task, task': Task, r: WorkerResult, artifact: ArtifactRef) {
    var more := if artifact in task.artifacts then 0 else 1;
    && task'.status == (if r.target in GUARDED then BLOCKED else r.target)
    && task'.version == task.version + more + 1
    && task'.artifacts == (if artifact in task.artifacts then task.artifacts else task.artifacts + [artifact])
    && task' == task.(status := task'.status, version := task'.version, artifacts := task'.artifacts)
  }

  lemma ResultTaskMeans(db: Db, r: WorkerResult, a: CatalogedArtifact)
    requires r.taskId in db.tasks
    ensures ResultTask(db, r, a).Ok? <==> Reachable(db.tasks[r.taskId], r)
    ensures Reachable(db.tasks[r.taskId], r) ==>
      MovedBy(db.tasks[r.taskId], ResultTask(db, r, a).value, r, a.reference)
  {
  }

  ghost predicate MayPublish(db: Db, r: WorkerResult, blob: Blob, request: ArtifactRequest, now: Time) {
    if r.resultId in db.results then ResultUnits(db.results[r.resultId]) == ResultUnits(r)
    else
      && SessionSucceeded(db, r) && TaskUnmoved(db, r) && Reachable(db.tasks[r.taskId], r)
      && !request.containsSecrets
      && (blob.digest in db.artifacts ==> db.artifacts[blob.digest] == Catalogued(blob, request))
      && Leased(db, r.taskId, r.worker.workerId, now)
  }

  // The task's row is the worker's, on a lease that has not run out.
  ghost predicate Leased(db: Db, taskId: Text, workerId: Text, now: Time) {
    && Queue.Find(db.queue, taskId).Some?
    && Queue.Find(db.queue, taskId).value.claimedBy == Some(workerId)
    && Queue.Find(db.queue, taskId).value.leaseExpiresAt.Some?
    && now < Queue.Find(db.queue, taskId).value.leaseExpiresAt.value
  }

  // Everything a new result changes: its task, two events in order, the artifact, the queue
  // row and the result itself.
  ghost predicate Published(db: Db, db': Db, r: WorkerResult, a: CatalogedArtifact, attached: Stamp, moved: Stamp) {
    && r.taskId in db.tasks && r.taskId in db'.tasks
    && MovedBy(db.tasks[r.taskId], db'.tasks[r.taskId], r, a.reference)
    && db'.tasks == db.tasks[r.taskId := db'.tasks[r.taskId]]
    && History(db'.events, r.taskId)
       == History(db.events, r.taskId) + [ArtifactEvent(r.taskId, a.reference, attached, r.expectedSequence),
                                          ResultEvent(r, a.reference, moved)]
    && db'.artifacts == db.artifacts[a.reference.digest := a]
    && db'.queue == Queue.Remove(db.queue, r.taskId)
    && db'.results == db.results[r.resultId := r]
    && db' == db.(tasks := db'.tasks, events := db'.events, eventIds := db'.eventIds, artifacts := db'.artifacts,
                  queue := db'.queue, results := db'.results)
  }

  lemma FiledMeans(db: Db, r: WorkerResult, a: CatalogedArtifact, attached: Stamp, moved: Stamp)
    requires TasksOk(db.tasks) && r.taskId in db.tasks && ResultTask(db, r, a).Ok?
    ensures Published(db, FiledResult(db, r, a, attached, moved), r, a, attached, moved)
  {
    hide Target, ArtifactJson, MovedBy;
    ResultTaskMeans(db, r, a);
    TargetKeeps(db.tasks[r.taskId].AttachArtifact(a.reference), r.target, r.worker.role, false);
    Overwritten(db.tasks, r.taskId, db.tasks[r.taskId].AttachArtifact(a.reference), ResultTask(db, r, a).value);
  }

  lemma LeasedMeans(db: Db, taskId: Text, workerId: Text, now: Time)
    ensures Leased(db, taskId, workerId, now) <==> Queue.Holds(db.queue, taskId, workerId, now)
  {
  }

  // With new event ids, a result is accepted exactly under these conditions: a known id if
  // it is the same result up to UTF-16 spelling, with nothing written; a new one with a
  // session that succeeded, an unmoved task, a possible step, a clean artifact and a lease.
  lemma ResultExactly(db: Db, r: WorkerResult, blob: Blob, request: ArtifactRequest, now: Time, attached: Stamp,
                      moved: Stamp)
    requires TasksOk(db.tasks)
    requires attached.eventId !in db.eventIds && moved.eventId !in db.eventIds && attached.eventId != moved.eventId
    ensures var p := PublishResult(db, r, blob, request, now, attached, moved);
            && (p.out.Ok? <==> MayPublish(db, r, blob, request, now))
            && (p.out.Ok? ==>
                  && p.out.value == (r.resultId !in db.results)
                  && if r.resultId in db.results then p.db == db
                     else Published(db, p.db, r, Catalogued(blob, request), attached, moved))
  {
    hide FileResult, WorkerResult.Canonical, Reachable, MovedBy, TasksOk, Leased, Published;
    hide Queue.Holds, FiledResult, ResultTask;
    var a := Catalogued(blob, request);
    if r.resultId in db.results {
      ResultsDetermined(db.results[r.resultId], r);
    } else if SessionSucceeded(db, r) && TaskUnmoved(db, r) {
      ResultRefusals(db, r, blob, request, now, attached, moved);
      ResultTaskMeans(db, r, a);
      LeasedMeans(db, r.taskId, r.worker.workerId, now);
      if ResultTask(db, r, a).Ok? { FiledMeans(db, r, a, attached, moved); }
    }
  }

  /******* Over runs *******/

  // Every stored result has a session that succeeded behind it.
  ghost predicate ResultsSupported(db: Db) {
    forall k | k in db.results :: SessionSucceeded(db, db.results[k])
  }

  // Every result that was not there before is supported by the ledgers as they were.
  ghost predicate NewlySupported(a: Db, b: Db) {
    forall k | k in b.results ::
      (k in a.results && b.results[k] == a.results[k]) || SessionSucceeded(a, b.results[k])
  }

  lemma NoneNewResult(a: Db, b: Db)
    requires b.results == a.results
    ensures NewlySupported(a, b)
  {
  }

  lemma SupportStays(a: Db, b: Db)
    requires ResultsSupported(a) && NewlySupported(a, b) && SessionsGrow(a.sessions, b.sessions)
    ensures ResultsSupported(b)
  {
    forall k | k in b.results ensures SessionSucceeded(b, b.results[k]) {
      assert SessionSucceeded(a, b.results[k]);
    }
  }

  lemma RestsResults(a: Db, b: Db)
    requires Rests(a, b)
    ensures NewlySupported(a, b)
  {
  }

  lemma ResultCallSupported(db: Db, r: WorkerResult, blob: Blob, request: ArtifactRequest, now: Time, attached: Stamp,
                            moved: Stamp)
    requires TasksOk(db.tasks)
    requires attached.eventId !in db.eventIds && moved.eventId !in db.eventIds && attached.eventId != moved.eventId
    requires PublishResult(db, r, blob, request, now, attached, moved).out.Ok?
    ensures NewlySupported(db, PublishResult(db, r, blob, request, now, attached, moved).db)
  {
    hide PublishResult, TasksOk, SessionSucceeded, TaskUnmoved, Reachable, Leased;
    ResultExactly(db, r, blob, request, now, attached, moved);
    hide MovedBy;
  }

  lemma WorkCallSupported(w: World, c: Call)
    requires TasksOk(w.db.tasks) && Sound(w, c) && !OnTasks(c) && !OnPublications(c) && ServeDb(w, c).1
    ensures NewlySupported(w.db, ServeDb(w, c).0)
  {
    hide TasksOk, RequestSession, RunWorker, PublishResult, Allocate, ReleaseAllocation, Rests, NewlySupported;
    match c
    case CallSession(r, stamp) =>
      RequestRests(w.db, r, stamp);
      RestsResults(w.db, RequestSession(w.db, r, stamp).db);
    case CallRun(id, answer) =>
      RunRests(w.db, id, answer);
      RestsResults(w.db, RunWorker(w.db, id, answer).db);
    case CallResult(r, blob, request, now, attached, moved) =>
      ResultCallSupported(w.db, r, blob, request, now, attached, moved);
    case CallAllocate(r, granted, stamp) =>
      AllocateRests(w.db, w.manager, r, granted, stamp);
      RestsResults(w.db, Allocate(w.db, w.manager, r, granted, stamp).0.db);
    case CallReleaseWorkspace(id, stamp) =>
      ReleaseRests(w.db, w.manager, id, stamp);
      RestsResults(w.db, ReleaseAllocation(w.db, w.manager, id, stamp).0.db);
  }

  lemma CallSupported(w: World, c: Call)
    requires TasksOk(w.db.tasks) && Sound(w, c) && ServeDb(w, c).1
    ensures NewlySupported(w.db, ServeDb(w, c).0)
  {
    hide TasksOk, ServeDb, Rests, NewlySupported, Sound, OnlyPublications;
    if OnTasks(c) {
      TaskCallRests(w, c);
      RestsResults(w.db, ServeDb(w, c).0);
    } else if OnPublications(c) {
      PublicationCallOnly(w, c);
      SameResults(w.db, ServeDb(w, c).0);
    } else {
      WorkCallSupported(w, c);
    }
  }

  lemma SameResults(a: Db, b: Db)
    requires OnlyPublications(a, b)
    ensures NewlySupported(a, b)
  {
  }

  lemma SessionsOnward(a: World, b: World)
    requires Onward(a, b)
    ensures SessionsGrow(a.db.sessions, b.db.sessions)
  {
    hide Healthy;
  }

  // Over any run of service calls from empty, and from any ledgers where it holds: every
  // stored result names a session that succeeded, for its task and its worker's role.
  lemma {:induction false} RunSupports(w: World, cs: seq<Call>)
    requires Healthy(w) && SoundRun(w, cs) && ResultsSupported(w.db)
    ensures Healthy(RunCalls(w, cs)) && ResultsSupported(RunCalls(w, cs).db)
  {
    hide Healthy, Sound, ServeDb, ServeManager, ResultsSupported, NewlySupported, Onward, SessionsGrow;
    if cs != [] {
      var v, c := RunCalls(w, cs[..|cs| - 1]), cs[|cs| - 1];
      RunSupports(w, cs[..|cs| - 1]);
      HealthyParts(v);
      ServeOnward(v, c);
      OnwardIsHealthy(v, Serve(v, c));
      if ServeDb(v, c).1 {
        CallSupported(v, c);
        SessionsOnward(v, Serve(v, c));
        SupportStays(v.db, Serve(v, c).db);
      }
    }
  }

  lemma OnwardIsHealthy(a: World, b: World)
    requires Onward(a, b)
    ensures Healthy(b)
  {
    hide Healthy;
  }

  lemma ResultsHaveSessions(cs: seq<Call>)
    requires SoundRun(NEW_WORLD, cs)
    ensures ResultsSupported(RunCalls(NEW_WORLD, cs).db)
  {
    hide SoundRun, RunCalls, Healthy;
    NewWorldHealthy();
    RunSupports(NEW_WORLD, cs);
  }
}

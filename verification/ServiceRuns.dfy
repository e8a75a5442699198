// Runs of service calls, each in its own unit of work, committed exactly when it returns.

module ServiceRuns {
  import opened Json
  import opened Domain
  import opened Records
  import opened Ledgers
  import opened Database
  import opened LedgerInvariants
  import opened Services
  import opened Publication
  import opened ServiceSteps
  import opened Coupling
  import Queue

  // The committed database and the workspace manager's own records.
  datatype World = World(db: Db, manager: Manager)

  datatype Call =
    | CallTransition(taskId: Text, target: TaskStatus, actor: Role, event: Event, version: nat, sequence: nat,
                     evidence: bool, granted: bool)
    | CallFail(taskId: Text, workerId: Text, now: Time, event: Event, sequence: nat)
    | CallRecover(now: Time, events: TerminalEvents)
    | CallRegister(taskId: Text, blob: Blob, artifact: ArtifactRequest, version: nat, sequence: nat, stamp: Stamp)
    | CallStart(intake: IntakeRequest, stamp: Stamp)
    | CallClaim(workerId: Text, now: Time, lease: int)
    | CallEngage(now: Time)
    | CallRelease(now: Time, granted: bool, revision: Option<Text>)
    | CallIngest(candidate: IssueCandidate, granted: bool, revision: Option<Text>, draws: IngestDraws)
    | CallSession(session: RunnerSessionRequest, stamp: Stamp)
    | CallRun(sessionId: Text, answer: RunnerSessionOutcome)
    | CallResult(result: WorkerResult, blob: Blob, artifact: ArtifactRequest, now: Time, attached: Stamp, moved: Stamp)
    | CallCancel(taskId: Text, workerId: Text, now: Time, granted: bool, revision: Option<Text>, sequence: nat,
                 stamp: Stamp)
    | CallAllocate(workspace: WorkspaceRequest, granted: bool, stamp: Stamp)
    | CallReleaseWorkspace(allocationId: Text, stamp: Stamp)
    | CallPrepare(intent: PublicationIntent, granted: bool, intact: bool, prepared: PreparedHead,
                  verification: VerificationResult)
    | CallApprove(publicationId: Text, approvalId: Text, resultId: Text, digest: Text, at: Time)
    | CallBegin(publicationId: Text, effectId: Text)
    | CallSettle(effectId: Text, job: Job, receipt: PublicationReceipt)
    | CallChecks(publicationId: Text, effectId: Text, headSha: Text, canonical: string,
                 observations: seq<CheckRunObservation>)

  function Ended<T>(s: Step<T>): (Db, bool) { (s.db, s.out.Ok?) }

  // The working database when the call ends, and whether it returned.
  function ServeDb(w: World, c: Call): (Db, bool) {
    match c
    case CallTransition(id, target, actor, e, v, n, evidence, granted) =>
      Ended(Transition(w.db, id, target, actor, e, v, n, evidence, granted))
    case CallFail(id, worker, now, e, n) => Ended(QueueFail(w.db, id, worker, now, e, n))
    case CallRecover(now, events) => Ended(Recover(w.db, now, events))
    case CallRegister(id, blob, request, v, n, stamp) => Ended(Register(w.db, id, blob, request, v, n, stamp))
    case CallStart(request, stamp) => Ended(Start(w.db, request, stamp))
    case CallClaim(worker, now, lease) => Ended(ClaimNext(w.db, worker, now, lease))
    case CallEngage(now) => Ended(Engage(w.db, now))
    case CallRelease(now, granted, revision) => Ended(Release(w.db, now, granted, revision))
    case CallIngest(candidate, granted, revision, draws) => Ended(Ingest(w.db, candidate, granted, revision, draws))
    case CallSession(r, stamp) => Ended(RequestSession(w.db, r, stamp))
    case CallRun(id, answer) => Ended(RunWorker(w.db, id, answer))
    case CallResult(r, blob, request, now, attached, moved) =>
      Ended(PublishResult(w.db, r, blob, request, now, attached, moved))
    case CallCancel(id, worker, now, granted, revision, n, stamp) =>
      Ended(Cancel(w.db, id, worker, now, granted, revision, n, stamp))
    case CallAllocate(r, granted, stamp) => Ended(Allocate(w.db, w.manager, r, granted, stamp).0)
    case CallReleaseWorkspace(id, stamp) => Ended(ReleaseAllocation(w.db, w.manager, id, stamp).0)
    case CallPrepare(i, granted, intact, h, v) => Ended(PrepareAndVerify(w.db, i, granted, intact, h, v))
    case CallApprove(id, approvalId, resultId, digest, at) =>
      Ended(ApprovePublication(w.db, id, approvalId, resultId, digest, at))
    case CallBegin(id, effectId) => Ended(Begin(w.db, id, effectId))
    case CallSettle(effectId, job, receipt) =>
      var s := SettleReceipt(w.db, effectId, job, receipt);
      (s.0, s.1.Settled?)
    case CallChecks(id, effectId, head, canonical, os) => Ended(RecordChecks(w.db, id, effectId, head, canonical, os))
  }

  // The manager keeps what it did even when the call raises.
  function ServeManager(w: World, c: Call): Manager {
    match c
    case CallAllocate(r, granted, stamp) => Allocate(w.db, w.manager, r, granted, stamp).1
    case CallReleaseWorkspace(id, stamp) => ReleaseAllocation(w.db, w.manager, id, stamp).1
    case _ => w.manager
  }

  function Serve(w: World, c: Call): World {
    var s := ServeDb(w, c);
    World(if s.1 then s.0 else w.db, ServeManager(w, c))
  }

  function RunCalls(w: World, cs: seq<Call>): World {
    if cs == [] then w else Serve(RunCalls(w, cs[..|cs| - 1]), cs[|cs| - 1])
  }

  /******* What callers supply *******/

  // Arguments passed their own constructors; event ids are new, and the events that
  // callers make themselves name the task they are about.
  ghost predicate Sound(w: World, c: Call) {
    match c
    case CallTransition(id, _, _, e, _, _, _, _) => e.taskId == id && IsFresh(w.db, e)
    case CallFail(id, _, _, e, _) => e.taskId == id && IsFresh(w.db, e)
    case CallRecover(_, events) => EventsFor(w.db, events)
    case CallRegister(_, _, _, _, _, stamp) => stamp.eventId !in w.db.eventIds
    case CallStart(_, stamp) => stamp.eventId !in w.db.eventIds
    case CallIngest(_, _, _, draws) => FreshDraws(w.db, draws)
    case CallSession(r, stamp) => r.Accepted() && stamp.eventId !in w.db.eventIds
    case CallRun(_, answer) => answer.Accepted()
    case CallResult(r, _, _, _, a, m) =>
      r.Accepted() && a.eventId !in w.db.eventIds && m.eventId !in w.db.eventIds && a.eventId != m.eventId
    case CallCancel(_, _, _, _, _, _, stamp) => stamp.eventId !in w.db.eventIds
    case CallAllocate(_, _, stamp) => stamp.eventId !in w.db.eventIds
    case CallReleaseWorkspace(_, stamp) => stamp.eventId !in w.db.eventIds
    case CallPrepare(i, _, _, h, v) => i.Accepted() && h.Accepted() && v.Accepted()
    case CallSettle(_, _, receipt) => receipt.Accepted()
    case CallChecks(_, _, _, _, os) => forall i | 0 <= i < |os| :: os[i].Accepted()
    case _ => true
  }

  ghost predicate SoundRun(w: World, cs: seq<Call>) {
    cs != [] ==> SoundRun(w, cs[..|cs| - 1]) && Sound(RunCalls(w, cs[..|cs| - 1]), cs[|cs| - 1])
  }

  const NEW_WORLD := World(EMPTY, map[])

  /******* Every committed call keeps the ledgers and the coupling *******/

  ghost predicate Healthy(w: World) {
    Inv(w.db) && Coupled(w.db) && WorkspacesOwned(w.manager, w.db.tasks)
  }

  ghost predicate Onward(w: World, w': World) {
    && Healthy(w') && Extends(w.db, w'.db) && Kept(w.db, w'.db)
  }

  predicate OnTasks(c: Call) {
    || c.CallTransition? || c.CallFail? || c.CallRecover? || c.CallRegister? || c.CallStart? || c.CallClaim?
    || c.CallEngage? || c.CallRelease? || c.CallIngest? || c.CallCancel?
  }

  predicate OnPublications(c: Call) {
    || c.CallPrepare? || c.CallApprove? || c.CallBegin? || c.CallSettle? || c.CallChecks?
  }

  lemma TaskCallGood(w: World, c: Call)
    requires Inv(w.db) && Sound(w, c)
    requires OnTasks(c)
    ensures Good(w.db, ServeDb(w, c).0)
  {
    hide Good, Inv, Sound, Transition, QueueFail, Recover, Register, Start, ClaimNext, Engage, Release, Ingest, Cancel;
    match c
    case CallTransition(id, target, actor, e, v, n, evidence, granted) =>
      TransitionGood(w.db, id, target, actor, e, v, n, evidence, granted);
    case CallFail(id, worker, now, e, n) => QueueFailGood(w.db, id, worker, now, e, n);
    case CallRecover(now, events) => RecoverGood(w.db, now, events);
    case CallRegister(id, blob, request, v, n, stamp) => RegisterGood(w.db, id, blob, request, v, n, stamp);
    case CallStart(request, stamp) => StartGood(w.db, request, stamp);
    case CallClaim(worker, now, lease) => ClaimNextGood(w.db, worker, now, lease);
    case CallEngage(now) => FuseGood(w.db, now, false, None);
    case CallRelease(now, granted, revision) => FuseGood(w.db, now, granted, revision);
    case CallIngest(candidate, granted, revision, draws) => IngestGood(w.db, candidate, granted, revision, draws);
    case CallCancel(id, worker, now, granted, revision, n, stamp) =>
      CancelGood(w.db, id, worker, now, granted, revision, n, stamp);
  }

  lemma WorkCallGood(w: World, c: Call)
    requires Inv(w.db) && Sound(w, c) && !OnTasks(c) && !OnPublications(c)
    ensures Good(w.db, ServeDb(w, c).0)
  {
    hide Good, Inv, RequestSession, RunWorker, PublishResult, Allocate, ReleaseAllocation;
    match c
    case CallSession(r, stamp) => RequestSessionGood(w.db, r, stamp);
    case CallRun(id, answer) => RunWorkerGood(w.db, id, answer);
    case CallResult(r, blob, request, now, attached, moved) =>
      PublishResultGood(w.db, r, blob, request, now, attached, moved);
    case CallAllocate(r, granted, stamp) => AllocateGood(w.db, w.manager, r, granted, stamp);
    case CallReleaseWorkspace(id, stamp) => ReleaseAllocationGood(w.db, w.manager, id, stamp);
  }

  lemma PublicationCallGood(w: World, c: Call)
    requires Inv(w.db) && Sound(w, c) && OnPublications(c)
    ensures Good(w.db, ServeDb(w, c).0)
  {
    hide Good, Inv, PrepareAndVerify, ApprovePublication, Begin, SettleReceipt, RecordChecks;
    match c
    case CallPrepare(i, granted, intact, h, v) => PrepareAndVerifyGood(w.db, i, granted, intact, h, v);
    case CallApprove(id, approvalId, resultId, digest, at) =>
      ApprovePublicationGood(w.db, id, approvalId, resultId, digest, at);
    case CallBegin(id, effectId) => BeginGood(w.db, id, effectId);
    case CallSettle(effectId, job, receipt) => SettleReceiptGood(w.db, effectId, job, receipt);
    case CallChecks(id, effectId, head, canonical, os) => RecordChecksGood(w.db, id, effectId, head, canonical, os);
  }

  lemma CallGood(w: World, c: Call)
    requires Inv(w.db) && Sound(w, c)
    ensures Good(w.db, ServeDb(w, c).0)
  {
    hide Good, Inv, Sound, ServeDb;
    if OnTasks(c) { TaskCallGood(w, c); }
    else if OnPublications(c) { PublicationCallGood(w, c); }
    else { WorkCallGood(w, c); }
  }

  lemma TaskCallNext(w: World, c: Call)
    requires TasksOk(w.db.tasks) && Queue.QueueOk(w.db.queue) && Coupled(w.db) && Sound(w, c) && OnTasks(c)
    requires ServeDb(w, c).1
    ensures Next(w.db, ServeDb(w, c).0)
  {
    hide Next, TasksOk, Queue.QueueOk, Coupled, EventsFor, IsFresh, FreshDraws;
    hide Transition, QueueFail, Recover, Register, Start, ClaimNext, Engage, Release, Ingest, Cancel;
    match c
    case CallTransition(id, target, actor, e, v, n, evidence, granted) =>
      TransitionNext(w.db, id, target, actor, e, v, n, evidence, granted);
    case CallFail(id, worker, now, e, n) => QueueFailNext(w.db, id, worker, now, e, n);
    case CallRecover(now, events) => RecoverNext(w.db, now, events);
    case CallRegister(id, blob, request, v, n, stamp) => RegisterNext(w.db, id, blob, request, v, n, stamp);
    case CallStart(request, stamp) => StartNext(w.db, request, stamp);
    case CallClaim(worker, now, lease) => ClaimNextNext(w.db, worker, now, lease);
    case CallEngage(now) => FuseNext(w.db, now, false, None);
    case CallRelease(now, granted, revision) => FuseNext(w.db, now, granted, revision);
    case CallIngest(candidate, granted, revision, draws) => IngestNext(w.db, candidate, granted, revision, draws);
    case CallCancel(id, worker, now, granted, revision, n, stamp) =>
      CancelNext(w.db, id, worker, now, granted, revision, n, stamp);
  }

  lemma WorkCallNext(w: World, c: Call)
    requires TasksOk(w.db.tasks) && Queue.QueueOk(w.db.queue) && Coupled(w.db) && WorkspacesOwned(w.manager, w.db.tasks)
    requires Sound(w, c) && !OnTasks(c) && !OnPublications(c) && ServeDb(w, c).1
    ensures Next(w.db, ServeDb(w, c).0)
  {
    hide Next, TasksOk, Queue.QueueOk, Coupled, WorkspacesOwned;
    hide RequestSession, RunWorker, PublishResult, Allocate, ReleaseAllocation;
    match c
    case CallSession(r, stamp) => RequestSessionNext(w.db, r, stamp);
    case CallRun(id, answer) => RunWorkerNext(w.db, id, answer);
    case CallResult(r, blob, request, now, attached, moved) =>
      PublishResultNext(w.db, r, blob, request, now, attached, moved);
    case CallAllocate(r, granted, stamp) => AllocateNext(w.db, w.manager, r, granted, stamp);
    case CallReleaseWorkspace(id, stamp) => ReleaseAllocationNext(w.db, w.manager, id, stamp);
  }

  // Calls about publications leave everything else alone.
  ghost predicate OnlyPublications(db: Db, db': Db) {
    SameWork(db, db') && db'.sessions == db.sessions && db'.results == db.results
  }

  lemma PublicationsSame(db: Db, p: Publications, d: Approvals, e: Effects, o: Observations)
    ensures OnlyPublications(db, db)
    ensures OnlyPublications(db, db.(publications := p))
    ensures OnlyPublications(db, db.(approvals := d))
    ensures OnlyPublications(db, db.(effects := e))
    ensures OnlyPublications(db, db.(observations := o))
  {
  }

  lemma OnlyThen(a: Db, b: Db, c: Db)
    requires OnlyPublications(a, b) && OnlyPublications(b, c)
    ensures OnlyPublications(a, c)
  {
  }

  lemma PreparePublicationSame(db: Db, i: PublicationIntent, granted: bool, intact: bool, h: PreparedHead)
    ensures OnlyPublications(db, PreparePublication(db, i, granted, intact, h).db)
  {
    hide OnlyPublications, PublicationReserve, RecordPrepared, PreparePreconditions;
    var r := db.Reserve(i);
    PublicationsSame(db, r.db.publications, db.approvals, db.effects, db.observations);
    if r.out.Ok? {
      var p := r.db.Prepare(h, r.out.value.0.version).db;
      PublicationsSame(r.db, p.publications, db.approvals, db.effects, db.observations);
      OnlyThen(db, r.db, p);
    }
  }

  lemma PrepareSame(db: Db, i: PublicationIntent, granted: bool, intact: bool, h: PreparedHead, v: VerificationResult)
    ensures OnlyPublications(db, PrepareAndVerify(db, i, granted, intact, h, v).db)
  {
    hide OnlyPublications, PreparePublication, RecordVerification;
    var p := PreparePublication(db, i, granted, intact, h);
    PreparePublicationSame(db, i, granted, intact, h);
    if i.publicationId in p.db.publications {
      var q := p.db.Verify(v, p.db.publications[i.publicationId].version).db;
      PublicationsSame(p.db, q.publications, db.approvals, db.effects, db.observations);
      OnlyThen(db, p.db, q);
    }
  }

  lemma ApproveSame(db: Db, id: Text, approvalId: Text, resultId: Text, digest: Text, at: Time)
    ensures OnlyPublications(db, ApprovePublication(db, id, approvalId, resultId, digest, at).db)
  {
    hide OnlyPublications, ApprovalAppend, ReviewerEligible, SuccessfullyVerified, TaskReady;
    var d := ApprovePublication(db, id, approvalId, resultId, digest, at).db;
    PublicationsSame(db, db.publications, d.approvals, db.effects, db.observations);
  }

  lemma BeginSame(db: Db, id: Text, effectId: Text)
    ensures OnlyPublications(db, Begin(db, id, effectId).db)
  {
    hide OnlyPublications, EffectRequest, SuccessfullyVerified, TaskReady, ExactlyApproved;
    PublicationsSame(db, db.publications, db.approvals, Begin(db, id, effectId).db.effects, db.observations);
  }

  lemma SettleSame(db: Db, effectId: Text, job: Job, receipt: PublicationReceipt)
    ensures OnlyPublications(db, SettleReceipt(db, effectId, job, receipt).0)
  {
    hide OnlyPublications, EffectReconcile;
    var d := SettleReceipt(db, effectId, job, receipt).0;
    PublicationsSame(db, db.publications, db.approvals, d.effects, db.observations);
  }

  lemma {:induction false} ObservationsSame(db: Db, os: seq<CheckRunObservation>)
    ensures OnlyPublications(db, AppendObservations(db, os).db)
    decreases |os|
  {
    hide OnlyPublications, ObservationAppend;
    if os == [] {
      PublicationsSame(db, db.publications, db.approvals, db.effects, db.observations);
    } else {
      var a := db.AppendObservation(os[0]).db;
      PublicationsSame(db, db.publications, db.approvals, db.effects, a.observations);
      ObservationsSame(a, os[1..]);
      OnlyThen(db, a, AppendObservations(a, os[1..]).db);
    }
  }

  lemma PublicationCallOnly(w: World, c: Call)
    requires OnPublications(c)
    ensures OnlyPublications(w.db, ServeDb(w, c).0)
  {
    hide OnlyPublications, PrepareAndVerify, ApprovePublication, Begin, SettleReceipt, AppendObservations,
         ValidatedState;
    match c
    case CallPrepare(i, granted, intact, h, v) => PrepareSame(w.db, i, granted, intact, h, v);
    case CallApprove(id, approvalId, resultId, digest, at) => ApproveSame(w.db, id, approvalId, resultId, digest, at);
    case CallBegin(id, effectId) => BeginSame(w.db, id, effectId);
    case CallSettle(effectId, job, receipt) => SettleSame(w.db, effectId, job, receipt);
    case CallChecks(id, effectId, head, canonical, os) =>
      PublicationsSame(w.db, w.db.publications, w.db.approvals, w.db.effects, w.db.observations);
      ObservationsSame(w.db, os);
  }

  lemma PublicationCallSame(w: World, c: Call)
    requires OnPublications(c)
    ensures SameWork(w.db, ServeDb(w, c).0)
  {
    hide ServeDb, SameWork;
    PublicationCallOnly(w, c);
  }

  lemma CallNext(w: World, c: Call)
    requires TasksOk(w.db.tasks) && Queue.QueueOk(w.db.queue) && Coupled(w.db) && WorkspacesOwned(w.manager, w.db.tasks)
    requires Sound(w, c) && ServeDb(w, c).1
    ensures Next(w.db, ServeDb(w, c).0)
  {
    hide TasksOk, Queue.QueueOk, Coupled, WorkspacesOwned, ServeDb, Sound, Next, SameWork;
    if OnTasks(c) { TaskCallNext(w, c); }
    else if OnPublications(c) { PublicationCallSame(w, c); SameWorkNext(w.db, ServeDb(w, c).0); }
    else { WorkCallNext(w, c); }
  }

  lemma ManagerOwned(w: World, c: Call)
    requires Coupled(w.db) && WorkspacesOwned(w.manager, w.db.tasks) && Sound(w, c)
    ensures WorkspacesOwned(ServeManager(w, c), w.db.tasks)
  {
    hide Coupled, WorkspacesOwned, Allocate, ReleaseAllocation;
    match c
    case CallAllocate(r, granted, stamp) => AllocateNext(w.db, w.manager, r, granted, stamp);
    case CallReleaseWorkspace(id, stamp) => ReleaseAllocationNext(w.db, w.manager, id, stamp);
    case _ =>
  }

  lemma OwnedStays(m: Manager, tasks: Tasks, tasks': Tasks)
    requires WorkspacesOwned(m, tasks) && TasksGrow(tasks, tasks')
    ensures WorkspacesOwned(m, tasks')
  {
  }

  lemma HealthyParts(w: World)
    requires Healthy(w)
    ensures TasksOk(w.db.tasks) && Queue.QueueOk(w.db.queue)
  {
  }

  lemma ServeOnward(w: World, c: Call)
    requires Healthy(w) && Sound(w, c)
    ensures Onward(w, Serve(w, c))
  {
    hide Inv, Coupled, ServeDb, ServeManager, Sound, WorkspacesOwned, TasksOk, Queue.QueueOk, TasksGrow;
    HealthyParts(w);
    ManagerOwned(w, c);
    GoodSelf(w.db);
    NextSelf(w.db);
    if ServeDb(w, c).1 {
      CallGood(w, c);
      CallNext(w, c);
    }
    OwnedStays(ServeManager(w, c), w.db.tasks, Serve(w, c).db.tasks);
  }

  lemma NewWorldHealthy()
    ensures Healthy(NEW_WORLD)
  {
    EmptyInv();
  }

  lemma OnwardThen(a: World, b: World, c: World)
    requires Onward(a, b) && Onward(b, c)
    ensures Onward(a, c)
  {
    hide Inv, Coupled;
    ExtendsTransitive(a.db, b.db, c.db);
    NextThen(a.db, b.db, c.db);
  }

  // Over any run of service calls: the ledgers stay consistent and only grow, every
  // queue row's task exists and has not failed, a failed task stays failed, every
  // version of a task is covered by an event, sources and tasks correspond one to one.
  lemma {:induction false} RunOnward(w: World, cs: seq<Call>)
    requires Healthy(w) && SoundRun(w, cs)
    ensures Onward(w, RunCalls(w, cs))
  {
    hide Healthy, Sound, Extends, Kept, Serve;
    if cs == [] {
      OnwardSelf(w);
    } else {
      var v := RunCalls(w, cs[..|cs| - 1]);
      RunOnward(w, cs[..|cs| - 1]);
      ServeOnward(v, cs[|cs| - 1]);
      OnwardThen(w, v, RunCalls(w, cs));
    }
  }

  lemma OnwardSelf(w: World)
    requires Healthy(w)
    ensures Onward(w, w)
  {
    hide Inv, Coupled;
    ExtendsSelf(w.db);
  }

  /******* A queue row is created once *******/

  predicate HasRow(w: World, id: Text) { Queue.Find(w.db.queue, id).Some? }

  // How often the run gave the task a row it did not have.
  function Births(w: World, cs: seq<Call>, id: Text): nat {
    if cs == [] then 0
    else
      Births(w, cs[..|cs| - 1], id)
      + if !HasRow(RunCalls(w, cs[..|cs| - 1]), id) && HasRow(RunCalls(w, cs), id) then 1 else 0
  }

  lemma BirthIsFirst(w: World, c: Call, id: Text)
    requires Healthy(w) && Sound(w, c)
    ensures id in w.db.tasks ==> id in Serve(w, c).db.tasks && !(!HasRow(w, id) && HasRow(Serve(w, c), id))
    ensures HasRow(Serve(w, c), id) ==> id in Serve(w, c).db.tasks
  {
    hide Serve, Sound, Inv;
    ServeOnward(w, c);
  }

  lemma {:induction false} RowsAreBornOnce(cs: seq<Call>, id: Text)
    requires SoundRun(NEW_WORLD, cs)
    ensures Births(NEW_WORLD, cs, id) <= 1
    ensures Births(NEW_WORLD, cs, id) == 1 || HasRow(RunCalls(NEW_WORLD, cs), id) ==>
      id in RunCalls(NEW_WORLD, cs).db.tasks
  {
    hide Serve, Sound, Healthy, Onward;
    if cs != [] {
      var v := RunCalls(NEW_WORLD, cs[..|cs| - 1]);
      RowsAreBornOnce(cs[..|cs| - 1], id);
      NewWorldHealthy();
      RunOnward(NEW_WORLD, cs[..|cs| - 1]);
      assert Healthy(v) by { OnwardHealthy(NEW_WORLD, v); }
      BirthIsFirst(v, cs[|cs| - 1], id);
    }
  }

  lemma OnwardHealthy(w: World, v: World)
    requires Onward(w, v)
    ensures Healthy(v)
  {
  }
}

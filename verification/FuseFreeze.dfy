// What the engaged fuse holds still, over any run of service calls that does not release it.

module FuseFreeze {
  import opened Json
  import opened Domain
  import opened Records
  import opened Ledgers
  import opened Database
  import opened LedgerInvariants
  import opened Services
  import opened Publication
  import opened Coupling
  import opened ServiceRuns
  import opened ServiceOutcomes
  import Queue

  predicate Leased(q: Queue.Rows, id: Text) {
    Queue.Find(q, id).Some? && Queue.Find(q, id).value.claimedBy.Some?
  }

  predicate ActiveIn(m: Workspaces, id: Text) { id in m && m[id].state == ACTIVE }

  ghost predicate LeasesShrink(q: Queue.Rows, q': Queue.Rows) {
    && (Queue.Unique(q) ==> Queue.Unique(q'))
    && forall id | Leased(q', id) :: Leased(q, id)
  }

  ghost predicate OnlyReceipts(m: Effects, n: Effects) {
    && m.Keys == n.Keys
    && forall k | k in m :: n[k].intent == m[k].intent && (m[k].receipt.Some? ==> n[k] == m[k])
  }

  // Task ids, intakes, sources, sessions with their outcomes, publications, approvals and
  // observations stand still; leases and active workspaces only go; effects only gain
  // their receipt.
  ghost predicate Frozen(db: Db, db': Db) {
    && db'.fuse.engaged == db.fuse.engaged
    && db'.tasks.Keys == db.tasks.Keys
    && db'.intakes == db.intakes
    && db'.sources == db.sources
    && db'.sessions == db.sessions
    && db'.publications == db.publications
    && db'.approvals == db.approvals
    && db'.observations == db.observations
    && OnlyReceipts(db.effects, db'.effects)
    && LeasesShrink(db.queue, db'.queue)
    && (forall id | ActiveIn(db'.workspaces, id) :: ActiveIn(db.workspaces, id))
    && db'.workspaces.Keys == db.workspaces.Keys
  }

  lemma FrozenSelf(db: Db)
    ensures Frozen(db, db)
  {
  }

  lemma FrozenThen(a: Db, b: Db, c: Db)
    requires Frozen(a, b) && Frozen(b, c)
    ensures Frozen(a, c)
  {
  }

  /******* Store calls that freeze *******/

  lemma UpdateFrozen(db: Db, t: Task, v: nat)
    ensures Frozen(db, db.UpdateTask(t, v).db)
  {
  }

  lemma AppendFrozen(db: Db, e: Event, n: nat)
    ensures Frozen(db, db.AppendEvent(e, n).db)
  {
    hide EventAppend;
  }

  lemma ArtifactFrozen(db: Db, a: CatalogedArtifact)
    ensures Frozen(db, db.RegisterArtifact(a).db)
  {
    hide ArtifactRegister;
  }

  lemma ResultFrozen(db: Db, r: WorkerResult)
    ensures Frozen(db, db.RecordResult(r).db)
  {
    hide ResultRecordOnce;
  }

  lemma ReleaseFrozen(db: Db, id: Text)
    ensures Frozen(db, db.ReleaseWorkspace(id).db)
  {
  }

  lemma ReconcileOnlyReceipts(m: Effects, p: Publications, r: PublicationReceipt)
    ensures OnlyReceipts(m, EffectReconcile(m, p, r).m)
  {
    hide PullMatches;
  }

  lemma ReconcileFrozen(db: Db, r: PublicationReceipt)
    ensures Frozen(db, db.ReconcileEffect(r).db)
  {
    hide EffectReconcile, OnlyReceipts;
    ReconcileOnlyReceipts(db.effects, db.publications, r);
  }

  lemma CommandLeases(q: Queue.Rows, c: Queue.Command, id: Text)
    requires Queue.Unique(q) && !c.EnqueueRow? && !c.ClaimRow? && Leased(Queue.Execute(q, c).0, id)
    ensures Leased(q, id)
  {
    Queue.ExecuteRow(q, c, id);
  }

  lemma QueueFrozen(db: Db, c: Queue.Command)
    requires Queue.Unique(db.queue) && !c.EnqueueRow? && !c.ClaimRow?
    ensures Frozen(db, db.(queue := Queue.Execute(db.queue, c).0))
  {
    hide Queue.Execute, Leased;
    Queue.ExecuteRow(db.queue, c, []);
    forall id | Leased(Queue.Execute(db.queue, c).0, id) ensures Leased(db.queue, id) {
      CommandLeases(db.queue, c, id);
    }
  }

  /******* Service calls that freeze *******/

  lemma AdvanceFrozen(db: Db, t: Task, v: nat, e: Event, n: nat)
    ensures Frozen(db, Advance(db, t, v, e, n).db)
  {
    hide Frozen, TaskUpdate, EventAppend;
    var u := db.UpdateTask(t, v).db;
    UpdateFrozen(db, t, v);
    AppendFrozen(u, e, n);
    FrozenThen(db, u, u.AppendEvent(e, n).db);
  }

  lemma TransitionFrozen(db: Db, id: Text, target: TaskStatus, actor: Role, e: Event, v: nat, n: nat, evidence: bool,
                         granted: bool)
    ensures Frozen(db, Transition(db, id, target, actor, e, v, n, evidence, granted).db)
  {
    hide Frozen, Advance, Target;
    FrozenSelf(db);
    if id in db.tasks && Target(db.tasks[id], target, actor, granted).Ok? {
      AdvanceFrozen(db, Target(db.tasks[id], target, actor, granted).value, v, e, n);
    }
  }

  lemma FailTaskFrozen(db: Db, t: Task, e: Event, n: nat)
    ensures Frozen(db, FailTask(db, t, e, n).db)
  {
    hide Frozen, Advance;
    FrozenSelf(db);
    if t.Fail(SYSTEM).Ok? { AdvanceFrozen(db, t.Fail(SYSTEM).value, t.version, e, n); }
  }

  lemma QueueFailFrozen(db: Db, id: Text, w: Text, now: Time, e: Event, n: nat)
    requires Queue.Unique(db.queue)
    ensures Frozen(db, QueueFail(db, id, w, now, e, n).db)
  {
    hide Frozen, FailTask, EventAppend, Queue.Fail;
    FrozenSelf(db);
    var q := db.UseQueue(Queue.Fail(db.queue, id, w, now)).db;
    assert q == db.(queue := Queue.Execute(db.queue, Queue.FailRow(id, w, now, [])).0);
    QueueFrozen(db, Queue.FailRow(id, w, now, []));
    AppendFrozen(q, e, n);
    FrozenThen(db, q, q.AppendEvent(e, n).db);
    if id in db.tasks {
      FailTaskFrozen(q, db.tasks[id], e, n);
      FrozenThen(db, q, FailTask(q, db.tasks[id], e, n).db);
    }
  }

  lemma {:induction false} SettleRecoveredFrozen(db: Db, results: seq<Queue.FailureResult>, events: TerminalEvents)
    ensures Frozen(db, SettleRecovered(db, results, events).db)
    decreases |results|
  {
    hide Frozen, FailTask;
    FrozenSelf(db);
    if results != [] {
      var id := results[0].taskId;
      if !results[0].terminal {
        SettleRecoveredFrozen(db, results[1..], events);
      } else if id in db.tasks && id in events {
        var f := FailTask(db, db.tasks[id], events[id].0, events[id].1).db;
        FailTaskFrozen(db, db.tasks[id], events[id].0, events[id].1);
        SettleRecoveredFrozen(f, results[1..], events);
        FrozenThen(db, f, SettleRecovered(f, results[1..], events).db);
      }
    }
  }

  lemma RecoverFrozen(db: Db, now: Time, events: TerminalEvents)
    requires Queue.Unique(db.queue)
    ensures Frozen(db, Recover(db, now, events).db)
  {
    hide Frozen, SettleRecovered, Queue.RecoverRows, Queue.RecoverResults;
    var q := db.(queue := Queue.RecoverRows(db.queue, now));
    var results := Queue.RecoverResults(db.queue, now);
    assert q == db.(queue := Queue.Execute(db.queue, Queue.RecoverExpired(now)).0);
    QueueFrozen(db, Queue.RecoverExpired(now));
    SettleRecoveredFrozen(q, results, events);
    FrozenThen(db, q, SettleRecovered(q, results, events).db);
  }

  lemma RegisterFrozen(db: Db, id: Text, blob: Blob, request: ArtifactRequest, v: nat, n: nat, stamp: Stamp)
    ensures Frozen(db, Register(db, id, blob, request, v, n, stamp).db)
  {
    hide Frozen, ArtifactRegister, TaskUpdate, EventAppend, ArtifactJson;
    FrozenSelf(db);
    var a := Catalogued(blob, request);
    if !request.containsSecrets && id in db.tasks {
      var r := db.RegisterArtifact(a).db;
      var t := db.tasks[id].AttachArtifact(a.reference);
      var u := if t != db.tasks[id] then r.UpdateTask(t, v).db else r;
      var e := ArtifactEvent(id, a.reference, stamp, n);
      ArtifactFrozen(db, a);
      UpdateFrozen(r, t, v);
      FrozenSelf(r);
      FrozenThen(db, r, u);
      AppendFrozen(u, e, n);
      FrozenThen(db, u, u.AppendEvent(e, n).db);
    }
  }

  lemma CompleteFrozen(db: Db, id: Text, w: Text, now: Time)
    requires Queue.Unique(db.queue)
    ensures Frozen(db, db.UseQueue(Queue.Complete(db.queue, id, w, now)).db)
  {
    hide Frozen, Queue.Complete;
    assert Queue.Execute(db.queue, Queue.CompleteRow(id, w, now)).0 == Queue.Complete(db.queue, id, w, now).rows;
    QueueFrozen(db, Queue.CompleteRow(id, w, now));
  }

  lemma FrozenUnique(db: Db, db': Db)
    requires Frozen(db, db') && Queue.Unique(db.queue)
    ensures Queue.Unique(db'.queue)
  {
  }

  lemma PublishResultFrozen(db: Db, result: WorkerResult, blob: Blob, request: ArtifactRequest, now: Time,
                            attached: Stamp, moved: Stamp)
    requires Queue.Unique(db.queue)
    ensures Frozen(db, PublishResult(db, result, blob, request, now, attached, moved).db)
  {
    hide Frozen, Register, Transition, Queue.Complete, ResultRecordOnce, SessionSupports, Fresh, ArtifactJson;
    FrozenSelf(db);
    var id := result.taskId;
    var r := Register(db, id, blob, request, result.expectedTaskVersion, result.expectedSequence, attached);
    RegisterFrozen(db, id, blob, request, result.expectedTaskVersion, result.expectedSequence, attached);
    if r.out.Ok? && id in r.db.tasks {
      var e, n := ResultEvent(result, r.out.value, moved), result.expectedSequence + 1;
      var t := Transition(r.db, id, result.target, result.worker.role, e, r.db.tasks[id].version, n, true, false).db;
      TransitionFrozen(r.db, id, result.target, result.worker.role, e, r.db.tasks[id].version, n, true, false);
      FrozenThen(db, r.db, t);
      FrozenUnique(db, t);
      var q := t.UseQueue(Queue.Complete(t.queue, id, result.worker.workerId, now)).db;
      CompleteFrozen(t, id, result.worker.workerId, now);
      FrozenThen(db, t, q);
      ResultFrozen(q, result);
      FrozenThen(db, q, q.RecordResult(result).db);
    }
  }

  lemma CancelFrozen(db: Db, id: Text, w: Text, now: Time, granted: bool, revision: Option<Text>, n: nat, stamp: Stamp)
    requires Queue.Unique(db.queue)
    ensures Frozen(db, Cancel(db, id, w, now, granted, revision, n, stamp).db)
  {
    hide Frozen, TaskUpdate, EventAppend, Queue.Complete;
    FrozenSelf(db);
    if id in db.tasks && db.tasks[id].Block().Ok? {
      var b := Advance(db, db.tasks[id].Block().value, db.tasks[id].version, CancelEvent(id, stamp, n), n).db;
      AdvanceFrozen(db, db.tasks[id].Block().value, db.tasks[id].version, CancelEvent(id, stamp, n), n);
      FrozenUnique(db, b);
      CompleteFrozen(b, id, w, now);
      FrozenThen(db, b, b.UseQueue(Queue.Complete(b.queue, id, w, now)).db);
    }
  }

  lemma ReleaseAllocationFrozen(db: Db, m: Manager, id: Text, stamp: Stamp)
    ensures Frozen(db, ReleaseAllocation(db, m, id, stamp).0.db)
  {
    hide Frozen, WorkspaceRelease, EventAppend;
    FrozenSelf(db);
    var w := db.ReleaseWorkspace(id);
    ReleaseFrozen(db, id);
    if w.out.Ok? {
      var n := Sequence(w.db, w.out.value.request.taskId);
      AppendFrozen(w.db, ReleasedEvent(w.out.value, stamp, n), n);
      FrozenThen(db, w.db, w.db.AppendEvent(ReleasedEvent(w.out.value, stamp, n), n).db);
    }
  }

  lemma SettleFrozen(db: Db, effectId: Text, job: Job, receipt: PublicationReceipt)
    ensures Frozen(db, SettleReceipt(db, effectId, job, receipt).0)
  {
    hide Frozen, EffectReconcile;
    FrozenSelf(db);
    ReconcileFrozen(db, receipt);
  }

  /******* Every call *******/

  // These start with the fuse, or replay something already recorded.
  predicate Guarded(c: Call) {
    || c.CallStart? || c.CallIngest? || c.CallClaim? || c.CallSession? || c.CallRun? || c.CallAllocate?
    || c.CallPrepare? || c.CallApprove? || c.CallBegin? || c.CallChecks?
  }

  lemma GuardedTasksStopped(w: World, c: Call)
    requires w.db.fuse.engaged && Guarded(c) && !OnPublications(c) && ServeDb(w, c).1
    ensures ServeDb(w, c).0 == w.db
  {
    hide FileIntake, FileSource, FileWorkspace, Policy, EventAppend, SessionRecordOnce, SessionSetOutcome;
    hide IntakeTask, Queue.Claim, TriggerUsed;
  }

  lemma GuardedStopped(w: World, c: Call)
    requires w.db.fuse.engaged && Guarded(c) && ServeDb(w, c).1
    ensures ServeDb(w, c).0 == w.db
  {
    hide Start, Ingest, ClaimNext, RequestSession, RunWorker, Allocate;
    hide SourcesEligible, ReviewerEligible, TaskReady, AppendObservations, SuccessfullyVerified, EffectRequest,
         ApprovalAppend;
    if !OnPublications(c) { GuardedTasksStopped(w, c); }
  }

  lemma UnguardedFrozen(w: World, c: Call)
    requires Queue.Unique(w.db.queue) && !Guarded(c) && !c.CallRelease? && !c.CallEngage?
    ensures Frozen(w.db, ServeDb(w, c).0)
  {
    hide Frozen, Transition, QueueFail, Recover, Register, PublishResult, Cancel, ReleaseAllocation, SettleReceipt;
    match c
    case CallTransition(id, target, actor, e, v, n, evidence, granted) =>
      TransitionFrozen(w.db, id, target, actor, e, v, n, evidence, granted);
    case CallFail(id, worker, now, e, n) => QueueFailFrozen(w.db, id, worker, now, e, n);
    case CallRecover(now, events) => RecoverFrozen(w.db, now, events);
    case CallRegister(id, blob, request, v, n, stamp) => RegisterFrozen(w.db, id, blob, request, v, n, stamp);
    case CallResult(r, blob, request, now, attached, moved) =>
      PublishResultFrozen(w.db, r, blob, request, now, attached, moved);
    case CallCancel(id, worker, now, granted, revision, n, stamp) =>
      CancelFrozen(w.db, id, worker, now, granted, revision, n, stamp);
    case CallReleaseWorkspace(id, stamp) => ReleaseAllocationFrozen(w.db, w.manager, id, stamp);
    case CallSettle(effectId, job, receipt) => SettleFrozen(w.db, effectId, job, receipt);
  }

  lemma CallFrozen(w: World, c: Call)
    requires Queue.Unique(w.db.queue) && w.db.fuse.engaged && !c.CallRelease? && ServeDb(w, c).1
    ensures Frozen(w.db, ServeDb(w, c).0)
  {
    hide Frozen;
    if Guarded(c) {
      hide ServeDb;
      GuardedStopped(w, c);
      FrozenSelf(w.db);
    } else if c.CallEngage? {
      hide Engage;
      EngageFrozen(w.db, c.now);
    } else {
      hide ServeDb;
      UnguardedFrozen(w, c);
    }
  }

  lemma EngageFrozen(db: Db, now: Time)
    requires db.fuse.engaged
    ensures Frozen(db, Engage(db, now).db)
  {
  }

  ghost predicate NoRelease(cs: seq<Call>) {
    forall i | 0 <= i < |cs| :: !cs[i].CallRelease?
  }

  lemma ServeFrozen(w: World, c: Call)
    requires Healthy(w) && w.db.fuse.engaged && !c.CallRelease?
    ensures Frozen(w.db, Serve(w, c).db)
  {
    hide Frozen, Inv, Coupled, ServeDb;
    HealthyParts(w);
    UniqueRows(w.db.queue);
    FrozenSelf(w.db);
    if ServeDb(w, c).1 { CallFrozen(w, c); }
  }

  // Through any run of service calls while the fuse is engaged.
  lemma {:induction false} EngagedFuseFreezes(w: World, cs: seq<Call>)
    requires Healthy(w) && SoundRun(w, cs) && w.db.fuse.engaged && NoRelease(cs)
    ensures Frozen(w.db, RunCalls(w, cs).db)
  {
    hide Healthy, Onward, Frozen, Serve, Sound;
    if cs == [] {
      FrozenSelf(w.db);
    } else {
      var v := RunCalls(w, cs[..|cs| - 1]);
      EngagedFuseFreezes(w, cs[..|cs| - 1]);
      RunOnward(w, cs[..|cs| - 1]);
      OnwardHealthy(w, v);
      StillEngaged(w.db, v.db);
      ServeFrozen(v, cs[|cs| - 1]);
      FrozenThen(w.db, v.db, RunCalls(w, cs).db);
    }
  }

  lemma StillEngaged(db: Db, db': Db)
    requires Frozen(db, db') && db.fuse.engaged
    ensures db'.fuse.engaged
  {
  }
}

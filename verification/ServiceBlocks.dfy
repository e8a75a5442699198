// Service calls in blocks of the in-memory unit of work: what a block commits, and runs of
// blocks on the heap as runs of calls.

module ServiceBlocks {
  import opened Json
  import opened Domain
  import opened Records
  import opened Ledgers
  import opened Database
  import opened Heap
  import opened Memory
  import opened UnitOfWork
  import opened Services
  import opened Publication
  import opened ServiceMethods
  import opened WorkspaceMethods
  import opened PublicationMethods
  import opened ServiceRuns
  import opened Blocks

  method ServeTask(uow: Stores, ghost maps: Maps, c: Call) returns (ok: bool)
    requires uow.BoundTo(maps) && maps.Valid() && OnTasks(c)
    modifies maps.All()
    ensures maps.Valid() && forall o | o in maps.All() :: o in old(maps.All()) || fresh(o)
    ensures (maps.View(), ok) == ServeDb(World(old(maps.View()), map[]), c)
  {
    hide Maps.View, Maps.All, Maps.Valid, Stores.BoundTo;
    hide Transition, QueueFail, Recover, Register, Start, ClaimNext, Engage, Release, Ingest, Cancel;
    match c
    case CallTransition(id, target, actor, e, v, n, evidence, granted) =>
      var out := TransitionTask(uow, maps, id, target, actor, e, v, n, evidence, granted);
      ok := out.Ok?;
    case CallFail(id, worker, now, e, n) =>
      var out := FailLease(uow, maps, id, worker, now, e, n);
      ok := out.Ok?;
    case CallRecover(now, events) =>
      var out := RecoverLeases(uow, maps, now, events);
      ok := out.Ok?;
    case CallRegister(id, blob, request, v, n, stamp) =>
      var out := RegisterBlob(uow, maps, id, blob, request, v, n, stamp);
      ok := out.Ok?;
    case CallStart(request, stamp) =>
      var out := StartTask(uow, maps, request, stamp);
      ok := out.Ok?;
    case CallClaim(worker, now, lease) =>
      var out := ClaimTask(uow, maps, worker, now, lease);
      ok := out.Ok?;
    case CallEngage(now) =>
      var _ := EngageFuse(uow, maps, now);
      ok := true;
    case CallRelease(now, granted, revision) =>
      var out := ReleaseFuse(uow, maps, now, granted, revision);
      ok := out.Ok?;
    case CallIngest(candidate, granted, revision, draws) =>
      var out := IngestIssue(uow, maps, candidate, granted, revision, draws);
      ok := out.Ok?;
    case CallCancel(id, worker, now, granted, revision, n, stamp) =>
      var out := CancelTask(uow, maps, id, worker, now, granted, revision, n, stamp);
      ok := out.Ok?;
  }

  method ServePublication(uow: Stores, ghost maps: Maps, c: Call) returns (ok: bool)
    requires uow.BoundTo(maps) && maps.Valid() && OnPublications(c)
    modifies maps.All()
    ensures maps.Valid() && forall o | o in maps.All() :: o in old(maps.All()) || fresh(o)
    ensures (maps.View(), ok) == ServeDb(World(old(maps.View()), map[]), c)
  {
    hide Maps.View, Maps.All, Maps.Valid, Stores.BoundTo;
    hide PrepareAndVerify, ApprovePublication, Begin, SettleReceipt, RecordChecks;
    match c
    case CallPrepare(i, granted, intact, h, v) =>
      var out := PrepareVerified(uow, maps, i, granted, intact, h, v);
      ok := out.Ok?;
    case CallApprove(id, approvalId, resultId, digest, at) =>
      var out := Approve(uow, maps, id, approvalId, resultId, digest, at);
      ok := out.Ok?;
    case CallBegin(id, effectId) =>
      var out := RequestPublication(uow, maps, id, effectId);
      ok := out.Ok?;
    case CallSettle(effectId, job, receipt) =>
      var commit, out := StoreReceipt(uow, maps, effectId, job, receipt);
      ok := out.Settled?;
    case CallChecks(id, effectId, head, canonical, os) =>
      var out := RecordAll(uow, maps, id, effectId, head, canonical, os);
      ok := out.Ok?;
  }

  method ServeWork(uow: Stores, ghost maps: Maps, manager: FakeWorkspaceManager, c: Call) returns (ok: bool)
    requires uow.BoundTo(maps) && maps.Valid() && manager !in maps.All() && !OnTasks(c) && !OnPublications(c)
    modifies maps.All(), manager
    ensures maps.Valid() && forall o | o in maps.All() :: o in old(maps.All()) || fresh(o)
    ensures (maps.View(), ok) == ServeDb(World(old(maps.View()), old(manager.records)), c)
    ensures manager.records == ServeManager(World(old(maps.View()), old(manager.records)), c)
  {
    hide Maps.View, Maps.All, Maps.Valid, Stores.BoundTo;
    hide RequestSession, RunWorker, PublishResult, Allocate, ReleaseAllocation;
    match c
    case CallSession(r, stamp) =>
      var out := RequestRunner(uow, maps, r, stamp);
      ok := out.Ok?;
    case CallRun(id, answer) =>
      var out := RunSession(uow, maps, id, answer);
      ok := out.Ok?;
    case CallResult(r, blob, request, now, attached, moved) =>
      var out := PublishWorkerResult(uow, maps, r, blob, request, now, attached, moved);
      ok := out.Ok?;
    case CallAllocate(r, granted, stamp) =>
      var out := AllocateWorkspace(uow, maps, manager, r, granted, stamp);
      ok := out.Ok?;
    case CallReleaseWorkspace(id, stamp) =>
      var out := FreeWorkspace(uow, maps, manager, id, stamp);
      ok := out.Ok?;
  }

  // The manager plays no part in the other calls.
  lemma ManagerAside(db: Db, m: Manager, c: Call)
    requires OnTasks(c) || OnPublications(c)
    ensures ServeDb(World(db, m), c) == ServeDb(World(db, map[]), c) && ServeManager(World(db, m), c) == m
  {
    hide Transition, QueueFail, Recover, Register, Start, ClaimNext, Engage, Release, Ingest, Cancel;
    hide PrepareAndVerify, ApprovePublication, Begin, SettleReceipt, RecordChecks;
  }

  method ServeCall(uow: Stores, ghost maps: Maps, manager: FakeWorkspaceManager, c: Call) returns (ok: bool)
    requires uow.BoundTo(maps) && maps.Valid() && manager !in maps.All()
    modifies maps.All(), manager
    ensures maps.Valid() && forall o | o in maps.All() :: o in old(maps.All()) || fresh(o)
    ensures (maps.View(), ok) == ServeDb(World(old(maps.View()), old(manager.records)), c)
    ensures manager.records == ServeManager(World(old(maps.View()), old(manager.records)), c)
  {
    hide Maps.View, Maps.All, Maps.Valid, Stores.BoundTo, ServeDb, ServeManager;
    if OnTasks(c) {
      ManagerAside(maps.View(), manager.records, c);
      ok := ServeTask(uow, maps, c);
    } else if OnPublications(c) {
      ManagerAside(maps.View(), manager.records, c);
      ok := ServePublication(uow, maps, c);
    } else {
      ok := ServeWork(uow, maps, manager, c);
    }
  }

  // A block around one service call, committed exactly when the call returns: the committed
  // collections are those of the call, or untouched when it raised part of the way.
  method ServeBlock(uow: InMemoryUnitOfWork, manager: FakeWorkspaceManager, c: Call)
    requires uow.Settled() && manager !in uow.committed.All()
    modifies uow, manager
    ensures uow.Settled() && (uow.committed == old(uow.committed) || fresh(uow.committed.All()))
    ensures manager !in uow.committed.All()
    ensures World(uow.committed.View(), manager.records)
         == Serve(World(old(uow.committed.View()), old(manager.records)), c)
  {
    hide Maps.View, Maps.Valid, Maps.All, Stores.BoundTo, ServeDb, ServeManager;
    OldOnes(uow.committed);
    uow.Enter();
    var ok := ServeCall(uow.stores, uow.bound, manager, c);
    assert forall o: object | o in old(uow.committed.All()) :: o != manager;
    NoneWritten(uow.committed);
    uow.Finish(ok);
  }

  // The calls of one block, one after another on the same collections.
  method ServeMany(uow: Stores, ghost maps: Maps, manager: FakeWorkspaceManager, cs: seq<Call>)
    requires uow.BoundTo(maps) && maps.Valid() && manager !in maps.All()
    modifies maps.All(), manager
    ensures maps.Valid() && forall o | o in maps.All() :: o in old(maps.All()) || fresh(o)
    ensures World(maps.View(), manager.records) == WithinAll(World(old(maps.View()), old(manager.records)), cs)
  {
    hide Maps.View, Maps.All, Maps.Valid, Stores.BoundTo, ServeDb, ServeManager;
    var i := 0;
    while i < |cs|
      invariant 0 <= i <= |cs|
      invariant maps.Valid() && (forall o | o in maps.All() :: o in old(maps.All()) || fresh(o))
      invariant World(maps.View(), manager.records)
             == WithinAll(World(old(maps.View()), old(manager.records)), cs[..i])
    {
      assert cs[..i + 1][..i] == cs[..i];
      var _ := ServeCall(uow, maps, manager, cs[i]);
      i := i + 1;
    }
    assert cs[..|cs|] == cs;
  }

  // A block around any calls, committed or left before its commit: nothing of a dropped
  // block is committed, and the manager, which has no part in it, keeps what it did.
  method SharedBlock(uow: InMemoryUnitOfWork, manager: FakeWorkspaceManager, b: Block)
    requires uow.Settled() && manager !in uow.committed.All()
    modifies uow, manager
    ensures uow.Settled() && (uow.committed == old(uow.committed) || fresh(uow.committed.All()))
    ensures manager !in uow.committed.All()
    ensures World(uow.committed.View(), manager.records)
         == AfterBlock(World(old(uow.committed.View()), old(manager.records)), b)
  {
    hide Maps.View, Maps.Valid, Maps.All, Stores.BoundTo, WithinAll;
    OldOnes(uow.committed);
    uow.Enter();
    ServeMany(uow.stores, uow.bound, manager, b.calls);
    assert forall o: object | o in old(uow.committed.All()) :: o != manager;
    NoneWritten(uow.committed);
    uow.Finish(b.commit);
  }

  // Blocks of any calls one after another: what every run of blocks keeps, the heap keeps.
  method ServeBlocks(uow: InMemoryUnitOfWork, manager: FakeWorkspaceManager, bs: seq<Block>)
    requires uow.Settled() && manager !in uow.committed.All()
    modifies uow, manager
    ensures uow.Settled() && (uow.committed == old(uow.committed) || fresh(uow.committed.All()))
    ensures World(uow.committed.View(), manager.records)
         == RunBlocks(World(old(uow.committed.View()), old(manager.records)), bs)
  {
    hide Maps.View, Maps.Valid, Maps.All, InMemoryUnitOfWork.Settled, AfterBlock;
    var i := 0;
    while i < |bs|
      invariant 0 <= i <= |bs|
      invariant uow.Settled() && manager !in uow.committed.All()
      invariant uow.committed == old(uow.committed) || fresh(uow.committed.All())
      invariant World(uow.committed.View(), manager.records)
             == RunBlocks(World(old(uow.committed.View()), old(manager.records)), bs[..i])
    {
      assert bs[..i + 1][..i] == bs[..i];
      SharedBlock(uow, manager, bs[i]);
      i := i + 1;
    }
    assert bs[..|bs|] == bs;
  }

  // Blocks one after another are a run of calls: what every run keeps, the heap keeps.
  method ServeAll(uow: InMemoryUnitOfWork, manager: FakeWorkspaceManager, cs: seq<Call>)
    requires uow.Settled() && manager !in uow.committed.All()
    modifies uow, manager
    ensures uow.Settled() && (uow.committed == old(uow.committed) || fresh(uow.committed.All()))
    ensures World(uow.committed.View(), manager.records)
         == RunCalls(World(old(uow.committed.View()), old(manager.records)), cs)
  {
    hide Maps.View, Maps.Valid, Maps.All, InMemoryUnitOfWork.Settled, Serve;
    var i := 0;
    while i < |cs|
      invariant 0 <= i <= |cs|
      invariant uow.Settled() && manager !in uow.committed.All()
      invariant uow.committed == old(uow.committed) || fresh(uow.committed.All())
      invariant World(uow.committed.View(), manager.records)
             == RunCalls(World(old(uow.committed.View()), old(manager.records)), cs[..i])
    {
      assert cs[..i + 1][..i] == cs[..i];
      ServeBlock(uow, manager, cs[i]);
      i := i + 1;
    }
    assert cs[..|cs|] == cs;
  }
}

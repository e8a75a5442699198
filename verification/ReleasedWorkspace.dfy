// A run of blocks after which a workspace is reported as created and is already released.

module ReleasedWorkspace {
  import opened Json
  import opened Domain
  import opened Records
  import opened Ledgers
  import opened Database
  import opened Services
  import opened Coupling
  import opened ServiceRuns
  import opened Blocks
  import opened WorkspaceOutcomes
  import opened SampleNames
  import opened Samples
  import SqlStores

  // Two allocations of one purpose, the second made with the event of the first in place.
  function First(): WorkspaceRequest { WorkspaceRequest(W, T, PLANNER, PLANNING, ZeroSha(), 0, 1, T, None) }

  function Second(): WorkspaceRequest { First().(allocationId := S, expectedSequence := 2) }

  const PLANNER_SESSION := RunnerSessionRequest(S, T, PLANNER, 0, 1, [], 60, T)

  // The first allocation succeeds, the second is refused and compensated, the block is
  // dropped; then another block adds an event to the task.
  function SharedRun(): seq<Block> {
    [Block([CallStart(INTAKE, Draw(1))], true),
     Block([CallAllocate(First(), false, Draw(2)), CallAllocate(Second(), false, Draw(3))], false),
     Block([CallSession(PLANNER_SESSION, Draw(4))], true)]
  }

  lemma RecordsAccepted()
    ensures First().Accepted() && Second().Accepted() && PLANNER_SESSION.Accepted()
  {
    NamesAccepted();
  }

  /******* Single calls *******/

  lemma EventFields(r: WorkspaceRequest, stamp: Stamp)
    ensures var e := AllocatedEvent(r, stamp);
            e.eventId == stamp.eventId && e.taskId == r.taskId && e.sequence == r.expectedSequence + 1
  {
  }

  // A new workspace of a free purpose is filed.
  lemma NewlyFiled(db: Db, record: WorkspaceRecord, r: WorkspaceRequest, stamp: Stamp)
    requires Allocatable(db, r, false) && stamp.eventId !in db.eventIds && record.request == r
    ensures var f := FileWorkspace(db, record, r, stamp);
            f.out.Ok? && f.db == Appended(db.(workspaces := db.workspaces[r.allocationId := record]),
                                          AllocatedEvent(r, stamp))
  {
    hide Policy, EventAppend, PurposeTaken, AllocatedEvent;
    EventFields(r, stamp);
    AppendShape(db.(workspaces := db.workspaces[r.allocationId := record]), AllocatedEvent(r, stamp),
                r.expectedSequence);
  }

  // A new allocation of a free purpose.
  lemma NewAllocation(db: Db, r: WorkspaceRequest, stamp: Stamp)
    requires Allocatable(db, r, false) && stamp.eventId !in db.eventIds
    ensures var a := Allocate(db, map[], r, false, stamp);
            && a.0.out.Ok? && a.1 == map[r.allocationId := NewRecord(db, r)]
            && a.0.db == Appended(db.(workspaces := db.workspaces[r.allocationId := NewRecord(db, r)]),
                                  AllocatedEvent(r, stamp))
  {
    hide Policy, FileWorkspace, PurposeTaken, AllocatedEvent, Appended;
    NewlyFiled(db, NewRecord(db, r), r, stamp);
  }

  function NewRecord(db: Db, r: WorkspaceRequest): WorkspaceRecord
    requires r.taskId in db.tasks && Policy(db.tasks[r.taskId], r, false).Ok?
  {
    WorkspaceRecord(r, Policy(db.tasks[r.taskId], r, false).value, db.tasks[r.taskId].repository.name, ACTIVE)
  }

  // One of an occupied purpose: the ledger refuses, and the manager's record is released.
  lemma Compensated(db: Db, m: Manager, r: WorkspaceRequest, stamp: Stamp)
    requires r.allocationId !in db.workspaces && r.allocationId !in m && !db.fuse.engaged
    requires PurposeTaken(db.workspaces, r.taskId, r.purpose)
    requires Fresh(db, r.taskId, r.expectedTaskVersion, r.expectedSequence)
    requires Policy(db.tasks[r.taskId], r, false).Ok?
    ensures var a := Allocate(db, m, r, false, stamp);
            a.0.out.Err? && a.1 == m[r.allocationId := NewRecord(db, r)][r.allocationId :=
                                     NewRecord(db, r).(state := RELEASED)]
  {
    hide Policy, PurposeTaken, AllocatedEvent;
  }

  /******* The blocks *******/

  lemma TwoWithin(w: World, c: Call, d: Call)
    ensures WithinAll(w, [c, d]) == Within(Within(w, c), d)
  {
    hide Within;
    assert [c, d][..1] == [c] && [c][..0] == [];
    assert WithinAll(w, []) == w;
    assert WithinAll(w, [c]) == Within(w, c);
  }

  lemma OneWithin(w: World, c: Call)
    ensures WithinAll(w, [c]) == Within(w, c)
  {
    hide Within;
    assert [c][..0] == [];
    assert WithinAll(w, []) == w;
  }

  lemma AllocateWithin(w: World, r: WorkspaceRequest, stamp: Stamp)
    ensures var a := Allocate(w.db, w.manager, r, false, stamp);
            Within(w, CallAllocate(r, false, stamp)) == World(a.0.db, a.1)
  {
    hide Allocate;
  }

  // The manager knows the second request, released.
  ghost predicate Left(m: Manager) {
    && S in m && m[S].request == Second() && m[S].state == RELEASED
    && forall k | k in m :: m[k].request.allocationId == k
  }

  lemma StartedAllocatable()
    ensures Allocatable(Started(), First(), false) && Draw(2).eventId !in Started().eventIds
  {
    StartedFields();
  }

  // In the working database after the first allocation.
  ghost predicate Occupied(db: Db) {
    && db.tasks == map[T := TASK] && !db.fuse.engaged && Sequence(db, T) == 2
    && db.workspaces.Keys == {W} && PurposeTaken(db.workspaces, T, PLANNING)
  }

  lemma FirstOccupies()
    ensures Occupied(Allocate(Started(), map[], First(), false, Draw(2)).0.db)
    ensures Allocate(Started(), map[], First(), false, Draw(2)).1 == map[W := NewRecord(Started(), First())]
  {
    hide Allocate, Started, AllocatedEvent;
    StartedAllocatable();
    StartedFields();
    NewAllocation(Started(), First(), Draw(2));
    var record := NewRecord(Started(), First());
    EventFields(First(), Draw(2));
    assert W in map[][W := record];
  }

  lemma SecondRefused(db: Db, m: Manager)
    requires Occupied(db) && m.Keys == {W} && m[W].request == First()
    ensures Left(Allocate(db, m, Second(), false, Draw(3)).1)
  {
    hide Allocate, PurposeTaken;
    Compensated(db, m, Second(), Draw(3));
  }

  lemma MiddleBlock() returns (m: Manager)
    ensures AfterBlock(World(Started(), map[]), SharedRun()[1]) == World(Started(), m) && Left(m)
  {
    hide Allocate, Started, Left, Occupied, Within;
    var w := World(Started(), map[]);
    var v := Within(w, CallAllocate(First(), false, Draw(2)));
    AllocateWithin(w, First(), Draw(2));
    FirstOccupies();
    TwoWithin(w, CallAllocate(First(), false, Draw(2)), CallAllocate(Second(), false, Draw(3)));
    AllocateWithin(v, Second(), Draw(3));
    SecondRefused(v.db, v.manager);
    m := Within(v, CallAllocate(Second(), false, Draw(3))).manager;
  }

  // What the other allocation finds: nothing occupied, and its sequence reached.
  lemma LastBlock(m: Manager) returns (db: Db)
    ensures AfterBlock(World(Started(), m), SharedRun()[2]) == World(db, m)
    ensures Allocatable(db, Second(), false) && db.workspaces == map[] && Draw(5).eventId !in db.eventIds
  {
    hide Started, Within;
    var w, c := World(Started(), m), CallSession(PLANNER_SESSION, Draw(4));
    OneWithin(w, c);
    SessionWithin(w, Draw(4));
    db := RequestSession(Started(), PLANNER_SESSION, Draw(4)).db;
    SessionMoves();
  }

  lemma SessionWithin(w: World, stamp: Stamp)
    ensures Within(w, CallSession(PLANNER_SESSION, stamp))
         == World(RequestSession(w.db, PLANNER_SESSION, stamp).db, w.manager)
  {
    hide RequestSession;
  }

  lemma SessionMoves()
    ensures var db := RequestSession(Started(), PLANNER_SESSION, Draw(4)).db;
            Allocatable(db, Second(), false) && db.workspaces == map[] && Draw(5).eventId !in db.eventIds
  {
    hide Started, EventAppend, RunnerSessionRequest.Canonical;
    StartedFields();
    var d := Started().RecordSession(PLANNER_SESSION).db;
    var e := SessionEvent(PLANNER_SESSION, Draw(4));
    assert e.eventId == [52] && e.sequence == 2 && e.taskId == T;
    AppendShape(d, e, 1);
  }

  /******* The whole run *******/

  lemma RunOfThree(w: World, a: Block, b: Block, c: Block)
    ensures RunBlocks(w, [a, b, c]) == AfterBlock(AfterBlock(AfterBlock(w, a), b), c)
  {
    hide AfterBlock;
    assert [a, b, c][..2] == [a, b] && [a, b][..1] == [a] && [a][..0] == [];
    assert RunBlocks(w, []) == w;
    assert RunBlocks(w, [a]) == AfterBlock(w, a);
    assert RunBlocks(w, [a, b]) == AfterBlock(AfterBlock(w, a), b);
  }

  lemma FirstBlock()
    ensures AfterBlock(NEW_WORLD, SharedRun()[0]) == World(Started(), map[])
  {
    hide Started, Within, Serve, IntakeRequest.Canonical;
    OneWithin(NEW_WORLD, CallStart(INTAKE, Draw(1)));
    StartCall();
    StartWithin();
  }

  lemma StartWithin()
    requires Serve(NEW_WORLD, CallStart(INTAKE, Draw(1))) == World(Started(), map[])
    ensures Within(NEW_WORLD, CallStart(INTAKE, Draw(1))) == World(Started(), map[])
  {
    hide Start;
    StartedFields();
  }

  // Every record accepted and every event id new: the request the ledger refused, sent
  // again as it was, is answered as created, in a workspace the manager has released.
  lemma ReleasedButCreated() returns (w: World)
    ensures First().Accepted() && Second().Accepted() && PLANNER_SESSION.Accepted()
    ensures w == RunBlocks(NEW_WORLD, SharedRun()) && Draw(5).eventId !in w.db.eventIds
    ensures S in w.manager && S !in w.db.workspaces
    ensures w.manager[S].request == Second() && w.manager[S].state == RELEASED && w.db.workspaces == map[]
    ensures Allocate(w.db, w.manager, Second(), false, Draw(5)).0.out == Ok(WorkspaceReceipt(S, RELEASED, true))
  {
    hide Allocate, RunBlocks, AfterBlock, Started, Left, Allocatable;
    RecordsAccepted();
    FirstBlock();
    var m := MiddleBlock();
    var db := LastBlock(m);
    RunOfThree(NEW_WORLD, SharedRun()[0], SharedRun()[1], SharedRun()[2]);
    w := World(db, m);
    assert SharedRun() == [SharedRun()[0], SharedRun()[1], SharedRun()[2]];
    LeftParts(m);
    FreshAllocation(db, m, Second(), false, Draw(5));
    CreatedState(db, m, Second(), false, Draw(5));
  }

  lemma LeftParts(m: Manager)
    requires Left(m)
    ensures S in m && m[S].request == Second() && m[S].state == RELEASED && ManagerCovers(map[], m)
  {
  }

  // What that allocation then files is the manager's released record. In memory it stays
  // released; the SQL row stands active, for a workspace the manager will not release again.
  lemma SqlRowStandsActive() returns (w: World)
    ensures w == RunBlocks(NEW_WORLD, SharedRun()) && S in w.manager && S !in w.db.workspaces
    ensures var sql := SqlStores.SqlWorkspace(w.db.workspaces, w.manager[S]);
            var memory := WorkspaceRecordOnce(w.db.workspaces, w.manager[S]);
            && sql.out.Ok? && memory.out == sql.out && S in sql.m && S in memory.m
            && sql.m[S].state == ACTIVE && memory.m[S].state == RELEASED
    ensures ManagerRelease(w.manager, w.manager[S]) == (w.manager, false)
  {
    hide Allocate, RunBlocks;
    w := ReleasedButCreated();
  }

  /******* A release that is dropped *******/

  function StrandingRun(): seq<Block> {
    [Block([CallStart(INTAKE, Draw(1))], true), Block([CallAllocate(First(), false, Draw(2))], true),
     Block([CallReleaseWorkspace(W, Draw(3))], false)]
  }

  lemma DroppedRelease(w: World, id: Text, stamp: Stamp)
    ensures AfterBlock(w, Block([CallReleaseWorkspace(id, stamp)], false))
         == AfterCall(w, Dropped(Releasing(id, stamp)))
  {
    hide ReleaseAllocation;
    OneWithin(w, CallReleaseWorkspace(id, stamp));
  }

  lemma AllocatedBlock() returns (w: World)
    ensures w == AfterBlock(World(Started(), map[]), Block([CallAllocate(First(), false, Draw(2))], true))
    ensures ManagerCovers(w.db.workspaces, w.manager) && W in w.db.workspaces && W in w.manager
    ensures w.db.workspaces[W].state == w.manager[W].state == ACTIVE
  {
    hide Allocate, Started, Within;
    var v := World(Started(), map[]);
    OneWithin(v, CallAllocate(First(), false, Draw(2)));
    AllocateWithin(v, First(), Draw(2));
    StartedAllocatable();
    StartedFields();
    NewAllocation(Started(), First(), Draw(2));
    w := AfterBlock(v, Block([CallAllocate(First(), false, Draw(2))], true));
  }

  // From an empty system, with every event id new.
  lemma StrandedOnce()
    ensures Stranded(RunBlocks(NEW_WORLD, StrandingRun()), W) && First().Accepted()
  {
    hide RunBlocks, AfterBlock, Started, Stranded, ManagerCovers;
    RecordsAccepted();
    FirstBlock();
    var w := AllocatedBlock();
    RunOfThree(NEW_WORLD, StrandingRun()[0], StrandingRun()[1], StrandingRun()[2]);
    assert StrandingRun() == [StrandingRun()[0], StrandingRun()[1], StrandingRun()[2]];
    DroppedRelease(w, W, Draw(3));
    ActiveIsFree(w);
    DroppedReleaseStrands(w, W, Draw(3));
  }

  lemma ActiveIsFree(w: World)
    requires W in w.db.workspaces && W in w.manager && w.manager[W].state == ACTIVE
    ensures !Stranded(w, W)
  {
  }
}

// Workspace allocations over the ledger and the manager's own records: where the two
// agree, and what is left when a call is compensated or never committed.

module WorkspaceOutcomes {
  import opened Json
  import opened Domain
  import opened Records
  import opened Ledgers
  import opened Database
  import opened LedgerInvariants
  import opened Services
  import opened Coupling
  import opened ServiceRuns
  import Queue

  // The manager's record of a ledgered workspace is in the same state; what the ledger
  // does not know the manager has released.
  ghost predicate ManagerAgrees(workspaces: Workspaces, m: Manager) {
    && (forall k | k in workspaces ::
          workspaces[k].request.allocationId == k && k in m && m[k].state == workspaces[k].state)
    && (forall k | k in m :: m[k].request.allocationId == k)
    && (forall k | k in m && k !in workspaces :: m[k].state == RELEASED)
  }

  // Between the manager's answer and the ledger's.
  ghost predicate Pending(ws: Workspaces, m: Manager, record: WorkspaceRecord) {
    var id := record.request.allocationId;
    && id in m && m[id] == record && id !in ws
    && (forall k | k in ws :: ws[k].request.allocationId == k && k in m && m[k].state == ws[k].state)
    && (forall k | k in m :: m[k].request.allocationId == k)
    && (forall k | k in m && k !in ws && k != id :: m[k].state == RELEASED)
  }

  lemma AllocatedPending(ws: Workspaces, m: Manager, r: WorkspaceRequest, name: Text, readOnly: bool)
    requires ManagerAgrees(ws, m) && r.allocationId !in ws && ManagerAllocate(m, r, name, readOnly).out.Ok?
    ensures Pending(ws, ManagerAllocate(m, r, name, readOnly).m, ManagerAllocate(m, r, name, readOnly).out.value)
  {
  }

  lemma PendingSettles(ws: Workspaces, m: Manager, record: WorkspaceRecord)
    requires Pending(ws, m, record)
    ensures ManagerAgrees(ws[record.request.allocationId := record], m)
    ensures ManagerAgrees(ws, ManagerRelease(m, record).0)
  {
  }

  lemma FileWorkspaceShape(db: Db, record: WorkspaceRecord, r: WorkspaceRequest, stamp: Stamp)
    requires record.request.allocationId !in db.workspaces && FileWorkspace(db, record, r, stamp).out.Ok?
    ensures var f := FileWorkspace(db, record, r, stamp);
            && f.db.workspaces == db.workspaces[record.request.allocationId := record]
            && f.out.value == WorkspaceReceipt(record.request.allocationId, record.state, true)
  {
    hide EventAppend;
  }

  // Whether the allocation is committed or compensated, manager and ledger agree.
  lemma AllocateAgrees(db: Db, m: Manager, r: WorkspaceRequest, granted: bool, stamp: Stamp)
    requires ManagerAgrees(db.workspaces, m)
    ensures var a := Allocate(db, m, r, granted, stamp);
            ManagerAgrees(if a.0.out.Ok? then a.0.db.workspaces else db.workspaces, a.1)
  {
    hide ManagerAgrees, Pending, FileWorkspace, Policy;
    if r.allocationId !in db.workspaces && r.taskId in db.tasks && Policy(db.tasks[r.taskId], r, granted).Ok? {
      var name, readOnly := db.tasks[r.taskId].repository.name, Policy(db.tasks[r.taskId], r, granted).value;
      var p := ManagerAllocate(m, r, name, readOnly);
      if p.out.Ok? {
        AllocatedPending(db.workspaces, m, r, name, readOnly);
        PendingSettles(db.workspaces, p.m, p.out.value);
        assert p.out.value.request.allocationId !in db.workspaces by { PendingId(db.workspaces, p.m, p.out.value); }
        if FileWorkspace(db, p.out.value, r, stamp).out.Ok? { FileWorkspaceShape(db, p.out.value, r, stamp); }
      }
    }
  }

  lemma PendingId(ws: Workspaces, m: Manager, record: WorkspaceRecord)
    requires Pending(ws, m, record)
    ensures record.request.allocationId !in ws
  {
  }

  lemma ReleasedAgrees(ws: Workspaces, m: Manager, id: Text)
    requires ManagerAgrees(ws, m) && id in ws && ws[id].state == ACTIVE
    ensures ManagerRelease(m, ws[id]).1
    ensures ManagerAgrees(WorkspaceRelease(ws, id).m, ManagerRelease(m, ws[id]).0)
    ensures WorkspaceRelease(ws, id).out == Ok(ws[id].(state := RELEASED))
  {
  }

  // A release never fails, reports truthfully whether it released anything, and leaves
  // the two in agreement.
  lemma ReleaseAgrees(db: Db, m: Manager, id: Text, stamp: Stamp)
    requires ManagerAgrees(db.workspaces, m) && stamp.eventId !in db.eventIds
    ensures var a := ReleaseAllocation(db, m, id, stamp);
            && a.0.out.Ok? && ManagerAgrees(a.0.db.workspaces, a.1)
            && (a.0.out.value <==> id in db.workspaces && db.workspaces[id].state == ACTIVE)
            && (id in db.workspaces ==> id in a.0.db.workspaces && a.0.db.workspaces[id].state == RELEASED)
  {
    hide ManagerAgrees, EventAppend;
    if id in db.workspaces && db.workspaces[id].state == ACTIVE {
      ReleasedAgrees(db.workspaces, m, id);
      var w := db.ReleaseWorkspace(id);
      var n := Sequence(w.db, w.out.value.request.taskId);
      AppendShape(w.db, ReleasedEvent(w.out.value, stamp, n), n);
    }
  }

  // What survives when calls that returned are not committed: the manager knows every
  // ledgered workspace, and has released what the ledger has released.
  ghost predicate ManagerCovers(workspaces: Workspaces, m: Manager) {
    && (forall k | k in workspaces ::
          && workspaces[k].request.allocationId == k && k in m
          && (workspaces[k].state == RELEASED ==> m[k].state == RELEASED))
    && (forall k | k in m :: m[k].request.allocationId == k)
  }

  lemma AgreesCovers(workspaces: Workspaces, m: Manager)
    requires ManagerAgrees(workspaces, m)
    ensures ManagerCovers(workspaces, m)
  {
  }

  lemma ManagerGives(m: Manager, r: WorkspaceRequest, name: Text, readOnly: bool)
    requires r.allocationId in m ==> m[r.allocationId].request.allocationId == r.allocationId
    requires ManagerAllocate(m, r, name, readOnly).out.Ok?
    ensures var record := ManagerAllocate(m, r, name, readOnly).out.value;
            && record.request.allocationId == r.allocationId
            && record.state == if r.allocationId in m then m[r.allocationId].state else ACTIVE
  {
  }

  // The state a new allocation is reported and ledgered in is whatever the manager had.
  lemma CreatedState(db: Db, m: Manager, r: WorkspaceRequest, granted: bool, stamp: Stamp)
    requires ManagerCovers(db.workspaces, m) && Allocate(db, m, r, granted, stamp).0.out.Ok?
    ensures var receipt := Allocate(db, m, r, granted, stamp).0.out.value;
            && (receipt.created <==> r.allocationId !in db.workspaces)
            && (receipt.created ==> receipt.workspaceId == r.allocationId)
            && (receipt.created ==> receipt.state == if r.allocationId in m then m[r.allocationId].state else ACTIVE)
  {
    hide FileWorkspace, Policy, ManagerAllocate;
    if r.allocationId !in db.workspaces {
      var name, readOnly := db.tasks[r.taskId].repository.name, Policy(db.tasks[r.taskId], r, granted).value;
      ManagerGives(m, r, name, readOnly);
      FileWorkspaceShape(db, ManagerAllocate(m, r, name, readOnly).out.value, r, stamp);
    }
  }

  // "Created" is not "active": a workspace reported as created is active exactly when the
  // manager had never heard of its id.
  lemma CreatedMeansActive(db: Db, m: Manager, r: WorkspaceRequest, granted: bool, stamp: Stamp)
    requires ManagerAgrees(db.workspaces, m)
    requires Allocate(db, m, r, granted, stamp).0.out.Ok? && Allocate(db, m, r, granted, stamp).0.out.value.created
    ensures Allocate(db, m, r, granted, stamp).0.out.value.state == ACTIVE <==> r.allocationId !in m
  {
    hide Allocate;
    AgreesCovers(db.workspaces, m);
    CreatedState(db, m, r, granted, stamp);
  }

  // Every check of an allocation but those of the manager and of the event store.
  ghost predicate Allocatable(db: Db, r: WorkspaceRequest, granted: bool) {
    && r.allocationId !in db.workspaces && !db.fuse.engaged && !PurposeTaken(db.workspaces, r.taskId, r.purpose)
    && Fresh(db, r.taskId, r.expectedTaskVersion, r.expectedSequence)
    && Policy(db.tasks[r.taskId], r, granted).Ok?
  }

  lemma FreshAllocation(db: Db, m: Manager, r: WorkspaceRequest, granted: bool, stamp: Stamp)
    requires Allocatable(db, r, granted) && stamp.eventId !in db.eventIds
    requires r.allocationId in m ==> m[r.allocationId].request == r
    ensures Allocate(db, m, r, granted, stamp).0.out.Ok?
  {
    hide Policy, EventAppend, PurposeTaken;
    var name, readOnly := db.tasks[r.taskId].repository.name, Policy(db.tasks[r.taskId], r, granted).value;
    var d := db.RecordWorkspace(ManagerAllocate(m, r, name, readOnly).out.value).db;
    AppendShape(d, AllocatedEvent(r, stamp), r.expectedSequence);
  }

  // Allocations and releases, each committed when it returns or, inside Dropped, not
  // committed at all, with any other activity that leaves the workspace ledger alone.
  datatype WorkspaceCall =
    | Allocating(request: WorkspaceRequest, granted: bool, stamp: Stamp)
    | Releasing(allocationId: Text, stamp: Stamp)
    | Elsewhere(db: Db)
    | Dropped(call: WorkspaceCall)

  function AfterCall(w: World, c: WorkspaceCall): World {
    match c
    case Allocating(r, granted, stamp) =>
      var a := Allocate(w.db, w.manager, r, granted, stamp);
      World(if a.0.out.Ok? then a.0.db else w.db, a.1)
    case Releasing(id, stamp) =>
      var a := ReleaseAllocation(w.db, w.manager, id, stamp);
      World(if a.0.out.Ok? then a.0.db else w.db, a.1)
    case Elsewhere(db) => World(db.(workspaces := w.db.workspaces), w.manager)
    case Dropped(call) => World(w.db, AfterCall(w, call).manager)
  }

  function AfterCalls(w: World, cs: seq<WorkspaceCall>): World
    decreases |cs|
  {
    if cs == [] then w else AfterCalls(AfterCall(w, cs[0]), cs[1..])
  }

  // Every call that returns is committed, and releases draw new event ids.
  ghost predicate FreshReleases(w: World, cs: seq<WorkspaceCall>)
    decreases |cs|
  {
    cs != [] ==>
      && !cs[0].Dropped?
      && (cs[0].Releasing? ==> cs[0].stamp.eventId !in w.db.eventIds)
      && FreshReleases(AfterCall(w, cs[0]), cs[1..])
  }

  // Over any such run, compensated failures included.
  lemma {:induction false} ManagerAlwaysAgrees(w: World, cs: seq<WorkspaceCall>)
    requires ManagerAgrees(w.db.workspaces, w.manager) && FreshReleases(w, cs)
    ensures ManagerAgrees(AfterCalls(w, cs).db.workspaces, AfterCalls(w, cs).manager)
    decreases |cs|
  {
    if cs != [] {
      hide Allocate, ReleaseAllocation, ManagerAgrees;
      match cs[0] {
        case Allocating(r, granted, stamp) => AllocateAgrees(w.db, w.manager, r, granted, stamp);
        case Releasing(id, stamp) => ReleaseAgrees(w.db, w.manager, id, stamp);
        case Elsewhere(_) =>
      }
      ManagerAlwaysAgrees(AfterCall(w, cs[0]), cs[1..]);
    }
  }

  /******* A refused allocation stays refused *******/

  // The manager kept a record the ledger refused: since then the task has gained events,
  // or another workspace still serves the same purpose.
  ghost predicate Spent(db: Db, r: WorkspaceRequest) {
    && r.expectedSequence <= Sequence(db, r.taskId)
    && (r.expectedSequence < Sequence(db, r.taskId) || PurposeTaken(db.workspaces, r.taskId, r.purpose))
  }

  ghost predicate AllSpent(w: World) {
    forall k | k in w.manager && k !in w.db.workspaces :: Spent(w.db, w.manager[k].request)
  }

  // What other activity does to the histories.
  ghost predicate HistoriesGrow(db: Db, db': Db) {
    forall id :: Sequence(db, id) <= Sequence(db', id)
  }

  ghost predicate FreshCalls(w: World, cs: seq<WorkspaceCall>)
    decreases |cs|
  {
    cs != [] ==>
      && match cs[0] {
           case Allocating(_, _, stamp) => stamp.eventId !in w.db.eventIds
           case Releasing(_, stamp) => stamp.eventId !in w.db.eventIds
           case Elsewhere(db) => HistoriesGrow(w.db, db)
           case Dropped(_) => false
         }
      && FreshCalls(AfterCall(w, cs[0]), cs[1..])
  }

  lemma SpentStays(db: Db, db': Db, r: WorkspaceRequest)
    requires Spent(db, r) && HistoriesGrow(db, db')
    requires PurposeTaken(db.workspaces, r.taskId, r.purpose) ==>
      PurposeTaken(db'.workspaces, r.taskId, r.purpose) || Sequence(db, r.taskId) < Sequence(db', r.taskId)
    ensures Spent(db', r)
  {
  }

  lemma AppendGrows(db: Db, e: Event, n: nat)
    requires IsFresh(db, e)
    ensures HistoriesGrow(db, db.AppendEvent(e, n).db)
    ensures db.AppendEvent(e, n).out.Ok? ==> Sequence(db, e.taskId) < Sequence(db.AppendEvent(e, n).db, e.taskId)
  {
  }

  lemma TakenByMore(ws: Workspaces, k: Text, record: WorkspaceRecord, taskId: Text, purpose: WorkspacePurpose)
    requires k !in ws && PurposeTaken(ws, taskId, purpose)
    ensures PurposeTaken(ws[k := record], taskId, purpose)
  {
    var j :| j in ws && ws[j].state == ACTIVE && ws[j].request.taskId == taskId && ws[j].request.purpose == purpose;
    assert ws[k := record][j] == ws[j];
  }

  // With a new event id, only an occupied purpose makes the ledger refuse.
  lemma FileDecides(db: Db, record: WorkspaceRecord, r: WorkspaceRequest, stamp: Stamp)
    requires record.request.allocationId !in db.workspaces && stamp.eventId !in db.eventIds
    requires Sequence(db, r.taskId) == r.expectedSequence
    ensures var f := FileWorkspace(db, record, r, stamp);
            && (f.out.Ok? <==> !PurposeTaken(db.workspaces, record.request.taskId, record.request.purpose))
            && (f.out.Ok? ==> HistoriesGrow(db, f.db))
  {
    hide EventAppend, PurposeTaken, HistoriesGrow;
    var d := db.(workspaces := db.workspaces[record.request.allocationId := record]);
    AppendShape(d, AllocatedEvent(r, stamp), r.expectedSequence);
    AppendGrows(d, AllocatedEvent(r, stamp), r.expectedSequence);
    GrowsAfter(db, d, FileWorkspace(db, record, r, stamp).db);
  }

  lemma GrowsAfter(a: Db, b: Db, c: Db)
    requires a.events == b.events
    ensures HistoriesGrow(b, c) ==> HistoriesGrow(a, c)
  {
  }

  // The same requests, and perhaps one more.
  ghost predicate Gained(m: Manager, m': Manager, id: Text) {
    m'.Keys == m.Keys + {id} && forall k | k in m :: m'[k].request == m[k].request
  }

  lemma FiledSpends(w: World, v: World, record: WorkspaceRecord)
    requires AllSpent(w) && record.request.allocationId !in w.db.workspaces && HistoriesGrow(w.db, v.db)
    requires Gained(w.manager, v.manager, record.request.allocationId)
    requires v.db.workspaces == w.db.workspaces[record.request.allocationId := record]
    ensures AllSpent(v)
  {
    hide Spent, HistoriesGrow;
    forall k | k in v.manager && k !in v.db.workspaces ensures Spent(v.db, v.manager[k].request) {
      LedgeredSpends(w.db, v.db, record, w.manager[k].request);
    }
  }

  lemma RefusedSpends(w: World, m: Manager, id: Text)
    requires AllSpent(w) && Gained(w.manager, m, id) && (id !in w.manager ==> Spent(w.db, m[id].request))
    ensures AllSpent(World(w.db, m))
  {
    hide Spent;
  }

  lemma AllocationSpends(w: World, r: WorkspaceRequest, granted: bool, stamp: Stamp)
    requires ManagerAgrees(w.db.workspaces, w.manager) && AllSpent(w) && stamp.eventId !in w.db.eventIds
    ensures AllSpent(AfterCall(w, Allocating(r, granted, stamp)))
  {
    hide FileWorkspace, Policy, AllSpent, Spent, Gained, ManagerAllocate, ManagerRelease, PurposeTaken, HistoriesGrow;
    if r.allocationId !in w.db.workspaces && !w.db.fuse.engaged
       && Fresh(w.db, r.taskId, r.expectedTaskVersion, r.expectedSequence)
       && Policy(w.db.tasks[r.taskId], r, granted).Ok?
    {
      var name, readOnly := w.db.tasks[r.taskId].repository.name, Policy(w.db.tasks[r.taskId], r, granted).value;
      var p := ManagerAllocate(w.manager, r, name, readOnly);
      GivenKeys(w.manager, r, name, readOnly);
      if p.out.Ok? {
        var f := FileWorkspace(w.db, p.out.value, r, stamp);
        FileDecides(w.db, p.out.value, r, stamp);
        if f.out.Ok? {
          FileWorkspaceShape(w.db, p.out.value, r, stamp);
          FiledSpends(w, World(f.db, p.m), p.out.value);
        } else {
          if r.allocationId !in w.manager { OccupiedSpends(w.db, r); }
          RefusedSpends(w, ManagerRelease(p.m, p.out.value).0, r.allocationId);
        }
      }
    }
  }

  lemma LedgeredSpends(db: Db, db': Db, record: WorkspaceRecord, r: WorkspaceRequest)
    requires Spent(db, r) && HistoriesGrow(db, db') && record.request.allocationId !in db.workspaces
    requires db'.workspaces == db.workspaces[record.request.allocationId := record]
    ensures Spent(db', r)
  {
    hide HistoriesGrow, PurposeTaken, Spent;
    if PurposeTaken(db.workspaces, r.taskId, r.purpose) {
      TakenByMore(db.workspaces, record.request.allocationId, record, r.taskId, r.purpose);
    }
    SpentStays(db, db', r);
  }

  lemma OccupiedSpends(db: Db, r: WorkspaceRequest)
    requires Sequence(db, r.taskId) == r.expectedSequence && PurposeTaken(db.workspaces, r.taskId, r.purpose)
    ensures Spent(db, r)
  {
  }

  // What the manager's answer and a compensation do to its records.
  lemma GivenKeys(m: Manager, r: WorkspaceRequest, name: Text, readOnly: bool)
    requires forall k | k in m :: m[k].request.allocationId == k
    ensures var p := ManagerAllocate(m, r, name, readOnly);
            && (p.out.Err? ==> p.m == m)
            && (p.out.Ok? ==>
                  var x := ManagerRelease(p.m, p.out.value).0;
                  && p.out.value.request.allocationId == r.allocationId
                  && (r.allocationId !in m ==> p.out.value.request == r)
                  && Gained(m, p.m, r.allocationId) && Gained(m, x, r.allocationId)
                  && r.allocationId in x && x[r.allocationId].request == p.out.value.request)
  {
  }

  lemma ReleaseSpends(w: World, id: Text, stamp: Stamp)
    requires ManagerAgrees(w.db.workspaces, w.manager) && AllSpent(w) && stamp.eventId !in w.db.eventIds
    ensures AllSpent(AfterCall(w, Releasing(id, stamp)))
  {
    if id in w.db.workspaces && w.db.workspaces[id].state == ACTIVE {
      hide ManagerAgrees, Spent, EventAppend, HistoriesGrow, ManagerRelease, WorkspaceRelease;
      ReleasedAgrees(w.db.workspaces, w.manager, id);
      ReleasedKeys(w.manager, w.db.workspaces[id]);
      var d := w.db.ReleaseWorkspace(id).db;
      var record := w.db.workspaces[id].(state := RELEASED);
      var n := Sequence(d, record.request.taskId);
      var e := ReleasedEvent(record, stamp, n);
      AppendShape(d, e, n);
      AppendGrows(d, e, n);
      var a := ReleaseAllocation(w.db, w.manager, id, stamp);
      GrowsAfter(w.db, d, a.0.db);
      FreedKeys(w.db.workspaces, id);
      forall k | k in a.1 && k !in a.0.db.workspaces ensures Spent(a.0.db, a.1[k].request) {
        FreedSpends(w.db, a.0.db, id, w.manager[k].request);
      }
    }
  }

  lemma ReleasedKeys(m: Manager, record: WorkspaceRecord)
    ensures var x := ManagerRelease(m, record).0;
            x.Keys == m.Keys && forall k | k in m :: x[k].request == m[k].request
  {
  }

  lemma FreedKeys(ws: Workspaces, id: Text)
    requires id in ws
    ensures WorkspaceRelease(ws, id).m.Keys == ws.Keys
  {
  }

  // A purpose set free comes with an event of its task.
  lemma FreedSpends(db: Db, db': Db, id: Text, r: WorkspaceRequest)
    requires Spent(db, r) && HistoriesGrow(db, db') && id in db.workspaces
    requires db'.workspaces == WorkspaceRelease(db.workspaces, id).m
    requires Sequence(db, db.workspaces[id].request.taskId) < Sequence(db', db.workspaces[id].request.taskId)
    ensures Spent(db', r)
  {
    hide HistoriesGrow, Spent;
    if PurposeTaken(db.workspaces, r.taskId, r.purpose) && db.workspaces[id].request.taskId != r.taskId {
      var k :| k in db.workspaces && db.workspaces[k].state == ACTIVE && db.workspaces[k].request.taskId == r.taskId
               && db.workspaces[k].request.purpose == r.purpose;
      assert db'.workspaces[k] == db.workspaces[k];
    }
    SpentStays(db, db', r);
  }

  lemma {:induction false} RunSpends(w: World, cs: seq<WorkspaceCall>)
    requires ManagerAgrees(w.db.workspaces, w.manager) && AllSpent(w) && FreshCalls(w, cs)
    ensures AllSpent(AfterCalls(w, cs)) && ManagerAgrees(AfterCalls(w, cs).db.workspaces, AfterCalls(w, cs).manager)
    decreases |cs|
  {
    if cs != [] {
      hide Allocate, ReleaseAllocation, ManagerAgrees, Spent;
      match cs[0] {
        case Allocating(r, granted, stamp) =>
          AllocationSpends(w, r, granted, stamp);
          AllocateAgrees(w.db, w.manager, r, granted, stamp);
        case Releasing(id, stamp) =>
          ReleaseSpends(w, id, stamp);
          ReleaseAgrees(w.db, w.manager, id, stamp);
        case Elsewhere(db) =>
          forall k | k in w.manager && k !in w.db.workspaces
            ensures Spent(AfterCall(w, cs[0]).db, w.manager[k].request)
          {
            GrowsBefore(w.db, db, AfterCall(w, cs[0]).db);
            SpentStays(w.db, AfterCall(w, cs[0]).db, w.manager[k].request);
          }
      }
      RunSpends(AfterCall(w, cs[0]), cs[1..]);
    }
  }

  lemma GrowsBefore(a: Db, b: Db, c: Db)
    requires b.events == c.events
    ensures HistoriesGrow(a, b) ==> HistoriesGrow(a, c)
  {
  }

  // From an empty start, with new event ids and every returned call committed: a request
  // the ledger refused once is never allocated by sending it again.
  lemma RefusedForGood(db: Db, cs: seq<WorkspaceCall>, r: WorkspaceRequest, granted: bool, stamp: Stamp)
    requires db.workspaces == map[] && FreshCalls(World(db, map[]), cs)
    requires var w := AfterCalls(World(db, map[]), cs);
             && stamp.eventId !in w.db.eventIds
             && r.allocationId in w.manager && r.allocationId !in w.db.workspaces
             && w.manager[r.allocationId].request == r
    ensures var w := AfterCalls(World(db, map[]), cs);
            Allocate(w.db, w.manager, r, granted, stamp).0.out.Err?
  {
    hide Policy, FileWorkspace, AfterCalls, FreshCalls, PurposeTaken;
    var w := AfterCalls(World(db, map[]), cs);
    RunSpends(World(db, map[]), cs);
    if Fresh(w.db, r.taskId, r.expectedTaskVersion, r.expectedSequence) {
      FileDecides(w.db, w.manager[r.allocationId], r, stamp);
    }
  }

  /******* Blocks that are never committed *******/

  // The manager only gains records and only releases them.
  ghost predicate ManagerMoves(m: Manager, m': Manager) {
    forall k | k in m :: k in m' && m'[k].request == m[k].request && (m[k].state == RELEASED ==>
      m'[k].state == RELEASED)
  }

  lemma GivenCovers(ws: Workspaces, m: Manager, r: WorkspaceRequest, name: Text, readOnly: bool)
    requires ManagerCovers(ws, m) && r.allocationId !in ws && ManagerAllocate(m, r, name, readOnly).out.Ok?
    ensures var p := ManagerAllocate(m, r, name, readOnly);
            && p.out.value.request.allocationId == r.allocationId
            && ManagerCovers(ws, p.m) && ManagerCovers(ws[r.allocationId := p.out.value], p.m) && ManagerMoves(m, p.m)
            && ManagerCovers(ws, ManagerRelease(p.m, p.out.value).0)
            && ManagerMoves(m, ManagerRelease(p.m, p.out.value).0)
  {
  }

  lemma TakenCovers(ws: Workspaces, m: Manager, id: Text)
    requires ManagerCovers(ws, m) && id in ws
    ensures var p := ManagerRelease(m, ws[id]);
            && ManagerCovers(ws, p.0) && ManagerMoves(m, p.0)
            && (p.1 ==> m[id].state == ACTIVE && ManagerCovers(WorkspaceRelease(ws, id).m, p.0))
            && (p.1 <==> m[id].state == ACTIVE)
            && forall k | k in ws && k != id ::
                 k in WorkspaceRelease(ws, id).m && WorkspaceRelease(ws, id).m[k] == ws[k]
  {
  }

  lemma MovesSelf(m: Manager)
    ensures ManagerMoves(m, m)
  {
  }

  lemma AllocateCovers(db: Db, m: Manager, r: WorkspaceRequest, granted: bool, stamp: Stamp)
    requires ManagerCovers(db.workspaces, m)
    ensures var a := Allocate(db, m, r, granted, stamp);
            && ManagerCovers(if a.0.out.Ok? then a.0.db.workspaces else db.workspaces, a.1)
            && ManagerCovers(db.workspaces, a.1) && ManagerMoves(m, a.1)
            && (a.0.out.Ok? ==> forall k | k in db.workspaces ::
                  k in a.0.db.workspaces && a.0.db.workspaces[k] == db.workspaces[k])
  {
    hide FileWorkspace, Policy, ManagerCovers, ManagerMoves, ManagerAllocate, ManagerRelease;
    MovesSelf(m);
    if r.allocationId !in db.workspaces && r.taskId in db.tasks && Policy(db.tasks[r.taskId], r, granted).Ok? {
      var name, readOnly := db.tasks[r.taskId].repository.name, Policy(db.tasks[r.taskId], r, granted).value;
      var p := ManagerAllocate(m, r, name, readOnly);
      if p.out.Ok? {
        GivenCovers(db.workspaces, m, r, name, readOnly);
        if FileWorkspace(db, p.out.value, r, stamp).out.Ok? { FileWorkspaceShape(db, p.out.value, r, stamp); }
      } else {
        ConflictKeeps(m, r, name, readOnly);
      }
    }
  }

  lemma ConflictKeeps(m: Manager, r: WorkspaceRequest, name: Text, readOnly: bool)
    ensures var p := ManagerAllocate(m, r, name, readOnly); p.out.Err? ==> p.m == m
  {
  }

  lemma ReleaseShape(db: Db, m: Manager, id: Text, stamp: Stamp)
    requires id in db.workspaces
    ensures var a := ReleaseAllocation(db, m, id, stamp);
            var p := ManagerRelease(m, db.workspaces[id]);
            && a.1 == (if db.workspaces[id].state == RELEASED then m else p.0)
            && a.0.db.workspaces
               == if db.workspaces[id].state == RELEASED || !p.1 then db.workspaces
               else WorkspaceRelease(db.workspaces, id).m
  {
    hide EventAppend, ManagerRelease, ReleasedEvent;
  }

  lemma ReleaseCovers(db: Db, m: Manager, id: Text, stamp: Stamp)
    requires ManagerCovers(db.workspaces, m)
    ensures var a := ReleaseAllocation(db, m, id, stamp);
            && ManagerCovers(a.0.db.workspaces, a.1) && ManagerCovers(db.workspaces, a.1) && ManagerMoves(m, a.1)
            && (forall k | k in db.workspaces && (k != id || (k in m && m[k].state == RELEASED)) ::
                  k in a.0.db.workspaces && a.0.db.workspaces[k] == db.workspaces[k])
  {
    MovesSelf(m);
    if id in db.workspaces {
      hide ReleaseAllocation, ManagerCovers, ManagerMoves, ManagerRelease, WorkspaceRelease;
      ReleaseShape(db, m, id, stamp);
      TakenCovers(db.workspaces, m, id);
    }
  }

  // Ledgered as active, and already released by the manager.
  ghost predicate Stranded(w: World, id: Text) {
    && id in w.db.workspaces && w.db.workspaces[id].state == ACTIVE
    && id in w.manager && w.manager[id].state == RELEASED
  }

  lemma {:induction false} CallCovers(w: World, c: WorkspaceCall, id: Text)
    requires ManagerCovers(w.db.workspaces, w.manager)
    ensures ManagerCovers(AfterCall(w, c).db.workspaces, AfterCall(w, c).manager)
    ensures ManagerCovers(w.db.workspaces, AfterCall(w, c).manager) && ManagerMoves(w.manager, AfterCall(w, c).manager)
    ensures Stranded(w, id) ==> Stranded(AfterCall(w, c), id)
    decreases c
  {
    hide Allocate, ReleaseAllocation, ManagerCovers;
    match c
    case Allocating(r, granted, stamp) => AllocateCovers(w.db, w.manager, r, granted, stamp);
    case Releasing(key, stamp) => ReleaseCovers(w.db, w.manager, key, stamp);
    case Elsewhere(_) =>
    case Dropped(call) => CallCovers(w, call, id);
  }

  // Over any run, with any calls dropped before their commit and any event ids: the
  // manager covers the ledger, and an allocation once stranded is stranded for good.
  lemma {:induction false} StrandedForGood(w: World, cs: seq<WorkspaceCall>, id: Text)
    requires ManagerCovers(w.db.workspaces, w.manager)
    ensures ManagerCovers(AfterCalls(w, cs).db.workspaces, AfterCalls(w, cs).manager)
    ensures Stranded(w, id) ==> Stranded(AfterCalls(w, cs), id)
    decreases |cs|
  {
    hide AfterCall, ManagerCovers, Stranded;
    if cs != [] {
      CallCovers(w, cs[0], id);
      StrandedForGood(AfterCall(w, cs[0]), cs[1..], id);
    }
  }

  // One dropped release strands an allocation exactly when it was active on both sides.
  lemma DroppedReleaseStrands(w: World, id: Text, stamp: Stamp)
    requires ManagerCovers(w.db.workspaces, w.manager) && !Stranded(w, id)
    ensures Stranded(AfterCall(w, Dropped(Releasing(id, stamp))), id)
       <==> id in w.db.workspaces && w.db.workspaces[id].state == ACTIVE
  {
    hide EventAppend;
  }
}

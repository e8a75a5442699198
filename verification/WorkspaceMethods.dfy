// The workspace service as it runs, with the manager that keeps its own records.

module WorkspaceMethods {
  import opened Json
  import opened Domain
  import opened Records
  import opened Ledgers
  import opened Database
  import opened Heap
  import opened Memory
  import opened UnitOfWork
  import opened Services
  import opened ServiceMethods

  class FakeWorkspaceManager {
    var records: Manager

    constructor ()
      ensures records == map[]
    {
      records := map[];
    }

    method Allocate(r: WorkspaceRequest, repositoryName: Text, readOnly: bool) returns (out: Outcome<WorkspaceRecord>)
      modifies this
      ensures Put(records, out) == ManagerAllocate(old(records), r, repositoryName, readOnly)
    {
      if r.allocationId in records {
        if records[r.allocationId].request.Canonical() != r.Canonical() { return Err(IdempotencyConflict); }
        return Ok(records[r.allocationId]);
      }
      var record := WorkspaceRecord(r, readOnly, repositoryName, ACTIVE);
      records := records[r.allocationId := record];
      out := Ok(record);
    }

    method Release(record: WorkspaceRecord) returns (released: bool)
      modifies this
      ensures (records, released) == ManagerRelease(old(records), record)
    {
      var id := record.request.allocationId;
      if id !in records || records[id].state == RELEASED { return false; }
      records := records[id := records[id].(state := RELEASED)];
      released := true;
    }
  }

  lemma LinkedWorkspaces(uow: Stores, maps: Maps)
    requires uow.BoundTo(maps)
    ensures uow.workspaces.all == maps && uow.workspaces.Linked()
  {
  }

  // The guarded block: if either write raises, the caller releases what the manager gave.
  method FileAllocation(uow: Stores, ghost maps: Maps, record: WorkspaceRecord, r: WorkspaceRequest, stamp: Stamp)
      returns (out: Outcome<WorkspaceReceipt>)
    requires uow.BoundTo(maps) && maps.Valid()
    modifies maps.All()
    ensures maps.Valid() && forall o | o in maps.All() :: o in old(maps.All()) || fresh(o)
    ensures Step(maps.View(), out) == FileWorkspace(old(maps.View()), record, r, stamp)
  {
    hide Maps.View, Maps.All, Maps.Valid, Stores.BoundTo, WorkspaceRecordOnce, EventAppend, AllocatedEvent;
    LinkedWork(uow, maps);
    LinkedWorkspaces(uow, maps);
    DictsInAll(maps);
    var stored := uow.workspaces.RecordOnce(record);
    if stored.Err? { return Err(stored.error); }
    var receipt := WorkspaceReceipt(stored.value.0.request.allocationId, stored.value.0.state, stored.value.1);
    if stored.value.1 {
      DictsInAll(maps);
      var appended := uow.events.Append(AllocatedEvent(r, stamp), r.expectedSequence);
      if appended.Err? { return Err(appended.error); }
    }
    out := Ok(receipt);
  }

  method AllocateWorkspace(uow: Stores, ghost maps: Maps, manager: FakeWorkspaceManager, r: WorkspaceRequest,
                           granted: bool, stamp: Stamp)
      returns (out: Outcome<WorkspaceReceipt>)
    requires uow.BoundTo(maps) && maps.Valid() && manager !in maps.All()
    modifies maps.All(), manager
    ensures maps.Valid() && forall o | o in maps.All() :: o in old(maps.All()) || fresh(o)
    ensures (Step(maps.View(), out), manager.records)
         == Allocate(old(maps.View()), old(manager.records), r, granted, stamp)
  {
    hide Maps.View, Maps.All, Maps.Valid, Stores.BoundTo, FileWorkspace, Policy, ManagerAllocate, ManagerRelease;
    hide WorkspaceRequest.Canonical;
    LinkedWork(uow, maps);
    LinkedWorkspaces(uow, maps);
    WorkParts(maps);
    var existing := uow.workspaces.Get(r.allocationId);
    if existing.Some? {
      if existing.value.request.Canonical() != r.Canonical() { return Err(IdempotencyConflict); }
      return Ok(WorkspaceReceipt(existing.value.request.allocationId, existing.value.state, false));
    }
    if uow.fuse.Get().engaged { return Err(Validation); }
    var task := uow.tasks.Get(r.taskId);
    if task.None? { return Err(TaskNotFound); }
    if task.value.version != r.expectedTaskVersion || |uow.events.Read(r.taskId)| != r.expectedSequence {
      return Err(OptimisticConflict);
    }
    var readOnly := Policy(task.value, r, granted);
    if readOnly.Err? { return Err(readOnly.error); }
    OldOnes(maps);
    var record := manager.Allocate(r, task.value.repository.name, readOnly.value);
    assert forall o: object | o in old(maps.All()) :: o != manager;
    NoneWritten(maps);
    if record.Err? { return Err(record.error); }
    out := FileAllocation(uow, maps, record.value, r, stamp);
    if out.Err? {
      label Failed:
      OldOnes@Failed(maps);
      assert manager !in maps.All();
      var _ := manager.Release(record.value);
      NoneWritten@Failed(maps);
    }
  }

  method FreeWorkspace(uow: Stores, ghost maps: Maps, manager: FakeWorkspaceManager, allocationId: Text, stamp: Stamp)
      returns (out: Outcome<bool>)
    requires uow.BoundTo(maps) && maps.Valid() && manager !in maps.All()
    modifies maps.All(), manager
    ensures maps.Valid() && forall o | o in maps.All() :: o in old(maps.All()) || fresh(o)
    ensures (Step(maps.View(), out), manager.records)
         == ReleaseAllocation(old(maps.View()), old(manager.records), allocationId, stamp)
  {
    hide Maps.View, Maps.All, Maps.Valid, Stores.BoundTo, WorkspaceRelease, EventAppend, ReleasedEvent, ManagerRelease;
    LinkedWork(uow, maps);
    LinkedWorkspaces(uow, maps);
    WorkParts(maps);
    var record := uow.workspaces.Get(allocationId);
    if record.None? || record.value.state == RELEASED { return Ok(false); }
    OldOnes(maps);
    var freed := manager.Release(record.value);
    assert forall o: object | o in old(maps.All()) :: o != manager;
    NoneWritten(maps);
    if !freed { return Ok(false); }
    DictsInAll(maps);
    var released := uow.workspaces.Release(allocationId);
    if released.Err? { return Err(released.error); }
    WorkParts(maps);
    DictsInAll(maps);
    var sequence := |uow.events.Read(released.value.request.taskId)|;
    var appended := uow.events.Append(ReleasedEvent(released.value, stamp, sequence), sequence);
    out := if appended.Err? then Err(appended.error) else Ok(true);
  }
}

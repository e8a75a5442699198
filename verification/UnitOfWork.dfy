// The unit of work: it copies the committed collections when a block is entered, binds
// the stores to the copies, installs the copies by reference on commit, and binds the
// stores back when the block is left.

module UnitOfWork {
  import opened Json
  import opened Domain
  import opened Records
  import opened Ledgers
  import opened Database
  import opened Heap
  import opened Memory
  import LedgerInvariants
  import Queue

  ghost predicate Apart(lists: EventLists) {
    forall j, k | j in lists && k in lists && lists[j] == lists[k] :: j == k
  }

  lemma ApartStill(lists: EventLists, k: Text, list: EventList)
    requires Apart(lists) && forall j | j in lists :: lists[j] != list
    ensures Apart(lists[k := list])
  {
  }

  // A new list for each key, with the same items.
  method CopyLists(lists: EventLists) returns (copies: EventLists)
    ensures copies.Keys == lists.Keys && Apart(copies)
    ensures forall k | k in copies :: fresh(copies[k]) && copies[k].it == lists[k].it
  {
    hide Apart;
    copies := map[];
    assert Apart(copies) by { NoneApart(); }
    var keys := lists.Keys;
    while keys != {}
      invariant keys <= lists.Keys && copies.Keys == lists.Keys - keys && Apart(copies)
      invariant forall k | k in copies :: fresh(copies[k])
      invariant forall k | k in copies :: copies[k].it == lists[k].it
      decreases |keys|
    {
      var k :| k in keys;
      var list := new Ref(lists[k].it);
      ApartStill(copies, k, list);
      copies := copies[k := list];
      keys := keys - {k};
    }
  }

  lemma NoneApart()
    ensures Apart(map[])
  {
  }

  method NewWork(tasks: Tasks, eventIds: EventIds, queue: Queue.Rows, fuse: FuseState)
        returns (tasksRef: Ref<Tasks>, eventIdsRef: Ref<EventIds>, queueRef: Ref<Queue.Rows>, fuseRef: Ref<FuseState>)
    ensures fresh(tasksRef) && fresh(eventIdsRef) && fresh(queueRef) && fresh(fuseRef)
    ensures tasksRef.it == tasks && eventIdsRef.it == eventIds && queueRef.it == queue && fuseRef.it == fuse
  {
    tasksRef := new Ref(tasks);
    eventIdsRef := new Ref(eventIds);
    queueRef := new Ref(queue);
    fuseRef := new Ref(fuse);
  }

  method NewIntake(intakes: Intakes, sources: Sources, control: seq<ControlEvent>, artifacts: Artifacts)
        returns (intakesRef: Ref<Intakes>, sourcesRef: Ref<Sources>, controlRef: Ref<seq<ControlEvent>>,
                 artifactsRef: Ref<Artifacts>)
    ensures fresh(intakesRef) && fresh(sourcesRef) && fresh(controlRef) && fresh(artifactsRef)
    ensures intakesRef.it == intakes && sourcesRef.it == sources && controlRef.it == control
    ensures artifactsRef.it == artifacts
  {
    intakesRef := new Ref(intakes);
    sourcesRef := new Ref(sources);
    controlRef := new Ref(control);
    artifactsRef := new Ref(artifacts);
  }

  method NewSource(sessions: Sessions, results: Results, workspaces: Workspaces)
        returns (sessionsRef: Ref<Sessions>, resultsRef: Ref<Results>, workspacesRef: Ref<Workspaces>)
    ensures fresh(sessionsRef) && fresh(resultsRef) && fresh(workspacesRef)
    ensures sessionsRef.it == sessions && resultsRef.it == results && workspacesRef.it == workspaces
  {
    sessionsRef := new Ref(sessions);
    resultsRef := new Ref(results);
    workspacesRef := new Ref(workspaces);
  }

  method NewHead(publications: Publications, approvals: Approvals, effects: Effects, observations: Observations)
        returns (publicationsRef: Ref<Publications>, approvalsRef: Ref<Approvals>, effectsRef: Ref<Effects>,
                 observationsRef: Ref<Observations>)
    ensures fresh(publicationsRef) && fresh(approvalsRef) && fresh(effectsRef) && fresh(observationsRef)
    ensures publicationsRef.it == publications && approvalsRef.it == approvals && effectsRef.it == effects
    ensures observationsRef.it == observations
  {
    publicationsRef := new Ref(publications);
    approvalsRef := new Ref(approvals);
    effectsRef := new Ref(effects);
    observationsRef := new Ref(observations);
  }

  // The event lists copied one by one, in a dictionary of their own.
  method CopyEvents(maps: Maps) returns (events: Ref<EventLists>)
    ensures fresh(events) && events.it.Keys == maps.events.it.Keys
    ensures forall k | k in events.it :: fresh(events.it[k]) && events.it[k].it == maps.events.it[k].it
    ensures forall j, k | j in events.it && k in events.it && events.it[j] == events.it[k] :: j == k
  {
    var lists := CopyLists(maps.events.it);
    events := new Ref(lists);
  }

  // The collections made from given contents stand for the database of those contents.
  lemma MadeView(n: Maps, v: Db)
    requires n.events.it.Keys == v.events.Keys && forall k | k in v.events :: n.events.it[k].it == v.events[k]
    requires n.tasks.it == v.tasks && n.eventIds.it == v.eventIds && n.queue.it == v.queue && n.fuse.it == v.fuse
    requires n.intakes.it == v.intakes && n.sources.it == v.sources && n.control.it == v.control
    requires n.artifacts.it == v.artifacts
    requires n.sessions.it == v.sessions && n.results.it == v.results && n.workspaces.it == v.workspaces
    requires n.publications.it == v.publications && n.approvals.it == v.approvals && n.effects.it == v.effects
    requires n.observations.it == v.observations
    ensures n.View() == v
  {
    assert n.Histories() == v.events;
  }

  // Sixteen new dictionaries and lists with the contents of a database.
  method Make(ghost v: Db, events: Ref<EventLists>, tasks0: Tasks, eventIds0: EventIds, queue0: Queue.Rows,
              fuse0: FuseState,
              intakes0: Intakes, sources0: Sources, control0: seq<ControlEvent>, artifacts0: Artifacts,
              sessions0: Sessions, results0: Results, workspaces0: Workspaces,
              publications0: Publications, approvals0: Approvals, effects0: Effects, observations0: Observations)
      returns (n: Maps)
    requires events.it.Keys == v.events.Keys && forall k | k in v.events :: events.it[k].it == v.events[k]
    requires forall j, k | j in events.it && k in events.it && events.it[j] == events.it[k] :: j == k
    requires tasks0 == v.tasks && eventIds0 == v.eventIds && queue0 == v.queue && fuse0 == v.fuse
    requires intakes0 == v.intakes && sources0 == v.sources && control0 == v.control && artifacts0 == v.artifacts
    requires sessions0 == v.sessions && results0 == v.results && workspaces0 == v.workspaces
    requires publications0 == v.publications && approvals0 == v.approvals && effects0 == v.effects
    requires observations0 == v.observations
    requires Queue.Unique(v.queue)
    ensures n.View() == v && n.Valid() && n.events == events && fresh(n.Dicts() - {events})
    ensures n.Lists() == set k | k in events.it :: events.it[k]
  {
    hide Maps.View, Queue.Unique;
    var tasks, eventIds, queue, fuse := NewWork(tasks0, eventIds0, queue0, fuse0);
    var intakes, sources, control, artifacts := NewIntake(intakes0, sources0, control0, artifacts0);
    var sessions, results, workspaces := NewSource(sessions0, results0, workspaces0);
    var publications, approvals, effects, observations := NewHead(publications0, approvals0, effects0, observations0);
    n := Maps(tasks, events, eventIds, queue, fuse, intakes, sources, control, artifacts, sessions, results, workspaces,
              publications, approvals, effects, observations);
    MadeView(n, v);
  }

  // The other fifteen collections, next to the event lists copied already.
  method CopyBeside(maps: Maps, events: Ref<EventLists>) returns (n: Maps)
    requires maps.Valid() && events.it.Keys == maps.events.it.Keys
    requires forall k | k in events.it :: events.it[k].it == maps.events.it[k].it
    requires forall j, k | j in events.it && k in events.it && events.it[j] == events.it[k] :: j == k
    ensures n.View() == old(maps.View()) && n.Valid() && n.events == events && fresh(n.Dicts() - {events})
    ensures n.Lists() == set k | k in events.it :: events.it[k]
  {
    hide Maps.View, Maps.Valid, Maps.Lists, Maps.Histories, Queue.Unique;
    Parts(maps);
    n := Make(maps.View(), events, maps.tasks.it, maps.eventIds.it, maps.queue.it, maps.fuse.it,
              maps.intakes.it, maps.sources.it, maps.control.it, maps.artifacts.it,
              maps.sessions.it, maps.results.it, maps.workspaces.it,
              maps.publications.it, maps.approvals.it, maps.effects.it, maps.observations.it);
  }

  // A shallow copy of every collection.
  method Copy(maps: Maps) returns (n: Maps)
    requires maps.Valid()
    ensures n.Valid() && fresh(n.All()) && n.View() == old(maps.View())
  {
    hide Maps.View, Maps.Valid, Maps.Lists, Maps.Histories, Maps.All;
    OldOnes(maps);
    var events := CopyEvents(maps);
    NoneWritten(maps);
    n := CopyBeside(maps, events);
    FreshCopies(n);
  }

  twostate lemma FreshCopies(new n: Maps)
    requires fresh(n.Dicts()) && forall k | k in n.events.it :: fresh(n.events.it[k])
    ensures fresh(n.All())
  {
  }

  lemma Parts(maps: Maps)
    requires maps.Valid()
    ensures maps.events.it.Keys == maps.View().events.Keys
    ensures forall k | k in maps.events.it :: maps.events.it[k].it == maps.View().events[k]
    ensures maps.tasks.it == maps.View().tasks && maps.eventIds.it == maps.View().eventIds
    ensures maps.queue.it == maps.View().queue && maps.fuse.it == maps.View().fuse
    ensures maps.intakes.it == maps.View().intakes && maps.sources.it == maps.View().sources
    ensures maps.control.it == maps.View().control && maps.artifacts.it == maps.View().artifacts
    ensures maps.sessions.it == maps.View().sessions && maps.results.it == maps.View().results
    ensures maps.workspaces.it == maps.View().workspaces
    ensures maps.publications.it == maps.View().publications && maps.approvals.it == maps.View().approvals
    ensures maps.effects.it == maps.View().effects && maps.observations.it == maps.View().observations
    ensures Queue.Unique(maps.View().queue)
  {
  }

  method NewMaps() returns (n: Maps)
    ensures n.Valid() && fresh(n.All()) && n.View() == EMPTY
  {
    var tasks, eventIds, queue, fuse := NewWork(map[], map[], [], FuseState(false, 0, None));
    var intakes, sources, control, artifacts := NewIntake(map[], map[], [], map[]);
    var sessions, results, workspaces := NewSource(map[], map[], map[]);
    var publications, approvals, effects, observations := NewHead(map[], map[], map[], map[]);
    var events := new Ref<EventLists>(map[]);
    n := Maps(tasks, events, eventIds, queue, fuse, intakes, sources, control, artifacts, sessions, results, workspaces,
              publications, approvals, effects, observations);
  }

  // The stores of one binding, all over the same collections.
  datatype Stores = Stores(
    tasks: InMemoryTaskRepository,
    events: InMemoryEventStore,
    queue: InMemoryTaskQueue,
    fuse: InMemoryFuseStore,
    intakeLedger: InMemoryIntakeLedger,
    sourceIngestions: InMemorySourceIngestionLedger,
    controlEvents: InMemoryControlEventStore,
    artifacts: InMemoryArtifactCatalog,
    runnerSessions: InMemoryRunnerSessionStore,
    workerResults: InMemoryWorkerResultLedger,
    workspaces: InMemoryWorkspaceLedger,
    publications: InMemoryPublicationLedger,
    publicationApprovals: InMemoryPublicationApprovalStore,
    publicationEffects: InMemoryPublicationEffectStore,
    checkObservations: InMemoryCheckRunObservationStore)
  {
    ghost predicate BoundTo(maps: Maps) {
      && tasks.all == maps && tasks.Linked()
      && events.all == maps && events.Linked()
      && queue.all == maps && queue.Linked()
      && fuse.all == maps && fuse.Linked()
      && intakeLedger.all == maps && intakeLedger.Linked()
      && sourceIngestions.all == maps && sourceIngestions.Linked()
      && controlEvents.all == maps && controlEvents.Linked()
      && artifacts.all == maps && artifacts.Linked()
      && runnerSessions.all == maps && runnerSessions.Linked()
      && workerResults.all == maps && workerResults.Linked()
      && workspaces.all == maps && workspaces.Linked()
      && publications.all == maps && publications.Linked()
      && publicationApprovals.all == maps && publicationApprovals.Linked()
      && publicationEffects.all == maps && publicationEffects.Linked()
      && checkObservations.all == maps && checkObservations.Linked()
    }
  }

  method MakeWork(maps: Maps)
        returns (tasks: InMemoryTaskRepository, events: InMemoryEventStore, queue: InMemoryTaskQueue,
                 fuse: InMemoryFuseStore)
    ensures tasks.all == maps && tasks.Linked()
    ensures events.all == maps && events.Linked()
    ensures queue.all == maps && queue.Linked()
    ensures fuse.all == maps && fuse.Linked()
  {
    tasks := new InMemoryTaskRepository(maps);
    events := new InMemoryEventStore(maps);
    queue := new InMemoryTaskQueue(maps);
    fuse := new InMemoryFuseStore(maps);
  }

  method MakeIntake(maps: Maps)
        returns (intakeLedger: InMemoryIntakeLedger, sourceIngestions: InMemorySourceIngestionLedger,
                 controlEvents: InMemoryControlEventStore, artifacts: InMemoryArtifactCatalog)
    ensures intakeLedger.all == maps && intakeLedger.Linked()
    ensures sourceIngestions.all == maps && sourceIngestions.Linked()
    ensures controlEvents.all == maps && controlEvents.Linked()
    ensures artifacts.all == maps && artifacts.Linked()
  {
    intakeLedger := new InMemoryIntakeLedger(maps);
    sourceIngestions := new InMemorySourceIngestionLedger(maps);
    controlEvents := new InMemoryControlEventStore(maps);
    artifacts := new InMemoryArtifactCatalog(maps);
  }

  method MakeSource(maps: Maps)
        returns (runnerSessions: InMemoryRunnerSessionStore, workerResults: InMemoryWorkerResultLedger,
                 workspaces: InMemoryWorkspaceLedger)
    ensures runnerSessions.all == maps && runnerSessions.Linked()
    ensures workerResults.all == maps && workerResults.Linked()
    ensures workspaces.all == maps && workspaces.Linked()
  {
    runnerSessions := new InMemoryRunnerSessionStore(maps);
    workerResults := new InMemoryWorkerResultLedger(maps);
    workspaces := new InMemoryWorkspaceLedger(maps);
  }

  method MakeHead(maps: Maps)
      returns (publications: InMemoryPublicationLedger, publicationApprovals: InMemoryPublicationApprovalStore,
               publicationEffects: InMemoryPublicationEffectStore, checkObservations: InMemoryCheckRunObservationStore)
    ensures publications.all == maps && publications.Linked()
    ensures publicationApprovals.all == maps && publicationApprovals.Linked()
    ensures publicationEffects.all == maps && publicationEffects.Linked()
    ensures checkObservations.all == maps && checkObservations.Linked()
  {
    publications := new InMemoryPublicationLedger(maps);
    publicationApprovals := new InMemoryPublicationApprovalStore(maps);
    publicationEffects := new InMemoryPublicationEffectStore(maps);
    checkObservations := new InMemoryCheckRunObservationStore(maps);
  }

  method MakeStores(maps: Maps) returns (s: Stores)
    ensures s.BoundTo(maps)
  {
    var tasks, events, queue, fuse := MakeWork(maps);
    var intakeLedger, sourceIngestions, controlEvents, artifacts := MakeIntake(maps);
    var runnerSessions, workerResults, workspaces := MakeSource(maps);
    var publications, publicationApprovals, publicationEffects, checkObservations := MakeHead(maps);
    s := Stores(tasks, events, queue, fuse, intakeLedger, sourceIngestions,
                controlEvents, artifacts, runnerSessions, workerResults, workspaces,
                publications, publicationApprovals, publicationEffects, checkObservations);
  }

  /******* Store calls in a block *******/

  method Command(stores: Stores, ghost maps: Maps, c: Queue.Command)
    requires stores.BoundTo(maps) && maps.Valid()
    modifies maps.All()
    ensures maps.Valid() && (forall o | o in maps.All() :: o in old(maps.All()) || fresh(o))
    ensures maps.View() == old(maps.View()).(queue := Queue.Execute(old(maps.View()).queue, c).0)
  {
    hide Maps.View, Maps.All, Maps.Valid, Queue.Enqueue, Queue.Claim, Queue.Heartbeat, Queue.Complete, Queue.Fail,
         Queue.RecoverRows;
    QueueParts(maps);
    DictsInAll(maps);
    match c
    case EnqueueRow(t, p, at, key) => var _ := stores.queue.Enqueue(t, p, at, key);
    case ClaimRow(w, now, d) => var _ := stores.queue.Claim(w, now, d);
    case RecoverExpired(now) => var _ := stores.queue.RecoverExpired(now);
    case HeartbeatRow(t, w, now, d) => var _ := stores.queue.Heartbeat(t, w, now, d);
    case CompleteRow(t, w, now) => var _ := stores.queue.Complete(t, w, now);
    case FailRow(t, w, now, _) => var _ := stores.queue.Fail(t, w, now);
  }

  method PerformTask(stores: Stores, ghost maps: Maps, op: StoreOp)
    requires stores.BoundTo(maps) && maps.Valid() && LedgerInvariants.FamilyOf(op) == LedgerInvariants.TaskFamily
    modifies maps.All()
    ensures maps.Valid() && (forall o | o in maps.All() :: o in old(maps.All()) || fresh(o))
    ensures maps.View() == Apply(old(maps.View()), op)
  {
    hide Maps.View, Maps.All, Maps.Valid, TaskCreate, TaskUpdate, EventAppend;
    DictsInAll(maps);
    match op
    case CreateTask(t) => var _ := stores.tasks.Create(t);
    case UpdateTask(t, v) => var _ := stores.tasks.Update(t, v);
    case AppendEvent(e, n) => var _ := stores.events.Append(e, n);
  }

  method PerformWorkspace(stores: Stores, ghost maps: Maps, op: StoreOp)
    requires stores.BoundTo(maps) && maps.Valid() && LedgerInvariants.FamilyOf(op) == LedgerInvariants.WorkspaceFamily
    modifies maps.All()
    ensures maps.Valid() && (forall o | o in maps.All() :: o in old(maps.All()) || fresh(o))
    ensures maps.View() == Apply(old(maps.View()), op)
  {
    hide Maps.View, Maps.All, Maps.Valid, WorkspaceRecordOnce, WorkspaceRelease;
    DictsInAll(maps);
    match op
    case RecordWorkspace(w) => var _ := stores.workspaces.RecordOnce(w);
    case ReleaseWorkspace(id) => var _ := stores.workspaces.Release(id);
  }

  method PerformSource(stores: Stores, ghost maps: Maps, op: StoreOp)
    requires stores.BoundTo(maps) && maps.Valid() && LedgerInvariants.FamilyOf(op) == LedgerInvariants.SourceFamily
    modifies maps.All()
    ensures maps.Valid() && (forall o | o in maps.All() :: o in old(maps.All()) || fresh(o))
    ensures maps.View() == Apply(old(maps.View()), op)
  {
    hide Maps.View, Maps.All, Maps.Valid, ArtifactRegister, SessionRecordOnce, SessionSetOutcome, ResultRecordOnce;
    DictsInAll(maps);
    match op
    case RegisterArtifact(a) => var _ := stores.artifacts.Register(a);
    case RecordSession(r) => var _ := stores.runnerSessions.RecordOnce(r);
    case SetOutcome(o) => var _ := stores.runnerSessions.SetOutcome(o);
    case RecordResult(r) => var _ := stores.workerResults.RecordOnce(r);
  }

  method PerformHead(stores: Stores, ghost maps: Maps, op: StoreOp)
    requires stores.BoundTo(maps) && maps.Valid() && LedgerInvariants.FamilyOf(op) == LedgerInvariants.HeadFamily
    modifies maps.All()
    ensures maps.Valid() && (forall o | o in maps.All() :: o in old(maps.All()) || fresh(o))
    ensures maps.View() == Apply(old(maps.View()), op)
  {
    hide Maps.View, Maps.All, Maps.Valid, PublicationReserve, RecordPrepared, RecordVerification;
    DictsInAll(maps);
    match op
    case Reserve(i) => var _ := stores.publications.Reserve(i);
    case Prepare(p, v) => var _ := stores.publications.Prepare(p, v);
    case Verify(r, v) => var _ := stores.publications.Verify(r, v);
  }

  method PerformEffect(stores: Stores, ghost maps: Maps, op: StoreOp)
    requires stores.BoundTo(maps) && maps.Valid() && LedgerInvariants.FamilyOf(op) == LedgerInvariants.EffectFamily
    modifies maps.All()
    ensures maps.Valid() && (forall o | o in maps.All() :: o in old(maps.All()) || fresh(o))
    ensures maps.View() == Apply(old(maps.View()), op)
  {
    hide Maps.View, Maps.All, Maps.Valid, ApprovalAppend, EffectRequest, EffectReconcile, ObservationAppend;
    DictsInAll(maps);
    match op
    case AppendApproval(d) => var _ := stores.publicationApprovals.Append(d);
    case RequestEffect(e) => var _ := stores.publicationEffects.Request(e);
    case ReconcileEffect(r) => var _ := stores.publicationEffects.Reconcile(r);
    case AppendObservation(o) => var _ := stores.checkObservations.Append(o);
  }

  method PerformControl(stores: Stores, ghost maps: Maps, op: StoreOp)
    requires stores.BoundTo(maps) && maps.Valid() && LedgerInvariants.FamilyOf(op) == LedgerInvariants.ControlFamily
    modifies maps.All()
    ensures maps.Valid() && (forall o | o in maps.All() :: o in old(maps.All()) || fresh(o))
    ensures maps.View() == Apply(old(maps.View()), op)
  {
    hide Maps.View, Maps.All, Maps.Valid, IntakeCreate, SourceRecordOnce, Queue.Execute;
    DictsInAll(maps);
    match op
    case SetFuse(f) => var _ := stores.fuse.Set(f);
    case AppendControl(e) => var _ := stores.controlEvents.Append(e);
    case CreateIntake(r) => var _ := stores.intakeLedger.Create(r);
    case RecordSource(r) => var _ := stores.sourceIngestions.RecordOnce(r);
    case UseQueue(c) => Command(stores, maps, c);
  }

  // Any store call, whether it returns or raises.
  method Perform(stores: Stores, ghost maps: Maps, op: StoreOp)
    requires stores.BoundTo(maps) && maps.Valid()
    modifies maps.All()
    ensures maps.Valid() && (forall o | o in maps.All() :: o in old(maps.All()) || fresh(o))
    ensures maps.View() == Apply(old(maps.View()), op)
  {
    hide Maps.View, Maps.All, Maps.Valid, Apply;
    match LedgerInvariants.FamilyOf(op)
    case TaskFamily => PerformTask(stores, maps, op);
    case WorkspaceFamily => PerformWorkspace(stores, maps, op);
    case ControlFamily => PerformControl(stores, maps, op);
    case SourceFamily => PerformSource(stores, maps, op);
    case HeadFamily => PerformHead(stores, maps, op);
    case EffectFamily => PerformEffect(stores, maps, op);
  }

  method PerformAll(stores: Stores, ghost maps: Maps, ops: seq<StoreOp>)
    requires stores.BoundTo(maps) && maps.Valid()
    modifies maps.All()
    ensures maps.Valid() && (forall o | o in maps.All() :: o in old(maps.All()) || fresh(o))
    ensures maps.View() == Run(old(maps.View()), ops)
  {
    hide Maps.View, Maps.All, Maps.Valid, Apply, Stores.BoundTo;
    var i := 0;
    while i < |ops|
      invariant 0 <= i <= |ops|
      invariant maps.Valid() && (forall o | o in maps.All() :: o in old(maps.All()) || fresh(o))
      invariant maps.View() == Run(old(maps.View()), ops[..i])
    {
      assert ops[..i + 1][..i] == ops[..i];
      Perform(stores, maps, ops[i]);
      i := i + 1;
    }
    assert ops[..|ops|] == ops;
  }

  class InMemoryUnitOfWork {
    var committed: Maps
    var working: Maps
    var isCommitted: bool
    var stores: Stores

    // The collections the stores are bound to.
    ghost var bound: Maps

    constructor ()
      ensures Settled() && fresh(committed.All()) && committed.View() == EMPTY
    {
      hide Stores.BoundTo, Maps.View, Maps.All, Maps.Valid;
      var maps := NewMaps();
      label Made:
      OldOnes@Made(maps);
      var made := MakeStores(maps);
      stores := made;
      committed, working, isCommitted := maps, maps, false;
      bound := maps;
      new;
      NoneWritten@Made(maps);
    }

    ghost predicate Bound()
      reads this
    {
      stores.BoundTo(bound)
    }

    // Outside a block, and after commit, the stores are bound to the committed collections.
    ghost predicate Settled()
      reads this, committed.events, committed.queue
    {
      Bound() && bound == committed && committed.Valid() && this !in committed.All()
    }

    // In a block, before commit, they are bound to copies apart from them.
    ghost predicate Open()
      reads this, committed.events, committed.queue, working.events, working.queue
    {
      && Bound() && bound == working && working.Valid() && committed.Valid()
      && working.All() !! committed.All() && this !in working.All() && this !in committed.All()
    }

    method Bind(maps: Maps)
      modifies this
      ensures Bound() && bound == maps
      ensures committed == old(committed) && working == old(working) && isCommitted == old(isCommitted)
    {
      hide Stores.BoundTo;
      stores := MakeStores(maps);
      bound := maps;
    }

    method Enter()
      requires Settled()
      modifies this
      ensures Open() && fresh(working.All()) && !isCommitted
      ensures committed == old(committed) && working.View() == committed.View() == old(committed.View())
    {
      hide Stores.BoundTo, Maps.View, Maps.All, Maps.Valid;
      OldOnes(committed);
      var copies := Copy(committed);
      assert this !in copies.All();
      label Copied:
      working := copies;
      isCommitted := false;
      Bind(copies);
      NoneWritten(committed);
      OldOnes@Copied(copies);
      NoneWritten@Copied(copies);
    }

    // Installs the working collections themselves, not copies of them.
    method Commit()
      requires Bound() && bound == working && working.Valid() && this !in working.All()
      modifies this`committed, this`isCommitted
      ensures Settled() && committed == working && isCommitted
      ensures working.View() == old(working.View())
    {
      hide Stores.BoundTo, Maps.View, Maps.All, Maps.Valid;
      committed := working;
      isCommitted := true;
      NoneWritten(working);
    }

    // Clears a flag and nothing else.
    method Rollback()
      modifies this`isCommitted
      ensures !isCommitted
    {
      isCommitted := false;
    }

    method Exit()
      requires committed.Valid() && this !in committed.All()
      modifies this
      ensures Settled() && committed == old(committed) && committed.View() == old(committed.View())
    {
      hide Stores.BoundTo, Maps.View, Maps.All, Maps.Valid;
      Bind(committed);
      OldOnes(committed);
      NoneWritten(committed);
    }

    // The end of a block whose last store action was commit, or that never committed.
    method Finish(commit: bool)
      requires Open()
      modifies this
      ensures Settled() && committed == (if commit then old(working) else old(committed))
      ensures committed.View() == if commit then old(working.View()) else old(committed.View())
    {
      hide Stores.BoundTo, Maps.View, Maps.All, Maps.Valid;
      if commit { Commit(); }
      Exit();
    }

    /******* Atomicity *******/

    // A block that ends without commit, after any store calls, by an exception or not:
    // it writes no committed dictionary and no committed event list.
    method AbandonedBlock(ops: seq<StoreOp>)
      requires Settled()
      modifies this
      ensures Settled() && committed == old(committed) && committed.View() == old(committed.View())
    {
      hide Maps.View, Maps.Valid, Maps.All, Stores.BoundTo, Run;
      OldOnes(committed);
      Enter();
      assert bound.All() !! old(committed.All());
      PerformAll(stores, bound, ops);
      Rollback();
      NoneWritten(committed);
      Exit();
    }

    // A block whose last store action is commit installs exactly its working state.
    method CommittedBlock(ops: seq<StoreOp>)
      requires Settled()
      modifies this
      ensures Settled() && fresh(committed.All()) && committed.View() == Run(old(committed.View()), ops)
    {
      hide Maps.View, Maps.Valid, Maps.All, Stores.BoundTo, Run;
      Enter();
      PerformAll(stores, bound, ops);
      Commit();
      Exit();
    }

    // Store calls after commit write the committed collections, block or no block.
    method WritesAfterCommit(before: seq<StoreOp>, after: seq<StoreOp>)
      requires Settled()
      modifies this
      ensures Settled() && committed.View() == Run(Run(old(committed.View()), before), after)
    {
      hide Maps.View, Maps.Valid, Maps.All, Stores.BoundTo, Run;
      Enter();
      PerformAll(stores, bound, before);
      Commit();
      PerformAll(stores, bound, after);
      label Performed:
      Rollback();
      OldOnes@Performed(committed);
      NoneWritten@Performed(committed);
      Exit();
    }
  }
}

// The in-memory stores: each holds references to the dictionaries it was bound to and
// updates them in place. What they all together mean to the database is their contract.

module Memory {
  import opened Json
  import opened Domain
  import opened Records
  import opened Ledgers
  import opened Database
  import opened Heap
  import Queue

  class InMemoryTaskRepository {
    const tasks: Ref<Tasks>
    ghost const all: Maps

    constructor (maps: Maps)
      ensures all == maps && Linked()
    {
      tasks := maps.tasks;
      all := maps;
    }

    ghost predicate Linked() { tasks == all.tasks }

    function Get(taskId: Text): (task: Option<Task>)
      reads tasks
    {
      if taskId in tasks.it then Some(tasks.it[taskId]) else None
    }

    method Create(task: Task) returns (out: Outcome<Task>)
      requires Linked() && all.Valid()
      modifies tasks
      ensures all.Valid() && all.All() == old(all.All())
      ensures Step(all.View(), out) == old(all.View()).CreateTask(task)
    {
      hide Maps.View, Maps.All, Maps.Valid;
      OnlyTasks(all);
      if task.version != 0 { return Err(OptimisticConflict); }
      if task.taskId in tasks.it { return Err(CreateConflict); }
      tasks.it := tasks.it[task.taskId := task];
      OnlyTasks(all);
      out := Ok(task);
    }

    method Update(task: Task, expectedVersion: nat) returns (out: Outcome<Task>)
      requires Linked() && all.Valid()
      modifies tasks
      ensures all.Valid() && all.All() == old(all.All())
      ensures Step(all.View(), out) == old(all.View()).UpdateTask(task, expectedVersion)
    {
      hide Maps.View, Maps.All, Maps.Valid;
      OnlyTasks(all);
      var current := Get(task.taskId);
      if current.None? || current.value.version != expectedVersion || task.version != expectedVersion + 1 {
        return Err(OptimisticConflict);
      }
      tasks.it := tasks.it[task.taskId := task];
      OnlyTasks(all);
      out := Ok(task);
    }
  }

  lemma Overwrite<K, V>(m: map<K, V>, k: K, v: V, w: V)
    ensures m[k := v][k := w] == m[k := w]
  {
  }

  class InMemoryEventStore {
    const events: Ref<EventLists>
    const eventIds: Ref<EventIds>
    ghost const all: Maps

    constructor (maps: Maps)
      ensures all == maps && Linked()
    {
      events, eventIds := maps.events, maps.eventIds;
      all := maps;
    }

    ghost predicate Linked() { events == all.events && eventIds == all.eventIds }

    function Read(taskId: Text): seq<Event>
      reads events, set k | k in events.it :: events.it[k]
    {
      if taskId in events.it then events.it[taskId].it else []
    }

    // setdefault: the task's list, made on first use.
    method ListOf(taskId: Text) returns (history: EventList)
      requires Linked() && all.Valid()
      modifies events
      ensures all.Valid() && taskId in events.it && events.it[taskId] == history
      ensures (forall o | o in all.All() :: o in old(all.All()) || fresh(o))
      ensures (history in old(all.Lists()) || fresh(history))
      ensures history.it == History(old(all.View()).events, taskId)
      ensures all.View()
           == old(all.View()).(events := old(all.View()).events[taskId := History(old(all.View()).events, taskId)])
    {
      hide Maps.View, Maps.Histories, Maps.Lists, Maps.Valid;
      history := new Ref([]);
      if taskId in events.it { history := events.it[taskId]; }
      events.it := events.it[taskId := history];
      ListMade(Place(all, taskId));
    }

    method Extend(history: EventList, event: Event)
      requires Linked() && all.Valid() && event.taskId in events.it && events.it[event.taskId] == history
      modifies history, eventIds
      ensures all.Valid() && all.All() == old(all.All())
      ensures all.View()
           == old(all.View()).(events := old(all.View()).events[event.taskId := old(history.it) + [event]],
                                             eventIds := old(all.View()).eventIds[event.eventId := event])
    {
      hide Maps.View, Maps.Histories, Maps.Lists, Maps.Valid;
      EventParts(all);
      OtherLists(all, event.taskId);
      history.it := history.it + [event];
      eventIds.it := eventIds.it[event.eventId := event];
      HistoryWritten(Place(all, event.taskId));
      OnlyEvents(all);
    }

    // The list is made before the sequence is checked.
    method Append(event: Event, expectedSequence: nat) returns (out: Outcome<Event>)
      requires Linked() && all.Valid()
      modifies events, eventIds, all.Lists()
      ensures all.Valid() && (forall o | o in all.All() :: o in old(all.All()) || fresh(o))
      ensures Step(all.View(), out) == old(all.View()).AppendEvent(event, expectedSequence)
    {
      hide Maps.View, Maps.Histories, Maps.Lists, Maps.Valid;
      EventParts(all);
      if event.eventId in eventIds.it {
        if eventIds.it[event.eventId] == event { return Ok(event); }
        return Err(IdempotencyConflict);
      }
      var history := ListOf(event.taskId);
      if |history.it| != expectedSequence || event.sequence != expectedSequence + 1 { return Err(SequenceConflict); }
      label Listed:
      Extend(history, event);
      Overwrite(old(all.View()).events, event.taskId, History(old(all.View()).events, event.taskId),
                old@Listed(history.it) + [event]);
      out := Ok(event);
    }
  }

  /******* The queue *******/

  lemma {:induction false} FindPrefix(q: Queue.Rows, n: nat)
    requires Queue.Unique(q) && n < |q|
    ensures Queue.Find(q[..n], q[n].taskId).None?
  {
    if n > 0 {
      assert q[1..][n - 1] == q[n] && q[..n][1..] == q[1..][..n - 1];
      FindPrefix(q[1..], n - 1);
      Queue.FindId(q[1..], q[0].taskId);
      FindAt(q[1..], n - 1);
    }
  }

  lemma {:induction false} FindAt(q: Queue.Rows, n: nat)
    requires n < |q|
    ensures Queue.Find(q, q[n].taskId).Some?
  {
    if n > 0 {
      assert q[1..][n - 1] == q[n];
      FindAt(q[1..], n - 1);
    }
  }

  lemma {:induction false} RecoverSplit(q: Queue.Rows, row: Queue.Row, now: Time)
    ensures Queue.RecoverRows(q + [row], now) == Queue.RecoverRows(q, now) + Queue.RecoverRows([row], now)
    ensures Queue.RecoverResults(q + [row], now) == Queue.RecoverResults(q, now) + Queue.RecoverResults([row], now)
  {
    if q == [] {
      assert q + [row] == [row];
    } else {
      assert (q + [row])[1..] == q[1..] + [row];
      RecoverSplit(q[1..], row, now);
    }
  }

  lemma {:induction false} RecoverFinds(q: Queue.Rows, now: Time, id: Text)
    requires Queue.Find(q, id).None?
    ensures Queue.Find(Queue.RecoverRows(q, now), id).None?
  {
    if q != [] { RecoverFinds(q[1..], now, id); }
  }

  lemma {:induction false} RemoveMiddle(a: Queue.Rows, row: Queue.Row, b: Queue.Rows)
    requires Queue.Find(a, row.taskId).None?
    ensures Queue.Remove(a + ([row] + b), row.taskId) == a + b
  {
    var all := a + ([row] + b);
    if a == [] {
      assert all == [row] + b && a + b == b;
    } else {
      assert all[1..] == a[1..] + ([row] + b) && all[0] == a[0];
      RemoveMiddle(a[1..], row, b);
      assert [a[0]] + (a[1..] + b) == a + b;
    }
  }

  lemma {:induction false} ReplaceMiddle(a: Queue.Rows, row: Queue.Row, b: Queue.Rows, n: Queue.Row)
    requires Queue.Find(a, row.taskId).None? && n.taskId == row.taskId
    ensures Queue.Replace(a + ([row] + b), n) == a + ([n] + b)
  {
    var all := a + ([row] + b);
    if a == [] {
      assert all == [row] + b && a + ([n] + b) == [n] + b;
    } else {
      assert all[1..] == a[1..] + ([row] + b) && all[0] == a[0];
      ReplaceMiddle(a[1..], row, b, n);
      assert [a[0]] + (a[1..] + ([n] + b)) == a + ([n] + b);
    }
  }

  // One turn of the recovery loop, at the n-th row of the snapshot.
  lemma RecoverTurn(q: Queue.Rows, n: nat, now: Time)
    requires Queue.Unique(q) && n < |q|
    ensures var current := Queue.RecoverRows(q[..n], now) + q[n..];
            && Queue.RecoverRows(q[..n + 1], now) + q[n + 1..]
               == (if !Queue.Expired(q[n], now) then current
                   else if q[n].attempt >= Queue.MAX_ATTEMPTS then Queue.Remove(current, q[n].taskId)
                   else Queue.Replace(current, Queue.Released(q[n], now)))
            && Queue.RecoverResults(q[..n + 1], now)
               == Queue.RecoverResults(q[..n], now)
                  + (if Queue.Expired(q[n], now) then [Queue.RecoverResult(q[n], now)] else [])
  {
    hide Queue.Unique, Queue.Remove, Queue.Replace, Queue.Find;
    var a, row, b := Queue.RecoverRows(q[..n], now), q[n], q[n + 1..];
    assert q[..n] + [row] == q[..n + 1] && q[n..] == [row] + b;
    RecoverSplit(q[..n], row, now);
    FindPrefix(q, n);
    RecoverFinds(q[..n], now, row.taskId);
    RemoveMiddle(a, row, b);
    ReplaceMiddle(a, row, b, Queue.Released(row, now));
    RecoverOne(row, now);
    assert a + ([row] + b) == a + [row] + b;
    assert a + ([Queue.Released(row, now)] + b) == a + [Queue.Released(row, now)] + b;
    assert a + [] + b == a + b;
  }

  lemma RecoverOne(row: Queue.Row, now: Time)
    ensures Queue.RecoverRows([row], now)
         == if !Queue.Expired(row, now) then [row]
            else if row.attempt >= Queue.MAX_ATTEMPTS then [] else [Queue.Released(row, now)]
    ensures Queue.RecoverResults([row], now)
         == if Queue.Expired(row, now) then [Queue.RecoverResult(row, now)] else []
  {
    assert [row][1..] == [];
  }

  class InMemoryTaskQueue {
    const records: Ref<Queue.Rows>
    ghost const all: Maps

    constructor (maps: Maps)
      ensures all == maps && Linked()
    {
      records := maps.queue;
      all := maps;
    }

    ghost predicate Linked() { records == all.queue }

    method Enqueue(taskId: Text, priority: int, availableAt: Time, key: Text) returns (out: Outcome<bool>)
      requires Linked() && all.Valid()
      modifies records
      ensures all.Valid() && all.All() == old(all.All())
      ensures Step(all.View(), out)
           == old(all.View()).UseQueue(Queue.Enqueue(old(records.it), taskId, priority, availableAt, key))
    {
      hide Maps.View, Maps.All;
      QueueParts(all);
      var current := Queue.Find(records.it, taskId);
      if current.Some? {
        var r := current.value;
        if r.idempotencyKey == key && r.priority == priority && r.availableAt == availableAt { return Ok(false); }
        return Err(IdempotencyConflict);
      }
      var row := Queue.Row(taskId, priority, availableAt, key, None, None, 0);
      Queue.FindAppend(records.it, row, taskId);
      records.it := records.it + [row];
      OnlyQueue(all);
      out := Ok(true);
    }

    method Claim(workerId: Text, now: Time, duration: int) returns (out: Outcome<Option<Queue.Lease>>)
      requires Linked() && all.Valid()
      modifies records
      ensures all.Valid() && all.All() == old(all.All())
      ensures Step(all.View(), out) == old(all.View()).UseQueue(Queue.Claim(old(records.it), workerId, now, duration))
    {
      hide Maps.View, Maps.All;
      QueueParts(all);
      var best := Queue.First(records.it, now);
      if best.None? { return Ok(None); }
      var row := Queue.Claimed(best.value, workerId, now + duration);
      Queue.FindReplace(records.it, row, row.taskId);
      records.it := Queue.Replace(records.it, row);
      OnlyQueue(all);
      out := Ok(Some(Queue.Lease(row.taskId, workerId, now + duration, row.attempt)));
    }

    // Deletes and replaces rows while walking a snapshot of the dictionary.
    method Sweep(now: Time) returns (results: seq<Queue.FailureResult>)
      requires Queue.Unique(records.it)
      modifies records
      ensures records.it == Queue.RecoverRows(old(records.it), now)
      ensures results == Queue.RecoverResults(old(records.it), now)
    {
      hide Queue.Unique, Queue.Remove, Queue.Replace;
      var snapshot := records.it;
      results := [];
      var i := 0;
      while i < |snapshot|
        invariant 0 <= i <= |snapshot|
        invariant records.it == Queue.RecoverRows(snapshot[..i], now) + snapshot[i..]
        invariant results == Queue.RecoverResults(snapshot[..i], now)
      {
        var row := snapshot[i];
        RecoverTurn(snapshot, i, now);
        if row.leaseExpiresAt.Some? && row.leaseExpiresAt.value <= now {
          if row.attempt >= Queue.MAX_ATTEMPTS {
            records.it := Queue.Remove(records.it, row.taskId);
            results := results + [Queue.FailureResult(row.taskId, None, true)];
          } else {
            records.it := Queue.Replace(records.it,
                                        row.(claimedBy := None, leaseExpiresAt := None, availableAt := now));
            results := results + [Queue.FailureResult(row.taskId, Some(now), false)];
          }
        }
        i := i + 1;
      }
      assert snapshot[..|snapshot|] == snapshot;
      assert Queue.RecoverRows(snapshot, now) + snapshot[|snapshot|..] == Queue.RecoverRows(snapshot, now);
    }

    method RecoverExpired(now: Time) returns (results: seq<Queue.FailureResult>)
      requires Linked() && all.Valid()
      modifies records
      ensures all.Valid() && all.All() == old(all.All())
      ensures all.View() == old(all.View()).(queue := Queue.RecoverRows(old(records.it), now))
      ensures results == Queue.RecoverResults(old(records.it), now)
    {
      hide Maps.View, Maps.All, Queue.RecoverRows, Queue.RecoverResults;
      Queue.FindRecover(records.it, now, []);
      results := Sweep(now);
      OnlyQueue(all);
    }

    method Heartbeat(taskId: Text, workerId: Text, now: Time, duration: int) returns (out: Outcome<Queue.Lease>)
      requires Linked() && all.Valid()
      modifies records
      ensures all.Valid() && all.All() == old(all.All())
      ensures Step(all.View(), out)
           == old(all.View()).UseQueue(Queue.Heartbeat(old(records.it), taskId, workerId, now, duration))
    {
      hide Maps.View, Maps.All;
      QueueParts(all);
      if !Queue.Holds(records.it, taskId, workerId, now) { return Err(LeaseLost); }
      var row := Queue.Find(records.it, taskId).value;
      Queue.FindReplace(records.it, row.(leaseExpiresAt := Some(now + duration)), taskId);
      records.it := Queue.Replace(records.it, row.(leaseExpiresAt := Some(now + duration)));
      OnlyQueue(all);
      out := Ok(Queue.Lease(taskId, workerId, now + duration, row.attempt));
    }

    method Complete(taskId: Text, workerId: Text, now: Time) returns (out: Outcome<()>)
      requires Linked() && all.Valid()
      modifies records
      ensures all.Valid() && all.All() == old(all.All())
      ensures Step(all.View(), out) == old(all.View()).UseQueue(Queue.Complete(old(records.it), taskId, workerId, now))
    {
      hide Maps.View, Maps.All;
      QueueParts(all);
      if !Queue.Holds(records.it, taskId, workerId, now) { return Err(LeaseLost); }
      Queue.FindRemove(records.it, taskId, taskId);
      records.it := Queue.Remove(records.it, taskId);
      OnlyQueue(all);
      out := Ok(());
    }

    method Fail(taskId: Text, workerId: Text, now: Time) returns (out: Outcome<Queue.FailureResult>)
      requires Linked() && all.Valid()
      modifies records
      ensures all.Valid() && all.All() == old(all.All())
      ensures Step(all.View(), out) == old(all.View()).UseQueue(Queue.Fail(old(records.it), taskId, workerId, now))
    {
      hide Maps.View, Maps.All, Queue.Backoff;
      QueueParts(all);
      if !Queue.Holds(records.it, taskId, workerId, now) { return Err(LeaseLost); }
      var row := Queue.Find(records.it, taskId).value;
      if row.attempt >= Queue.MAX_ATTEMPTS {
        Queue.FindRemove(records.it, taskId, taskId);
        records.it := Queue.Remove(records.it, taskId);
        OnlyQueue(all);
        return Ok(Queue.FailureResult(taskId, None, true));
      }
      var retryAt := now + Queue.Backoff(row.attempt);
      Queue.FindReplace(records.it, Queue.Released(row, retryAt), taskId);
      records.it := Queue.Replace(records.it, Queue.Released(row, retryAt));
      OnlyQueue(all);
      out := Ok(Queue.FailureResult(taskId, Some(retryAt), false));
    }
  }

  class InMemoryFuseStore {
    const state: Ref<FuseState>
    ghost const all: Maps

    constructor (maps: Maps)
      ensures all == maps && Linked()
    {
      state := maps.fuse;
      all := maps;
    }

    ghost predicate Linked() { state == all.fuse }

    function Get(): FuseState
      reads state
    {
      state.it
    }

    method Set(value: FuseState) returns (stored: FuseState)
      requires Linked() && all.Valid()
      modifies state
      ensures all.Valid() && all.All() == old(all.All())
      ensures Step(all.View(), Ok(stored)) == old(all.View()).SetFuse(value)
    {
      hide Maps.View, Maps.All, Maps.Valid;
      state.it := value;
      OnlyFuse(all);
      stored := value;
    }
  }

  class InMemoryIntakeLedger {
    const records: Ref<Intakes>
    ghost const all: Maps

    constructor (maps: Maps)
      ensures all == maps && Linked()
    {
      records := maps.intakes;
      all := maps;
    }

    ghost predicate Linked() { records == all.intakes }

    function Get(key: Text): Option<IntakeRecord>
      reads records
    {
      if key in records.it then Some(records.it[key]) else None
    }

    method Create(record: IntakeRecord) returns (out: Outcome<IntakeRecord>)
      requires Linked() && all.Valid()
      modifies records
      ensures all.Valid() && all.All() == old(all.All())
      ensures Step(all.View(), out) == old(all.View()).CreateIntake(record)
    {
      hide Maps.View, Maps.All, Maps.Valid;
      OnlyIntakes(all);
      var current := Get(record.requestId);
      if current.Some? {
        if current.value == record { return Ok(current.value); }
        return Err(IdempotencyConflict);
      }
      records.it := records.it[record.requestId := record];
      OnlyIntakes(all);
      out := Ok(record);
    }
  }

  class InMemorySourceIngestionLedger {
    const records: Ref<Sources>
    ghost const all: Maps

    constructor (maps: Maps)
      ensures all == maps && Linked()
    {
      records := maps.sources;
      all := maps;
    }

    ghost predicate Linked() { records == all.sources }

    function Get(key: Text): Option<IssueIngestionRecord>
      reads records
    {
      if key in records.it then Some(records.it[key]) else None
    }

    // Whether some source has the trigger.
    predicate HasTrigger(trigger: Text)
      reads records
    {
      TriggerUsed(records.it, trigger)
    }

    method RecordOnce(record: IssueIngestionRecord) returns (out: Outcome<(IssueIngestionRecord, bool)>)
      requires Linked() && all.Valid()
      modifies records
      ensures all.Valid() && all.All() == old(all.All())
      ensures Step(all.View(), out) == old(all.View()).RecordSource(record)
    {
      hide Maps.View, Maps.All, Maps.Valid;
      OnlySources(all);
      var current := Get(record.sourceKey);
      if current.Some? {
        if current.value != record { return Err(IdempotencyConflict); }
        return Ok((current.value, false));
      }
      if HasTrigger(record.triggerEventId) { return Err(IdempotencyConflict); }
      records.it := records.it[record.sourceKey := record];
      OnlySources(all);
      out := Ok((record, true));
    }
  }

  class InMemoryControlEventStore {
    const events: Ref<seq<ControlEvent>>
    ghost const all: Maps

    constructor (maps: Maps)
      ensures all == maps && Linked()
    {
      events := maps.control;
      all := maps;
    }

    ghost predicate Linked() { events == all.control }

    method Append(event: ControlEvent) returns (stored: ControlEvent)
      requires Linked() && all.Valid()
      modifies events
      ensures all.Valid() && all.All() == old(all.All())
      ensures Step(all.View(), Ok(stored)) == old(all.View()).AppendControl(event)
    {
      hide Maps.View, Maps.All, Maps.Valid;
      OnlyControl(all);
      events.it := events.it + [event];
      OnlyControl(all);
      stored := event;
    }
  }

  class InMemoryArtifactCatalog {
    const artifacts: Ref<Artifacts>
    ghost const all: Maps

    constructor (maps: Maps)
      ensures all == maps && Linked()
    {
      artifacts := maps.artifacts;
      all := maps;
    }

    ghost predicate Linked() { artifacts == all.artifacts }

    function Get(key: Text): Option<CatalogedArtifact>
      reads artifacts
    {
      if key in artifacts.it then Some(artifacts.it[key]) else None
    }

    method Register(artifact: CatalogedArtifact) returns (out: Outcome<CatalogedArtifact>)
      requires Linked() && all.Valid()
      modifies artifacts
      ensures all.Valid() && all.All() == old(all.All())
      ensures Step(all.View(), out) == old(all.View()).RegisterArtifact(artifact)
    {
      hide Maps.View, Maps.All, Maps.Valid;
      OnlyArtifacts(all);
      var current := Get(artifact.reference.digest);
      if current.Some? && current.value != artifact { return Err(IdempotencyConflict); }
      artifacts.it := artifacts.it[artifact.reference.digest := artifact];
      OnlyArtifacts(all);
      out := Ok(artifact);
    }
  }

  class InMemoryRunnerSessionStore {
    const records: Ref<Sessions>
    ghost const all: Maps

    constructor (maps: Maps)
      ensures all == maps && Linked()
    {
      records := maps.sessions;
      all := maps;
    }

    ghost predicate Linked() { records == all.sessions }

    function Get(key: Text): Option<RunnerSessionRecord>
      reads records
    {
      if key in records.it then Some(records.it[key]) else None
    }

    method RecordOnce(request: RunnerSessionRequest) returns (out: Outcome<RunnerSessionReceipt>)
      requires Linked() && all.Valid()
      modifies records
      ensures all.Valid() && all.All() == old(all.All())
      ensures Step(all.View(), out) == old(all.View()).RecordSession(request)
    {
      hide Maps.View, Maps.All, Maps.Valid;
      OnlySessions(all);
      var current := Get(request.sessionId);
      if current.Some? {
        if current.value.request.Canonical() != request.Canonical() { return Err(IdempotencyConflict); }
        return Ok(RunnerSessionReceipt(request.sessionId, current.value.state, false));
      }
      records.it := records.it[request.sessionId := RunnerSessionRecord(request, REQUESTED, None)];
      OnlySessions(all);
      out := Ok(RunnerSessionReceipt(request.sessionId, REQUESTED, true));
    }

    method SetOutcome(outcome: RunnerSessionOutcome) returns (out: Outcome<RunnerSessionRecord>)
      requires Linked() && all.Valid()
      modifies records
      ensures all.Valid() && all.All() == old(all.All())
      ensures Step(all.View(), out) == old(all.View()).SetOutcome(outcome)
    {
      hide Maps.View, Maps.All, Maps.Valid;
      OnlySessions(all);
      var current := Get(outcome.sessionId);
      if current.None? { return Err(Validation); }
      if current.value.outcome.Some? {
        if current.value.outcome.value == outcome { return Ok(current.value); }
        return Err(IdempotencyConflict);
      }
      var updated := current.value.(state := outcome.state, outcome := Some(outcome));
      records.it := records.it[outcome.sessionId := updated];
      OnlySessions(all);
      out := Ok(updated);
    }
  }

  class InMemoryWorkerResultLedger {
    const results: Ref<Results>
    ghost const all: Maps

    constructor (maps: Maps)
      ensures all == maps && Linked()
    {
      results := maps.results;
      all := maps;
    }

    ghost predicate Linked() { results == all.results }

    function Get(key: Text): Option<WorkerResult>
      reads results
    {
      if key in results.it then Some(results.it[key]) else None
    }

    // Returns whether this call created the result.
    method RecordOnce(result: WorkerResult) returns (out: Outcome<bool>)
      requires Linked() && all.Valid()
      modifies results
      ensures all.Valid() && all.All() == old(all.All())
      ensures Step(all.View(), out) == old(all.View()).RecordResult(result)
    {
      hide Maps.View, Maps.All, Maps.Valid;
      OnlyResults(all);
      var current := Get(result.resultId);
      if current.Some? {
        if current.value.Canonical() != result.Canonical() { return Err(IdempotencyConflict); }
        return Ok(false);
      }
      results.it := results.it[result.resultId := result];
      OnlyResults(all);
      out := Ok(true);
    }
  }

  class InMemoryWorkspaceLedger {
    const records: Ref<Workspaces>
    ghost const all: Maps

    constructor (maps: Maps)
      ensures all == maps && Linked()
    {
      records := maps.workspaces;
      all := maps;
    }

    ghost predicate Linked() { records == all.workspaces }

    function Get(key: Text): Option<WorkspaceRecord>
      reads records
    {
      if key in records.it then Some(records.it[key]) else None
    }

    method RecordOnce(record: WorkspaceRecord) returns (out: Outcome<(WorkspaceRecord, bool)>)
      requires Linked() && all.Valid()
      modifies records
      ensures all.Valid() && all.All() == old(all.All())
      ensures Step(all.View(), out) == old(all.View()).RecordWorkspace(record)
    {
      hide Maps.View, Maps.All, Maps.Valid;
      OnlyWorkspaces(all);
      var id := record.request.allocationId;
      var current := Get(id);
      if current.Some? {
        if current.value.request.Canonical() != record.request.Canonical() { return Err(IdempotencyConflict); }
        return Ok((current.value, false));
      }
      if PurposeTaken(records.it, record.request.taskId, record.request.purpose) { return Err(IdempotencyConflict); }
      records.it := records.it[id := record];
      OnlyWorkspaces(all);
      out := Ok((record, true));
    }

    method Release(allocationId: Text) returns (out: Outcome<WorkspaceRecord>)
      requires Linked() && all.Valid()
      modifies records
      ensures all.Valid() && all.All() == old(all.All())
      ensures Step(all.View(), out) == old(all.View()).ReleaseWorkspace(allocationId)
    {
      hide Maps.View, Maps.All, Maps.Valid;
      OnlyWorkspaces(all);
      var current := Get(allocationId);
      if current.None? { return Err(Validation); }
      if current.value.state == RELEASED { return Ok(current.value); }
      var released := current.value.(state := RELEASED);
      records.it := records.it[allocationId := released];
      OnlyWorkspaces(all);
      out := Ok(released);
    }
  }

  // Reads the very dictionaries the task, event, artifact, result and session stores write.
  class InMemoryPublicationLedger {
    const records: Ref<Publications>
    const tasks: Ref<Tasks>
    const events: Ref<EventLists>
    const artifacts: Ref<Artifacts>
    const results: Ref<Results>
    const sessions: Ref<Sessions>
    ghost const all: Maps

    constructor (maps: Maps)
      ensures all == maps && Linked()
    {
      records := maps.publications;
      tasks := maps.tasks;
      events := maps.events;
      artifacts := maps.artifacts;
      results := maps.results;
      sessions := maps.sessions;
      all := maps;
    }

    ghost predicate Linked() {
      && records == all.publications
      && tasks == all.tasks
      && events == all.events
      && artifacts == all.artifacts
      && results == all.results
      && sessions == all.sessions
    }

    function Get(key: Text): Option<PublicationRecord>
      reads records
    {
      if key in records.it then Some(records.it[key]) else None
    }

    predicate ReferencesHold(intent: PublicationIntent)
      reads tasks, events, set k | k in events.it :: events.it[k]
      reads artifacts, results, sessions
    {
      && intent.taskId in tasks.it
      && tasks.it[intent.taskId].repository.name == intent.repositoryName
      && tasks.it[intent.taskId].status == READY_TO_PUBLISH
      && tasks.it[intent.taskId].version == intent.expectedTaskVersion
      && (if intent.taskId in events.it then |events.it[intent.taskId].it| else 0) == intent.expectedSequence
      && intent.patchDigest in artifacts.it
      && artifacts.it[intent.patchDigest].reference in tasks.it[intent.taskId].artifacts
      && artifacts.it[intent.patchDigest].reference.mediaType == TEXT_DIFF
      && artifacts.it[intent.patchDigest].sourceKind == OwnedBy(intent.workerResultId)
      && intent.workerResultId in results.it
      && results.it[intent.workerResultId].taskId == intent.taskId
      && results.it[intent.workerResultId].worker.role == IMPLEMENTER
      && SessionMatches(sessions.it, results.it[intent.workerResultId].sessionId, intent.taskId, IMPLEMENTER)
    }

    // The aliased dictionaries say what the database says.
    lemma ReferencesAgree(intent: PublicationIntent)
      requires Linked()
      ensures var db := all.View();
              ReferencesHold(intent) <==>
                ReferencesValid(db.tasks, db.events, db.artifacts, db.results, db.sessions, intent)
    {
      HistoryFound(all, intent.taskId);
    }

    method Reserve(intent: PublicationIntent) returns (out: Outcome<(PublicationRecord, bool)>)
      requires Linked() && all.Valid()
      modifies records
      ensures all.Valid() && all.All() == old(all.All())
      ensures Step(all.View(), out) == old(all.View()).Reserve(intent)
    {
      hide Maps.View, Maps.All, Maps.Valid, ReferencesHold, ReferencesValid;
      OnlyPublications(all);
      ReferencesAgree(intent);
      var current := Get(intent.publicationId);
      if current.Some? {
        if current.value.intent.Canonical() != intent.Canonical() { return Err(IdempotencyConflict); }
        return Ok((current.value, false));
      }
      if !ReferencesHold(intent) { return Err(Validation); }
      var record := PublicationRecord(intent, RESERVED, 0, None, None);
      records.it := records.it[intent.publicationId := record];
      OnlyPublications(all);
      out := Ok((record, true));
    }

    method Prepare(prepared: PreparedHead, expectedVersion: nat) returns (out: Outcome<PublicationRecord>)
      requires Linked() && all.Valid()
      modifies records
      ensures all.Valid() && all.All() == old(all.All())
      ensures Step(all.View(), out) == old(all.View()).Prepare(prepared, expectedVersion)
    {
      hide Maps.View, Maps.All, Maps.Valid;
      OnlyPublications(all);
      var current := Get(prepared.publicationId);
      if current.None? || current.value.version != expectedVersion || current.value.state != RESERVED {
        return Err(OptimisticConflict);
      }
      var p := current.value;
      if p.intent.patchDigest != prepared.patchDigest || p.intent.baseSha != prepared.baseSha {
        return Err(IdempotencyConflict);
      }
      var updated := PublicationRecord(p.intent, PREPARED, p.version + 1, Some(prepared), None);
      if !updated.Accepted() { return Err(Validation); }
      records.it := records.it[prepared.publicationId := updated];
      OnlyPublications(all);
      out := Ok(updated);
    }

    method Verify(verification: VerificationResult, expectedVersion: nat) returns (out: Outcome<PublicationRecord>)
      requires Linked() && all.Valid()
      modifies records
      ensures all.Valid() && all.All() == old(all.All())
      ensures Step(all.View(), out) == old(all.View()).Verify(verification, expectedVersion)
    {
      hide Maps.View, Maps.All, Maps.Valid;
      OnlyPublications(all);
      var current := Get(verification.publicationId);
      if current.None? || current.value.version != expectedVersion || current.value.state != PREPARED
         || current.value.preparedHead.None?
      {
        return Err(OptimisticConflict);
      }
      var p := current.value;
      if p.preparedHead.value.headSha != verification.headSha { return Err(IdempotencyConflict); }
      var updated := PublicationRecord(p.intent, VERIFIED, p.version + 1, p.preparedHead, Some(verification));
      if !updated.Accepted() { return Err(Validation); }
      records.it := records.it[verification.publicationId := updated];
      OnlyPublications(all);
      out := Ok(updated);
    }
  }

  class InMemoryPublicationApprovalStore {
    const records: Ref<Approvals>
    const publications: Ref<Publications>
    const artifacts: Ref<Artifacts>
    const sessions: Ref<Sessions>
    const results: Ref<Results>
    ghost const all: Maps

    constructor (maps: Maps)
      ensures all == maps && Linked()
    {
      records := maps.approvals;
      publications := maps.publications;
      artifacts := maps.artifacts;
      sessions := maps.sessions;
      results := maps.results;
      all := maps;
    }

    ghost predicate Linked() {
      && records == all.approvals
      && publications == all.publications
      && artifacts == all.artifacts
      && sessions == all.sessions
      && results == all.results
    }

    function Get(key: Text): Option<PublicationReviewDecision>
      reads records
    {
      if key in records.it then Some(records.it[key]) else None
    }

    function Read(publicationId: Text, headSha: Text): (found: set<PublicationReviewDecision>)
      reads records
    {
      set k | k in records.it && records.it[k].publicationId == publicationId && records.it[k].headSha == headSha ::
        records.it[k]
    }

    method Append(decision: PublicationReviewDecision) returns (out: Outcome<(PublicationReviewDecision, bool)>)
      requires Linked() && all.Valid()
      modifies records
      ensures all.Valid() && all.All() == old(all.All())
      ensures Step(all.View(), out) == old(all.View()).AppendApproval(decision)
    {
      hide Maps.View, Maps.All, Maps.Valid, ApprovalReferences, ReviewerMatches;
      ApprovalParts(all);
      OnlyApprovals(all);
      var current := Get(decision.approvalId);
      if current.Some? {
        if current.value.Canonical() != decision.Canonical() { return Err(IdempotencyConflict); }
        return Ok((current.value, false));
      }
      if !ApprovalReferences(publications.it, artifacts.it, sessions.it, results.it, decision) {
        return Err(Validation);
      }
      ReferencedParts(publications.it, artifacts.it, sessions.it, results.it, decision);
      if !ExactHead(publications.it[decision.publicationId], decision) { return Err(IdempotencyConflict); }
      if !ReviewerMatches(sessions.it, results.it, decision) { return Err(IdempotencyConflict); }
      records.it := records.it[decision.approvalId := decision];
      OnlyApprovals(all);
      out := Ok((decision, true));
    }

    static lemma ReferencedParts(p: Publications, a: Artifacts, s: Sessions, r: Results, d: PublicationReviewDecision)
      requires ApprovalReferences(p, a, s, r, d)
      ensures d.publicationId in p && p[d.publicationId].preparedHead.Some? && d.resultId in r
    {
    }
  }

  class InMemoryPublicationEffectStore {
    const records: Ref<Effects>
    const publications: Ref<Publications>
    const approvals: Ref<Approvals>
    ghost const all: Maps

    constructor (maps: Maps)
      ensures all == maps && Linked()
    {
      records := maps.effects;
      publications := maps.publications;
      approvals := maps.approvals;
      all := maps;
    }

    ghost predicate Linked() {
      && records == all.effects
      && publications == all.publications
      && approvals == all.approvals
    }

    function Get(key: Text): Option<PublicationEffectRecord>
      reads records
    {
      if key in records.it then Some(records.it[key]) else None
    }

    method Request(intent: PublicationEffectIntent) returns (out: Outcome<(PublicationEffectRecord, bool)>)
      requires Linked() && all.Valid()
      modifies records
      ensures all.Valid() && all.All() == old(all.All())
      ensures Step(all.View(), out) == old(all.View()).RequestEffect(intent)
    {
      hide Maps.View, Maps.All, Maps.Valid, EffectAllowed, RefTaken;
      ApprovalParts(all);
      OnlyEffects(all);
      var current := Get(intent.effectId);
      if current.Some? {
        if current.value.intent.Canonical() != intent.Canonical() { return Err(IdempotencyConflict); }
        return Ok((current.value, false));
      }
      if !EffectAllowed(publications.it, approvals.it, intent) { return Err(IdempotencyConflict); }
      if RefTaken(records.it, intent.publicationId, intent.deterministicRef) { return Err(IdempotencyConflict); }
      var record := PublicationEffectRecord(intent, None);
      records.it := records.it[intent.effectId := record];
      OnlyEffects(all);
      out := Ok((record, true));
    }

    method Reconcile(receipt: PublicationReceipt) returns (out: Outcome<PublicationEffectRecord>)
      requires Linked() && all.Valid()
      modifies records
      ensures all.Valid() && all.All() == old(all.All())
      ensures Step(all.View(), out) == old(all.View()).ReconcileEffect(receipt)
    {
      hide Maps.View, Maps.All, Maps.Valid, PullMatches;
      ApprovalParts(all);
      OnlyEffects(all);
      var current := Get(receipt.effectId);
      if current.None? || current.value.intent.publicationId != receipt.publicationId { return Err(Validation); }
      if receipt.state != RECONCILED { return Err(IdempotencyConflict); }
      if receipt.publicationId !in publications.it || publications.it[receipt.publicationId].preparedHead.None?
         || receipt.pullRequest.None?
      {
        return Err(IdempotencyConflict);
      }
      if !PullMatches(publications.it[receipt.publicationId], receipt.pullRequest.value) {
        return Err(IdempotencyConflict);
      }
      if current.value.receipt.Some? {
        if current.value.receipt.value.Canonical() != receipt.Canonical() { return Err(IdempotencyConflict); }
        return Ok(current.value);
      }
      var updated := PublicationEffectRecord(current.value.intent, Some(receipt));
      if !updated.Accepted() { return Err(Validation); }
      records.it := records.it[receipt.effectId := updated];
      OnlyEffects(all);
      out := Ok(updated);
    }
  }

  class InMemoryCheckRunObservationStore {
    const records: Ref<Observations>
    const publications: Ref<Publications>
    ghost const all: Maps

    constructor (maps: Maps)
      ensures all == maps && Linked()
    {
      records := maps.observations;
      publications := maps.publications;
      all := maps;
    }

    ghost predicate Linked() {
      && records == all.observations
      && publications == all.publications
    }

    method Append(o: CheckRunObservation) returns (out: Outcome<(CheckRunObservation, bool)>)
      requires Linked() && all.Valid()
      modifies records
      ensures all.Valid() && all.All() == old(all.All())
      ensures Step(all.View(), out) == old(all.View()).AppendObservation(o)
    {
      hide Maps.View, Maps.All, Maps.Valid, HeadIs;
      ApprovalParts(all);
      OnlyObservations(all);
      var key := KeyOf(o);
      if key in records.it {
        if records.it[key].Canonical() != o.Canonical() { return Err(IdempotencyConflict); }
        return Ok((records.it[key], false));
      }
      if !HeadIs(publications.it, o.publicationId, o.headSha) { return Err(IdempotencyConflict); }
      records.it := records.it[key := o];
      OnlyObservations(all);
      out := Ok((o, true));
    }
  }
}

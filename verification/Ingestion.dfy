// Issue ingestion happens exactly once for each source.

module Ingestion {
  import opened Json
  import opened Domain
  import opened Records
  import opened Ledgers
  import opened Database
  import opened LedgerInvariants
  import opened Services
  import opened Publication
  import opened Coupling
  import opened ServiceRuns
  import opened FuseFreeze
  import Queue

  /******* A fresh ingestion *******/

  function IssueArtifact(blob: Blob): CatalogedArtifact { Catalogued(blob, ISSUE_ARTIFACT) }

  // The three events, in order.
  function Chronicle(c: IssueCandidate, revision: Option<Text>, draws: IngestDraws): seq<Event> {
    [ReceivedEvent(IngestRequest(c, revision), draws.received),
     ArtifactEvent(c.sourceKey, IssueArtifact(draws.blob).reference, draws.attached, 1),
     SourceEvent(c, c.sourceKey, draws.blob.digest, draws.ingested, 2)]
  }

  ghost predicate Ingested(db: Db, db': Db, c: IssueCandidate, revision: Option<Text>, draws: IngestDraws) {
    var k := c.sourceKey;
    && k !in db.tasks && k in db'.tasks
    && db'.tasks[k].taskId == k && db'.tasks[k].version == 1 && db'.tasks[k].status == RECEIVED
    && db'.tasks[k].artifacts == [IssueArtifact(draws.blob).reference]
    && History(db'.events, k) == Chronicle(c, revision, draws)
    && db'.queue == db.queue + [Queue.Row(k, 0, draws.received.at, k, None, None, 0)]
    && db'.sources == db.sources[k := IssueIngestionRecord(k, c.Canonical(), k, c.triggerEventId)]
    && db'.intakes == db.intakes[k := IntakeRecord(k, IngestRequest(c, revision).Canonical(), k)]
  }

  lemma AttachedFirst(task: Task, a: ArtifactRef)
    requires task.artifacts == []
    ensures task.AttachArtifact(a) == task.(artifacts := [a], version := task.version + 1)
  {
  }

  // The intake a source needs, filed.
  function Opened(db: Db, c: IssueCandidate, revision: Option<Text>, draws: IngestDraws, task: Task): Db {
    IntakeFiled(db, IngestRequest(c, revision), task, draws.received)
  }

  lemma RegisterAtOnce(d: Db, id: Text, blob: Blob, stamp: Stamp)
    requires TasksOk(d.tasks) && stamp.eventId !in d.eventIds && id in d.tasks
    requires d.tasks[id].artifacts == [] && d.tasks[id].version == 0
    requires blob.digest in d.artifacts ==> d.artifacts[blob.digest] == IssueArtifact(blob)
    ensures var r := Register(d, id, blob, ISSUE_ARTIFACT, 0, Sequence(d, id), stamp);
            && r.out == Ok(IssueArtifact(blob).reference)
            && r.db == Attached(d, id, IssueArtifact(blob),
                                ArtifactEvent(id, IssueArtifact(blob).reference, stamp, Sequence(d, id)))
            && r.db.tasks[id] == d.tasks[id].(artifacts := [IssueArtifact(blob).reference], version := 1)
  {
    hide EventAppend, TaskUpdate, ArtifactRegister, ArtifactJson;
    var a := IssueArtifact(blob);
    AttachedFirst(d.tasks[id], a.reference);
    assert d.RegisterArtifact(a).out.Ok? by { CatalogueOpen(d, a); }
    CatalogueShape(d, a);
    var e := d.(artifacts := d.artifacts[blob.digest := a]);
    var t := d.tasks[id].AttachArtifact(a.reference);
    UpdateShape(e, t, 0);
    AppendShape(e.(tasks := e.tasks[id := t]), ArtifactEvent(id, a.reference, stamp, Sequence(d, id)), Sequence(d, id));
  }

  lemma CatalogueOpen(db: Db, a: CatalogedArtifact)
    requires a.reference.digest in db.artifacts ==> db.artifacts[a.reference.digest] == a
    ensures db.RegisterArtifact(a).out.Ok?
  {
  }

  lemma SourceOpen(db: Db, r: IssueIngestionRecord)
    requires r.sourceKey !in db.sources && !TriggerUsed(db.sources, r.triggerEventId)
    ensures db.RecordSource(r).out == Ok((r, true)) && db.RecordSource(r).db == SourceFiled(db, r)
  {
  }

  lemma StartOpens(db: Db, c: IssueCandidate, revision: Option<Text>, draws: IngestDraws)
    requires Coupled(db) && FreshDraws(db, draws) && c.sourceKey !in db.intakes && c.sourceKey != []
    requires !db.fuse.engaged && IntakeTask(IngestRequest(c, revision), draws.received.at).Ok?
    ensures var s := Start(db, IngestRequest(c, revision), draws.received);
            var task := IntakeTask(IngestRequest(c, revision), draws.received.at).value;
            && s.out == Ok(task) && s.db == Opened(db, c, revision, draws, task)
            && c.sourceKey !in db.tasks && task.taskId == c.sourceKey && task.version == 0 && task.artifacts == []
            && task.status == RECEIVED && Sequence(s.db, c.sourceKey) == 1
            && History(s.db.events, c.sourceKey) == Chronicle(c, revision, draws)[..1]
  {
    hide FileIntake;
    var request := IngestRequest(c, revision);
    var task := IntakeTask(request, draws.received.at).value;
    FileIntakeShape(db, request, task, draws.received);
    assert History(db.events, c.sourceKey) == [];
  }

  // A new source whose key no intake has used: it is refused for the shape of its task or
  // for its artifact, and for nothing else; otherwise it leaves version 1, three events
  // in order, one unclaimed queue row, and its records.
  lemma FreshIngestion(db: Db, c: IssueCandidate, revision: Option<Text>, draws: IngestDraws)
    requires TasksOk(db.tasks) && Coupled(db) && FreshDraws(db, draws) && c.sourceKey != []
    requires Given(revision) && !db.fuse.engaged
    requires c.sourceKey !in db.sources && c.sourceKey !in db.intakes && !TriggerUsed(db.sources, c.triggerEventId)
    ensures var i := Ingest(db, c, true, revision, draws);
            && (i.out.Ok? <==>
                  && IntakeTask(IngestRequest(c, revision), draws.received.at).Ok?
                  && (draws.blob.digest in db.artifacts ==>
                        db.artifacts[draws.blob.digest] == IssueArtifact(draws.blob)))
            && (i.out.Ok? ==> i.out.value == (c.sourceKey, true) && Ingested(db, i.db, c, revision, draws))
  {
    hide Start, Register, Coupled, TriggerUsed;
    var k, request := c.sourceKey, IngestRequest(c, revision);
    if IntakeTask(request, draws.received.at).Ok? {
      StartOpens(db, c, revision, draws);
      OpenedParts(db, c, revision, draws);
      if draws.blob.digest in db.artifacts && db.artifacts[draws.blob.digest] != IssueArtifact(draws.blob) {
        RegisterRefused(Start(db, request, draws.received).db, k, draws.blob, draws.attached);
      } else {
        FreshTail(db, c, revision, draws);
      }
    } else {
      StartRefused(db, request, draws.received);
    }
  }

  lemma StartRefused(db: Db, request: IntakeRequest, stamp: Stamp)
    requires request.requestId !in db.intakes && IntakeTask(request, stamp.at).Err?
    ensures Start(db, request, stamp).out.Err?
  {
  }

  lemma RegisterRefused(d: Db, id: Text, blob: Blob, stamp: Stamp)
    requires blob.digest in d.artifacts && d.artifacts[blob.digest] != IssueArtifact(blob)
    ensures forall v, n :: Register(d, id, blob, ISSUE_ARTIFACT, v, n, stamp).out.Err?
  {
  }

  lemma OpenedParts(db: Db, c: IssueCandidate, revision: Option<Text>, draws: IngestDraws)
    requires TasksOk(db.tasks) && FreshDraws(db, draws)
    requires IntakeTask(IngestRequest(c, revision), draws.received.at).Ok?
    ensures var d := Opened(db, c, revision, draws, IntakeTask(IngestRequest(c, revision), draws.received.at).value);
            && TasksOk(d.tasks) && draws.attached.eventId !in d.eventIds && draws.ingested.eventId !in d.eventIds
            && d.artifacts == db.artifacts && d.sources == db.sources
  {
  }

  lemma FreshTail(db: Db, c: IssueCandidate, revision: Option<Text>, draws: IngestDraws)
    requires TasksOk(db.tasks) && Coupled(db) && FreshDraws(db, draws) && c.sourceKey != []
    requires !db.fuse.engaged && IntakeTask(IngestRequest(c, revision), draws.received.at).Ok?
    requires c.sourceKey !in db.sources && c.sourceKey !in db.intakes && !TriggerUsed(db.sources, c.triggerEventId)
    requires draws.blob.digest in db.artifacts ==> db.artifacts[draws.blob.digest] == IssueArtifact(draws.blob)
    ensures var f := FileSource(db, c, revision, draws);
            f.out == Ok((c.sourceKey, true)) && Ingested(db, f.db, c, revision, draws)
  {
    hide Start, Register, Coupled, TriggerUsed, EventAppend, SourceRecordOnce, FreshDraws;
    var k, request := c.sourceKey, IngestRequest(c, revision);
    var s := Start(db, request, draws.received);
    StartOpens(db, c, revision, draws);
    OpenedParts(db, c, revision, draws);
    RegisterAtOnce(s.db, k, draws.blob, draws.attached);
    var r := Register(s.db, k, draws.blob, ISSUE_ARTIFACT, 0, 1, draws.attached);
    AttachedHistory(s.db, k, draws.blob, draws.attached);
    var e := SourceEvent(c, k, draws.blob.digest, draws.ingested, 2);
    assert IsFresh(r.db, e) by { FreshApart(db, draws); StillFresh(s.db, k, draws); }
    AppendShape(r.db, e, 2);
    var record := IssueIngestionRecord(k, c.Canonical(), k, c.triggerEventId);
    SourceOpen(Appended(r.db, e), record);
    Chronicled(db, c, revision, draws);
  }

  lemma FreshApart(db: Db, draws: IngestDraws)
    requires FreshDraws(db, draws)
    ensures draws.ingested.eventId != draws.attached.eventId
  {
  }

  lemma AttachedHistory(d: Db, id: Text, blob: Blob, stamp: Stamp)
    requires id in d.tasks
    ensures var a := IssueArtifact(blob);
            var e := ArtifactEvent(id, a.reference, stamp, Sequence(d, id));
            var d' := Attached(d, id, a, e);
            && History(d'.events, id) == History(d.events, id) + [e]
            && d'.queue == d.queue && d'.sources == d.sources && d'.intakes == d.intakes
  {
  }

  lemma StillFresh(d: Db, id: Text, draws: IngestDraws)
    requires id in d.tasks && draws.ingested.eventId !in d.eventIds && draws.ingested.eventId != draws.attached.eventId
    ensures var a := IssueArtifact(draws.blob);
            draws.ingested.eventId !in Attached(d, id, a,
                                                ArtifactEvent(id, a.reference, draws.attached,
                                                              Sequence(d, id))).eventIds
  {
  }

  lemma Chronicled(db: Db, c: IssueCandidate, revision: Option<Text>, draws: IngestDraws)
    ensures var h := Chronicle(c, revision, draws);
            (h[..1] + [h[1]]) + [h[2]] == h
  {
  }

  /******* Replays *******/

  // A known source changes nothing: the same content is answered with its task, any
  // other content is a conflict; and no source may take a used trigger.
  lemma ReplayChangesNothing(db: Db, c: IssueCandidate, revision: Option<Text>, draws: IngestDraws)
    requires Given(revision) && !db.fuse.engaged
    ensures var i := Ingest(db, c, true, revision, draws);
            && (c.sourceKey in db.sources ==>
                  && i.db == db
                  && i.out == if db.sources[c.sourceKey].canonicalRequest == c.Canonical()
                              then Ok((db.sources[c.sourceKey].taskId, false)) else Err(IdempotencyConflict))
            && (c.sourceKey !in db.sources && TriggerUsed(db.sources, c.triggerEventId) ==>
                  i.db == db && i.out == Err(IdempotencyConflict))
  {
    hide FileSource;
  }

  /******* Runs in which direct intakes keep away from source keys *******/

  // Intake request ids are never source keys.
  ghost predicate Apart(cs: seq<Call>, keys: set<Text>) {
    forall i | 0 <= i < |cs| ::
      && (cs[i].CallStart? ==> cs[i].intake.requestId !in keys)
      && (cs[i].CallIngest? ==> cs[i].candidate.sourceKey in keys && cs[i].candidate.Accepted())
  }

  // The call returned and said it created the source.
  ghost predicate Creates(w: World, c: Call, key: Text) {
    && c.CallIngest? && c.candidate.sourceKey == key
    && var i := Ingest(w.db, c.candidate, c.granted, c.revision, c.draws);
    i.out.Ok? && i.out.value.1
  }

  ghost function Creations(w: World, cs: seq<Call>, key: Text): nat {
    if cs == [] then 0
    else Creations(w, cs[..|cs| - 1], key) + if Creates(RunCalls(w, cs[..|cs| - 1]), cs[|cs| - 1], key) then 1 else 0
  }

  // Source keys reach the intake ledger only with their source.
  ghost predicate Paired(db: Db, keys: set<Text>) {
    forall k | k in db.intakes && k in keys :: k in db.sources
  }

  // Only ingestion writes sources; only ingestion and intake write intakes.
  ghost predicate KeepsSources(db: Db, db': Db) { db'.sources == db.sources && db'.intakes == db.intakes }

  lemma SessionKeeps(db: Db, r: RunnerSessionRequest, stamp: Stamp)
    ensures KeepsSources(db, RequestSession(db, r, stamp).db)
  {
    hide SessionRecordOnce, EventAppend, SessionEvent;
    var s := db.RecordSession(r).db;
    assert KeepsSources(db, s) && KeepsSources(db, s.AppendEvent(SessionEvent(r, stamp), r.expectedSequence).db);
  }

  lemma StoreCallsKeep(db: Db, o: RunnerSessionOutcome, rows: Queue.Rows, f: FuseState, e: ControlEvent)
    ensures KeepsSources(db, db.SetOutcome(o).db)
    ensures KeepsSources(db, db.(queue := rows))
    ensures KeepsSources(db, db.SetFuse(f).db.AppendControl(e).db)
    ensures KeepsSources(db, db)
  {
    hide SessionSetOutcome;
  }

  lemma RunKeeps(db: Db, id: Text, answer: RunnerSessionOutcome)
    ensures KeepsSources(db, RunWorker(db, id, answer).db)
  {
    hide KeepsSources, SessionSetOutcome;
    StoreCallsKeep(db, answer, db.queue, db.fuse, ControlEvent([], 0, None));
  }

  lemma ControlKeeps(db: Db, w: Text, now: Time, lease: int, granted: bool, revision: Option<Text>)
    ensures KeepsSources(db, Engage(db, now).db)
    ensures KeepsSources(db, Release(db, now, granted, revision).db)
    ensures KeepsSources(db, ClaimNext(db, w, now, lease).db)
  {
    hide KeepsSources, Queue.Claim;
    var o := RunnerSessionOutcome([], REQUESTED, []);
    var rows := Queue.Claim(db.queue, w, now, lease).rows;
    StoreCallsKeep(db, o, rows, FuseState(true, now, None), ControlEvent(Lit("fuse_engaged"), now, None));
    StoreCallsKeep(db, o, rows, FuseState(false, now, revision), ControlEvent(Lit("fuse_released"), now, revision));
  }

  lemma AllocateKeeps(db: Db, m: Manager, r: WorkspaceRequest, granted: bool, stamp: Stamp)
    ensures KeepsSources(db, Allocate(db, m, r, granted, stamp).0.db)
  {
    hide KeepsSources, FileWorkspace, Policy;
    FileWorkspaceKeeps(db, m, r, stamp);
    assert KeepsSources(db, db) by { KeepsSelf(db); }
  }

  lemma KeepsSelf(db: Db)
    ensures KeepsSources(db, db)
  {
  }

  lemma FileWorkspaceKeeps(db: Db, m: Manager, r: WorkspaceRequest, stamp: Stamp)
    ensures forall record :: KeepsSources(db, FileWorkspace(db, record, r, stamp).db)
  {
    hide WorkspaceRecordOnce, EventAppend, AllocatedEvent;
    forall record ensures KeepsSources(db, FileWorkspace(db, record, r, stamp).db) {
      var w := db.RecordWorkspace(record).db;
      assert KeepsSources(db, w) && KeepsSources(db, w.AppendEvent(AllocatedEvent(r, stamp), r.expectedSequence).db);
    }
  }

  lemma SmallCallsKeep(w: World, c: Call)
    requires c.CallEngage? || c.CallRelease? || c.CallClaim? || c.CallSession? || c.CallRun? || c.CallAllocate?
    ensures KeepsSources(w.db, ServeDb(w, c).0)
  {
    hide KeepsSources, RequestSession, Allocate, RunWorker, Engage, Release, ClaimNext;
    match c
    case CallRun(id, answer) => RunKeeps(w.db, id, answer);
    case CallEngage(now) => ControlKeeps(w.db, [], now, 0, false, None);
    case CallRelease(now, granted, revision) => ControlKeeps(w.db, [], now, 0, granted, revision);
    case CallClaim(worker, now, lease) => ControlKeeps(w.db, worker, now, lease, false, None);
    case CallSession(r, stamp) => SessionKeeps(w.db, r, stamp);
    case CallAllocate(r, granted, stamp) => AllocateKeeps(w.db, w.manager, r, granted, stamp);
  }

  lemma FrozenKeeps(db: Db, db': Db)
    requires Frozen(db, db')
    ensures KeepsSources(db, db')
  {
  }

  lemma SameKeeps(db: Db, db': Db)
    requires SameWork(db, db')
    ensures KeepsSources(db, db')
  {
  }

  lemma OthersKeep(w: World, c: Call)
    requires Queue.Unique(w.db.queue) && !c.CallIngest? && !c.CallStart?
    ensures KeepsSources(w.db, ServeDb(w, c).0)
  {
    hide ServeDb, Frozen, SameWork, KeepsSources;
    if OnPublications(c) {
      PublicationCallSame(w, c);
      SameKeeps(w.db, ServeDb(w, c).0);
    } else if !Guarded(c) && !c.CallRelease? && !c.CallEngage? {
      UnguardedFrozen(w, c);
      FrozenKeeps(w.db, ServeDb(w, c).0);
    } else {
      SmallCallsKeep(w, c);
    }
  }

  lemma StartKeeps(db: Db, request: IntakeRequest, stamp: Stamp)
    requires Coupled(db) && stamp.eventId !in db.eventIds && Start(db, request, stamp).out.Ok?
    ensures var d := Start(db, request, stamp).db;
            && d.sources == db.sources
            && forall k | k in d.intakes :: k in db.intakes || k == request.requestId
  {
    hide FileIntake, Coupled;
    if request.requestId !in db.intakes { FileIntakeShape(db, request, IntakeTask(request, stamp.at).value, stamp); }
  }

  lemma IngestKeeps(db: Db, c: IssueCandidate, granted: bool, revision: Option<Text>, draws: IngestDraws,
                    keys: set<Text>)
    requires TasksOk(db.tasks) && Coupled(db) && FreshDraws(db, draws) && Paired(db, keys) && c.sourceKey in keys
    requires c.sourceKey != []
    requires Ingest(db, c, granted, revision, draws).out.Ok?
    ensures var i := Ingest(db, c, granted, revision, draws);
            && i.out.value.0 == c.sourceKey
            && i.out.value.1 == (c.sourceKey !in db.sources)
            && c.sourceKey in i.db.sources && Paired(i.db, keys)
            && (forall k | k in db.sources :: k in i.db.sources)
            && (forall k | k in i.db.sources :: k in db.sources || k == c.sourceKey)
            && (i.out.value.1 ==> Ingested(db, i.db, c, revision, draws))
  {
    hide FileSource, FreshDraws, TasksOk;
    if c.sourceKey !in db.sources {
      hide Coupled;
      assert Ingest(db, c, granted, revision, draws) == Ingest(db, c, true, revision, draws);
      FreshIngestion(db, c, revision, draws);
    }
  }

  lemma KeysStep(w: World, c: Call, keys: set<Text>, key: Text)
    requires Healthy(w) && Sound(w, c) && Apart([c], keys) && Paired(w.db, keys)
    ensures Paired(Serve(w, c).db, keys)
    ensures key in Serve(w, c).db.sources <==> key in w.db.sources || Creates(w, c, key)
    ensures Creates(w, c, key) ==> key !in w.db.sources
  {
    hide Inv, Coupled, ServeDb, Ingest, Ingested;
    HealthyParts(w);
    CoupledPart(w);
    assert [c][0] == c;
    if c.CallIngest? {
      IngestStep(w, c, keys, key);
    } else if c.CallStart? {
      StartStep(w, c, keys);
    } else {
      hide Healthy, Sound, ServeDb;
      UniqueRows(w.db.queue);
      OthersKeep(w, c);
    }
  }

  lemma CoupledPart(w: World)
    requires Healthy(w)
    ensures Coupled(w.db)
  {
  }

  lemma IngestStep(w: World, c: Call, keys: set<Text>, key: Text)
    requires TasksOk(w.db.tasks) && Coupled(w.db) && c.CallIngest? && FreshDraws(w.db, c.draws) && Paired(w.db, keys)
    requires c.candidate.sourceKey in keys && c.candidate.sourceKey != []
    ensures Paired(Serve(w, c).db, keys)
    ensures key in Serve(w, c).db.sources <==> key in w.db.sources || Creates(w, c, key)
    ensures Creates(w, c, key) ==> key !in w.db.sources
  {
    hide Ingest, Coupled, Ingested, Paired, FreshDraws, TasksOk;
    if Ingest(w.db, c.candidate, c.granted, c.revision, c.draws).out.Ok? {
      IngestKeeps(w.db, c.candidate, c.granted, c.revision, c.draws, keys);
    }
  }

  lemma StartStep(w: World, c: Call, keys: set<Text>)
    requires Coupled(w.db) && c.CallStart? && c.stamp.eventId !in w.db.eventIds && Paired(w.db, keys)
    requires c.intake.requestId !in keys
    ensures Paired(Serve(w, c).db, keys) && Serve(w, c).db.sources == w.db.sources
  {
    hide Start, Coupled;
    if Start(w.db, c.intake, c.stamp).out.Ok? { StartKeeps(w.db, c.intake, c.stamp); }
  }

  // Over any such run from the start: a source is created exactly once if it is known at
  // the end and never otherwise; it is the source of the task named by its key, and no
  // other source has its trigger.
  lemma {:induction false} ExactlyOnce(cs: seq<Call>, keys: set<Text>, key: Text)
    requires SoundRun(NEW_WORLD, cs) && Apart(cs, keys)
    ensures var w := RunCalls(NEW_WORLD, cs);
            && Creations(NEW_WORLD, cs, key) == (if key in w.db.sources then 1 else 0)
            && Paired(w.db, keys)
            && (key in w.db.sources ==> w.db.sources[key].taskId == key && key in w.db.tasks)
            && (forall j, k | j in w.db.sources && k in w.db.sources
                              && w.db.sources[j].triggerEventId == w.db.sources[k].triggerEventId :: j == k)
  {
    hide Healthy, Onward, Serve, Sound, Creates, Paired;
    NewWorldHealthy();
    RunOnward(NEW_WORLD, cs);
    OnwardHealthy(NEW_WORLD, RunCalls(NEW_WORLD, cs));
    SourcesSound(RunCalls(NEW_WORLD, cs));
    if cs == [] {
      EmptyPaired(keys);
    } else {
      var n := |cs| - 1;
      ExactlyOnce(cs[..n], keys, key);
      RunOnward(NEW_WORLD, cs[..n]);
      OnwardHealthy(NEW_WORLD, RunCalls(NEW_WORLD, cs[..n]));
      assert [cs[n]][0] == cs[n];
      KeysStep(RunCalls(NEW_WORLD, cs[..n]), cs[n], keys, key);
    }
  }

  lemma EmptyPaired(keys: set<Text>)
    ensures Paired(NEW_WORLD.db, keys) && NEW_WORLD.db.sources == map[]
  {
  }

  lemma SourcesSound(w: World)
    requires Healthy(w)
    ensures forall k | k in w.db.sources :: w.db.sources[k].taskId == k && k in w.db.tasks
    ensures forall j, k | j in w.db.sources && k in w.db.sources
                          && w.db.sources[j].triggerEventId == w.db.sources[k].triggerEventId :: j == k
  {
  }
}

// A source that comes again, an intake that comes again: answered with the stored task
// exactly if it is what created the record, in every field.

module IngestReplays {
  import opened Json
  import opened Domain
  import opened Records
  import opened CanonicalForms
  import opened Ledgers
  import opened Database
  import opened LedgerInvariants
  import opened Services
  import opened Publication
  import opened Coupling
  import opened ServiceRuns
  import opened Ingestion
  import Queue

  /******* What a call writes to the sources and the intakes *******/

  lemma RegisterKeeps(db: Db, id: Text, blob: Blob, request: ArtifactRequest, v: nat, n: nat, stamp: Stamp)
    ensures KeepsSources(db, Register(db, id, blob, request, v, n, stamp).db)
  {
    hide Db.RegisterArtifact, Db.UpdateTask, Db.AppendEvent, ArtifactEvent, KeepsSources;
    KeepsSelf(db);
    if id in db.tasks {
      var reference := ArtifactRef(blob.digest, request.logicalName, request.mediaType);
      var a := CatalogedArtifact(reference, request.classification, request.sourceKind, blob.size);
      var r := db.RegisterArtifact(a).db;
      var t := db.tasks[id].AttachArtifact(reference);
      var u, e := r.UpdateTask(t, v).db, ArtifactEvent(id, reference, stamp, n);
      WritesKeep(db, a, t, v, e, n);
      WritesKeep(r, a, t, v, e, n);
      WritesKeep(u, a, t, v, e, n);
      KeepsThen(db, r, u);
      KeepsThen(db, r, r.AppendEvent(e, n).db);
      KeepsThen(db, u, u.AppendEvent(e, n).db);
    }
  }

  lemma KeepsThen(a: Db, b: Db, c: Db)
    requires KeepsSources(a, b) && KeepsSources(b, c)
    ensures KeepsSources(a, c)
  {
  }

  lemma WritesKeep(db: Db, a: CatalogedArtifact, t: Task, v: nat, e: Event, n: nat)
    ensures KeepsSources(db, db.RegisterArtifact(a).db) && KeepsSources(db, db.UpdateTask(t, v).db)
    ensures KeepsSources(db, db.AppendEvent(e, n).db)
  {
    hide ArtifactRegister, TaskUpdate, EventAppend;
  }

  lemma FileIntakeKeeps(db: Db, request: IntakeRequest, task: Task, stamp: Stamp)
    requires request.requestId !in db.intakes && FileIntake(db, request, task, stamp).out.Ok?
    ensures var f := FileIntake(db, request, task, stamp).db;
            f.sources == db.sources && f.intakes
            == db.intakes[request.requestId := IntakeRecord(request.requestId, request.Canonical(), task.taskId)]
  {
    hide TaskCreate, EventAppend, Queue.Enqueue, ReceivedEvent, IntakeRequest.Canonical;
  }

  // The intakes with the request filed, if it was not there.
  function WithIntake(m: Intakes, request: IntakeRequest): Intakes {
    if request.requestId in m then m
    else m[request.requestId := IntakeRecord(request.requestId, request.Canonical(), request.requestId)]
  }

  lemma StartFiles(db: Db, request: IntakeRequest, stamp: Stamp)
    requires Start(db, request, stamp).out.Ok?
    ensures var s := Start(db, request, stamp).db;
            s.sources == db.sources && s.intakes == WithIntake(db.intakes, request)
  {
    hide FileIntake, IntakeRequest.Canonical;
    if request.requestId !in db.intakes {
      FileIntakeKeeps(db, request, IntakeTask(request, stamp.at).value, stamp);
    }
  }

  lemma NoteRecords(db: Db, c: IssueCandidate, id: Text, currentId: Text, digest: Text, stamp: Stamp)
    requires c.sourceKey !in db.sources && NoteSource(db, c, id, currentId, digest, stamp).out.Ok?
    ensures var n := NoteSource(db, c, id, currentId, digest, stamp);
            && n.out.value.1 && n.db.intakes == db.intakes
            && n.db.sources
               == db.sources[c.sourceKey := IssueIngestionRecord(c.sourceKey, c.Canonical(), currentId,
                                                                 c.triggerEventId)]
  {
    hide EventAppend, SourceEvent, IssueCandidate.Canonical, TriggerUsed;
  }

  // A new source leaves a record of its own text.
  lemma IngestRecords(db: Db, c: IssueCandidate, granted: bool, revision: Option<Text>, draws: IngestDraws)
    requires c.sourceKey !in db.sources && Ingest(db, c, granted, revision, draws).out.Ok?
    ensures var i := Ingest(db, c, granted, revision, draws);
            && i.out.value.1 && c.sourceKey in i.db.sources
            && i.db.sources == db.sources[c.sourceKey := i.db.sources[c.sourceKey]]
            && i.db.sources[c.sourceKey].canonicalRequest == c.Canonical()
            && i.db.intakes == WithIntake(db.intakes, IngestRequest(c, revision))
  {
    hide Start, Register, NoteSource, IssueCandidate.Canonical, WithIntake, TriggerUsed, IngestRequest;
    var s := Start(db, IngestRequest(c, revision), draws.received);
    StartFiles(db, IngestRequest(c, revision), draws.received);
    var task := s.out.value;
    var n := Sequence(s.db, task.taskId);
    RegisterKeeps(s.db, task.taskId, draws.blob, ISSUE_ARTIFACT, task.version, n, draws.attached);
    var r := Register(s.db, task.taskId, draws.blob, ISSUE_ARTIFACT, task.version, n, draws.attached);
    NoteRecords(r.db, c, task.taskId, r.db.tasks[task.taskId].taskId, r.out.value.digest, draws.ingested);
  }

  /******* Who created what *******/

  // The candidate of the call that created the source.
  ghost function Maker(w: World, cs: seq<Call>, key: Text): Option<IssueCandidate> {
    if cs == [] then None
    else
      var v, c := RunCalls(w, cs[..|cs| - 1]), cs[|cs| - 1];
      if key !in v.db.sources && c.CallIngest? && c.candidate.sourceKey == key && ServeDb(v, c).1
      then Some(c.candidate) else Maker(w, cs[..|cs| - 1], key)
  }

  // The request of the call that filed the intake.
  ghost function Filer(w: World, cs: seq<Call>, id: Text): Option<IntakeRequest> {
    if cs == [] then None
    else
      var v, c := RunCalls(w, cs[..|cs| - 1]), cs[|cs| - 1];
      if id !in v.db.intakes && Files(c) && Filed(c).requestId == id && ServeDb(v, c).1
         && !(c.CallIngest? && c.candidate.sourceKey in v.db.sources)
      then Some(Filed(c)) else Filer(w, cs[..|cs| - 1], id)
  }

  predicate Files(c: Call) { c.CallStart? || c.CallIngest? }

  function Filed(c: Call): IntakeRequest
    requires Files(c)
  {
    if c.CallStart? then c.intake else IngestRequest(c.candidate, c.revision)
  }

  // What a call that returns does to both ledgers.
  lemma CallFiles(w: World, c: Call)
    requires Queue.Unique(w.db.queue) && ServeDb(w, c).1
    ensures var d := ServeDb(w, c).0;
            if c.CallIngest? && c.candidate.sourceKey !in w.db.sources
            then && c.candidate.sourceKey in d.sources
                 && d.sources == w.db.sources[c.candidate.sourceKey := d.sources[c.candidate.sourceKey]]
                 && d.sources[c.candidate.sourceKey].canonicalRequest == c.candidate.Canonical()
                 && d.intakes == WithIntake(w.db.intakes, Filed(c))
            else if c.CallStart? then d.sources == w.db.sources && d.intakes == WithIntake(w.db.intakes, c.intake)
            else KeepsSources(w.db, d)
  {
    hide KeepsSources, Start, Ingest, WithIntake, IssueCandidate.Canonical, IngestRequest;
    if c.CallIngest? {
      if c.candidate.sourceKey in w.db.sources {
        KnownKeeps(w.db, c.candidate, c.granted, c.revision, c.draws);
      } else {
        IngestRecords(w.db, c.candidate, c.granted, c.revision, c.draws);
      }
    } else if c.CallStart? {
      StartFiles(w.db, c.intake, c.stamp);
    } else {
      OthersKeep(w, c);
    }
  }

  lemma KnownKeeps(db: Db, c: IssueCandidate, granted: bool, revision: Option<Text>, draws: IngestDraws)
    requires c.sourceKey in db.sources
    ensures KeepsSources(db, Ingest(db, c, granted, revision, draws).db)
  {
    hide FileSource;
  }

  ghost predicate MadeBy(db: Db, key: Text, maker: Option<IssueCandidate>) {
    && (key in db.sources <==> maker.Some?)
    && (maker.Some? ==> maker.value.sourceKey == key && db.sources[key].canonicalRequest == maker.value.Canonical())
  }

  ghost predicate FiledBy(db: Db, id: Text, filer: Option<IntakeRequest>) {
    && (id in db.intakes <==> filer.Some?)
    && (filer.Some? ==> filer.value.requestId == id && db.intakes[id].canonicalRequest == filer.value.Canonical())
  }

  lemma CallMakes(w: World, c: Call, key: Text, m: Option<IssueCandidate>)
    requires Queue.Unique(w.db.queue) && MadeBy(w.db, key, m)
    ensures MadeBy(Serve(w, c).db, key,
                   if key !in w.db.sources && c.CallIngest? && c.candidate.sourceKey == key && ServeDb(w, c).1
                   then Some(c.candidate) else m)
  {
    hide ServeDb, WithIntake, IssueCandidate.Canonical;
    if ServeDb(w, c).1 { CallFiles(w, c); }
  }

  lemma CallFilesOne(w: World, c: Call, id: Text, m: Option<IntakeRequest>)
    requires Queue.Unique(w.db.queue) && FiledBy(w.db, id, m)
    ensures FiledBy(Serve(w, c).db, id,
                    if id !in w.db.intakes && Files(c) && Filed(c).requestId == id && ServeDb(w, c).1
                       && !(c.CallIngest? && c.candidate.sourceKey in w.db.sources)
                    then Some(Filed(c)) else m)
  {
    hide ServeDb, IntakeRequest.Canonical, IngestRequest;
    if ServeDb(w, c).1 { CallFiles(w, c); }
  }

  // Over any run from empty the two ledgers hold the texts of the calls that wrote them.
  lemma {:induction false} RunMakes(cs: seq<Call>, key: Text, id: Text)
    requires SoundRun(NEW_WORLD, cs)
    ensures MadeBy(RunCalls(NEW_WORLD, cs).db, key, Maker(NEW_WORLD, cs, key))
    ensures FiledBy(RunCalls(NEW_WORLD, cs).db, id, Filer(NEW_WORLD, cs, id))
  {
    hide Serve, ServeDb, Sound, MadeBy, FiledBy, Healthy;
    if cs == [] {
      NothingMade(key, id);
    } else {
      var n := |cs| - 1;
      RunMakes(cs[..n], key, id);
      RunUnique(cs[..n]);
      CallMakes(RunCalls(NEW_WORLD, cs[..n]), cs[n], key, Maker(NEW_WORLD, cs[..n], key));
      CallFilesOne(RunCalls(NEW_WORLD, cs[..n]), cs[n], id, Filer(NEW_WORLD, cs[..n], id));
    }
  }

  lemma NothingMade(key: Text, id: Text)
    ensures MadeBy(NEW_WORLD.db, key, None) && FiledBy(NEW_WORLD.db, id, None)
  {
  }

  lemma RunUnique(cs: seq<Call>)
    requires SoundRun(NEW_WORLD, cs)
    ensures Queue.Unique(RunCalls(NEW_WORLD, cs).db.queue)
  {
    hide Healthy, RunCalls, SoundRun, Onward;
    NewWorldHealthy();
    RunOnward(NEW_WORLD, cs);
    OnwardHealthy(NEW_WORLD, RunCalls(NEW_WORLD, cs));
    HealthyParts(RunCalls(NEW_WORLD, cs));
    UniqueRows(RunCalls(NEW_WORLD, cs).db.queue);
  }

  /******* Main results *******/

  // After any run from empty, a known source comes again: under a governance that grants
  // it and with the fuse off it is answered with its task exactly if it agrees in every
  // field with the candidate that created it, and is a conflict otherwise.
  lemma SourceReplay(cs: seq<Call>, c: IssueCandidate, granted: bool, revision: Option<Text>, draws: IngestDraws)
    requires SoundRun(NEW_WORLD, cs) && c.sourceKey in RunCalls(NEW_WORLD, cs).db.sources
    ensures var db, maker := RunCalls(NEW_WORLD, cs).db, Maker(NEW_WORLD, cs, c.sourceKey);
            && maker.Some?
            && Ingest(db, c, granted, revision, draws)
               == Step(db, if !granted || revision == None || revision == Some([]) then Err(UnsupportedGovernance)
                           else if db.fuse.engaged then Err(Validation)
                           else if CandidateUnits(c) == CandidateUnits(maker.value)
                           then Ok((db.sources[c.sourceKey].taskId, false))
                           else Err(IdempotencyConflict))
  {
    hide RunCalls, SoundRun, Maker, Filer, FileSource, IssueCandidate.Canonical, CandidateUnits;
    RunMakes(cs, c.sourceKey, []);
    CandidatesDetermined(c, Maker(NEW_WORLD, cs, c.sourceKey).value);
  }

  // The same for an intake request under a known id.
  lemma IntakeReplay(cs: seq<Call>, r: IntakeRequest, stamp: Stamp)
    requires SoundRun(NEW_WORLD, cs) && r.requestId in RunCalls(NEW_WORLD, cs).db.intakes && r.requestId != []
    ensures var db, filer := RunCalls(NEW_WORLD, cs).db, Filer(NEW_WORLD, cs, r.requestId);
            && filer.Some? && db.intakes[r.requestId].taskId in db.tasks
            && Start(db, r, stamp)
               == Step(db, if db.fuse.engaged then Err(Validation)
                           else if IntakeUnits(r) == IntakeUnits(filer.value)
                           then Ok(db.tasks[db.intakes[r.requestId].taskId])
                           else Err(CreateConflict))
  {
    hide RunCalls, SoundRun, Maker, Filer, FileIntake, IntakeRequest.Canonical, IntakeUnits;
    RunMakes(cs, [], r.requestId);
    IntakesDetermined(r, Filer(NEW_WORLD, cs, r.requestId).value);
    IntakesLive(cs);
  }

  lemma IntakesLive(cs: seq<Call>)
    requires SoundRun(NEW_WORLD, cs)
    ensures var db := RunCalls(NEW_WORLD, cs).db;
            forall k | k in db.intakes :: db.intakes[k].taskId in db.tasks
  {
    hide RunCalls, SoundRun, Onward, Inv;
    NewWorldHealthy();
    RunOnward(NEW_WORLD, cs);
    OnwardHealthy(NEW_WORLD, RunCalls(NEW_WORLD, cs));
  }
}

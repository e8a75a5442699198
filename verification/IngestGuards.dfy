// When a source is taken for the first time, in the candidate's own fields.

module IngestGuards {
  import opened Json
  import opened Domain
  import opened Records
  import opened Ledgers
  import opened Database
  import opened LedgerInvariants
  import opened Services
  import opened Coupling
  import opened Ingestion
  import opened ServiceGuards
  import Queue

  // The repository's name and revision, the key and the reference are all there, and the
  // name is no absolute path.
  ghost predicate Openable(c: IssueCandidate) {
    var name := BeforeHash(c.sourceReference);
    && c.sourceKey != [] && c.sourceReference != [] && c.spec.revision != []
    && name != [] && name[0] !in {'/' as int, '\\' as int}
  }

  // Everything up to the first '#', or everything.
  lemma {:induction false} BeforeHashMeans(s: Text)
    ensures var b := BeforeHash(s);
            && |b| <= |s| && b == s[..|b|] && '#' as int !in b && (|b| < |s| ==> s[|b|] == '#' as int)
  {
    if s != [] && s[0] != '#' as int {
      BeforeHashMeans(s[1..]);
      assert s == [s[0]] + s[1..];
    }
  }

  lemma OpenableMeans(c: IssueCandidate, revision: Option<Text>, at: Time)
    ensures IntakeTask(IngestRequest(c, revision), at).Ok? <==> Openable(c)
  {
  }

  // The artifact's digest is new to the catalogue, or stands for the same artifact.
  ghost predicate Fits(db: Db, blob: Blob) {
    blob.digest in db.artifacts ==>
      db.artifacts[blob.digest]
      == CatalogedArtifact(ArtifactRef(blob.digest, Lit("issue-task.json"),
                                       Lit("application/vnd.meta-loop.issue-task+json")),
                           Lit("source_input"), Lit("github_issue"), blob.size)
  }

  // What the new source's task looks like.
  function SourceTask(c: IssueCandidate, revision: Option<Text>, draws: IngestDraws): Task {
    Task(c.sourceKey, TaskSource(Lit("github_issue"), c.sourceReference),
         RepositoryTarget(BeforeHash(c.sourceReference), c.spec.revision),
         RiskAssessment(c.spec.risk, c.spec.risk, c.spec.risk, None, revision), draws.received.at, RECEIVED, 1, 0,
         [ArtifactRef(draws.blob.digest, Lit("issue-task.json"),
                      Lit("application/vnd.meta-loop.issue-task+json"))])
  }

  // A source no one has used, with a key no intake has used, is taken exactly under a
  // governance that is given and granted, with the fuse off, on a trigger no source has
  // used, if its task is well formed and its artifact fits the catalogue. It leaves this
  // task, three events, one unclaimed row and its two records, and is answered as new.
  lemma IngestExactly(db: Db, c: IssueCandidate, granted: bool, revision: Option<Text>, draws: IngestDraws)
    requires TasksOk(db.tasks) && Coupled(db) && FreshDraws(db, draws)
    requires c.sourceKey !in db.sources && c.sourceKey !in db.intakes
    ensures var i := Ingest(db, c, granted, revision, draws);
            && (i.out.Ok? <==>
                  && granted && revision.Some? && revision.value != [] && !db.fuse.engaged
                  && (forall k | k in db.sources :: db.sources[k].triggerEventId != c.triggerEventId)
                  && Openable(c) && Fits(db, draws.blob))
            && (i.out.Ok? ==>
                  && i.out.value == (c.sourceKey, true) && Ingested(db, i.db, c, revision, draws)
                  && i.db.tasks[c.sourceKey] == SourceTask(c, revision, draws))
  {
    hide Coupled, FreshDraws, Ingest, Openable, IntakeTask, IngestRequest, Ingested, Fits, SourceTask;
    OpenableMeans(c, revision, draws.received.at);
    FitsMeans(db, draws.blob);
    Unusable(db, c, granted, revision, draws);
    if granted && Given(revision) && !db.fuse.engaged && !TriggerUsed(db.sources, c.triggerEventId) {
      if c.sourceKey != [] {
        FreshIngestion(db, c, revision, draws);
        if Openable(c) && Fits(db, draws.blob) { TaskLeft(db, c, revision, draws); }
      }
    }
  }

  lemma FitsMeans(db: Db, blob: Blob)
    ensures Fits(db, blob) <==> (blob.digest in db.artifacts ==> db.artifacts[blob.digest] == IssueArtifact(blob))
  {
  }

  lemma Unusable(db: Db, c: IssueCandidate, granted: bool, revision: Option<Text>, draws: IngestDraws)
    requires c.sourceKey !in db.sources
    ensures !granted || !Given(revision) || db.fuse.engaged || TriggerUsed(db.sources, c.triggerEventId)
            || c.sourceKey == []
       ==> Ingest(db, c, granted, revision, draws).out.Err?
    ensures c.sourceKey == [] ==> !Openable(c)
  {
  }

  lemma TaskLeft(db: Db, c: IssueCandidate, revision: Option<Text>, draws: IngestDraws)
    requires TasksOk(db.tasks) && Coupled(db) && FreshDraws(db, draws) && Openable(c) && Fits(db, draws.blob)
    requires c.sourceKey !in db.sources && c.sourceKey !in db.intakes && !TriggerUsed(db.sources, c.triggerEventId)
    requires Given(revision) && !db.fuse.engaged
    ensures var d := Ingest(db, c, true, revision, draws).db;
            c.sourceKey in d.tasks && d.tasks[c.sourceKey] == SourceTask(c, revision, draws)
  {
    hide Start, Register, Coupled, TriggerUsed, NoteSource, FreshDraws;
    OpenableMeans(c, revision, draws.received.at);
    FitsMeans(db, draws.blob);
    StartOpens(db, c, revision, draws);
    OpenedParts(db, c, revision, draws);
    var s := Start(db, IngestRequest(c, revision), draws.received);
    RegisterAtOnce(s.db, c.sourceKey, draws.blob, draws.attached);
    var r := Register(s.db, c.sourceKey, draws.blob, ISSUE_ARTIFACT, 0, 1, draws.attached);
    NotedTasks(r.db, c, c.sourceKey, c.sourceKey, draws.blob.digest, draws.ingested);
  }

  lemma NotedTasks(db: Db, c: IssueCandidate, id: Text, currentId: Text, digest: Text, stamp: Stamp)
    ensures NoteSource(db, c, id, currentId, digest, stamp).db.tasks == db.tasks
  {
    hide EventAppend, SourceEvent, SourceRecordOnce, IssueCandidate.Canonical;
  }

  // The task with its artifact, its two events, and the source's record.
  ghost predicate JoinedTo(db: Db, db': Db, c: IssueCandidate, draws: IngestDraws, id: Text) {
    var a := IssueArtifact(draws.blob);
    && id in db.tasks && db'.tasks == db.tasks[id := db.tasks[id].AttachArtifact(a.reference)]
    && History(db'.events, id)
       == History(db.events, id) + [ArtifactEvent(id, a.reference, draws.attached, Sequence(db, id)),
                                    SourceEvent(c, id, draws.blob.digest, draws.ingested, Sequence(db, id) + 1)]
    && db'.artifacts == db.artifacts[draws.blob.digest := a]
    && db'.sources
       == db.sources[c.sourceKey := IssueIngestionRecord(c.sourceKey, c.Canonical(), id, c.triggerEventId)]
    && db' == db.(tasks := db'.tasks, events := db'.events, eventIds := db'.eventIds, artifacts := db'.artifacts,
                  sources := db'.sources)
  }

  // A source whose key an intake has used already joins that intake's task: under the same
  // conditions, except that the stored request must be the candidate's.
  lemma JoinExactly(db: Db, c: IssueCandidate, granted: bool, revision: Option<Text>, draws: IngestDraws)
    requires TasksOk(db.tasks) && Coupled(db) && FreshDraws(db, draws)
    requires c.sourceKey !in db.sources && c.sourceKey in db.intakes && db.intakes[c.sourceKey].taskId in db.tasks
    ensures var i := Ingest(db, c, granted, revision, draws);
            var id := db.intakes[c.sourceKey].taskId;
            && (i.out.Ok? <==>
                  && granted && revision.Some? && revision.value != [] && !db.fuse.engaged && c.sourceKey != []
                  && (forall k | k in db.sources :: db.sources[k].triggerEventId != c.triggerEventId)
                  && db.intakes[c.sourceKey].canonicalRequest == IngestRequest(c, revision).Canonical()
                  && Fits(db, draws.blob))
            && (i.out.Ok? ==> i.out.value == (id, true) && JoinedTo(db, i.db, c, draws, id))
  {
    hide Coupled, FreshDraws, Ingest, IngestRequest, Fits, FileSource, IssueCandidate.Canonical, ArtifactEvent,
         SourceEvent;
    hide IntakeRequest.Canonical;
    FitsMeans(db, draws.blob);
    Unusable(db, c, granted, revision, draws);
    if granted && Given(revision) && !db.fuse.engaged && c.sourceKey != []
       && !TriggerUsed(db.sources, c.triggerEventId) {
      Passes(db, c, revision, draws);
      Joins(db, c, revision, draws);
    }
  }

  lemma Passes(db: Db, c: IssueCandidate, revision: Option<Text>, draws: IngestDraws)
    requires c.sourceKey !in db.sources && Given(revision) && !db.fuse.engaged
    requires !TriggerUsed(db.sources, c.triggerEventId)
    ensures Ingest(db, c, true, revision, draws) == FileSource(db, c, revision, draws)
  {
    hide FileSource;
  }

  lemma Joins(db: Db, c: IssueCandidate, revision: Option<Text>, draws: IngestDraws)
    requires TasksOk(db.tasks) && FreshDraws(db, draws) && !db.fuse.engaged && c.sourceKey != []
    requires c.sourceKey !in db.sources && c.sourceKey in db.intakes && db.intakes[c.sourceKey].taskId in db.tasks
    requires !TriggerUsed(db.sources, c.triggerEventId)
    ensures var i := FileSource(db, c, revision, draws);
            var id := db.intakes[c.sourceKey].taskId;
            && (i.out.Ok? <==>
                  && db.intakes[c.sourceKey].canonicalRequest == IngestRequest(c, revision).Canonical()
                  && Fits(db, draws.blob))
            && (i.out.Ok? ==> i.out.value == (id, true) && JoinedTo(db, i.db, c, draws, id))
  {
    hide Register, NoteSource, TriggerUsed, Fits, IssueCandidate.Canonical, IntakeRequest.Canonical, ArtifactEvent,
         SourceEvent;
    var id := db.intakes[c.sourceKey].taskId;
    assert IngestRequest(c, revision).requestId == c.sourceKey;
    if db.intakes[c.sourceKey].canonicalRequest == IngestRequest(c, revision).Canonical() {
      Joined(db, c, id, draws);
    }
  }

  // The artifact, its event, the source's event and record, on a task that is there.
  lemma Joined(db: Db, c: IssueCandidate, id: Text, draws: IngestDraws)
    requires TasksOk(db.tasks) && FreshDraws(db, draws) && id in db.tasks
    requires c.sourceKey !in db.sources && !TriggerUsed(db.sources, c.triggerEventId)
    ensures var r := Register(db, id, draws.blob, ISSUE_ARTIFACT, db.tasks[id].version, Sequence(db, id),
                              draws.attached);
            && (r.out.Ok? <==> Fits(db, draws.blob))
            && (r.out.Ok? ==>
                  && r.out.value.digest == draws.blob.digest && id in r.db.tasks && r.db.tasks[id].taskId == id
                  && var n := NoteSource(r.db, c, id, id, draws.blob.digest, draws.ingested);
                  n.out == Ok((id, true)) && JoinedTo(db, n.db, c, draws, id))
  {
    hide Register, Fits, IssueCandidate.Canonical, ArtifactJson, JoinedTo, NoteSource, SourceEvent;
    FitsMeans(db, draws.blob);
    var v, n := db.tasks[id].version, Sequence(db, id);
    RegisterExactly(db, id, draws.blob, ISSUE_ARTIFACT, v, n, draws.attached);
    var r := Register(db, id, draws.blob, ISSUE_ARTIFACT, v, n, draws.attached);
    if r.out.Ok? {
      RegisterShape(db, id, draws.blob, ISSUE_ARTIFACT, v, n, draws.attached);
      AttachedHistory(db, id, draws.blob, draws.attached);
      StillFresh(db, id, draws);
      Noted(r.db, c, id, draws);
      JoinedParts(db, c, id, draws);
    }
  }

  lemma Noted(d: Db, c: IssueCandidate, id: Text, draws: IngestDraws)
    requires draws.ingested.eventId !in d.eventIds && c.sourceKey !in d.sources
    requires !TriggerUsed(d.sources, c.triggerEventId)
    ensures var n := NoteSource(d, c, id, id, draws.blob.digest, draws.ingested);
            && n.out == Ok((id, true))
            && n.db == SourceFiled(Appended(d, SourceEvent(c, id, draws.blob.digest, draws.ingested, Sequence(d, id))),
                                   IssueIngestionRecord(c.sourceKey, c.Canonical(), id, c.triggerEventId))
  {
    hide IssueCandidate.Canonical, EventAppend, SourceRecordOnce, TriggerUsed;
    var e := SourceEvent(c, id, draws.blob.digest, draws.ingested, Sequence(d, id));
    AppendShape(d, e, Sequence(d, id));
    SourceOpen(Appended(d, e), IssueIngestionRecord(c.sourceKey, c.Canonical(), id, c.triggerEventId));
  }

  lemma JoinedParts(db: Db, c: IssueCandidate, id: Text, draws: IngestDraws)
    requires TasksOk(db.tasks) && id in db.tasks
    ensures var a := IssueArtifact(draws.blob);
            var d := Attached(db, id, a, ArtifactEvent(id, a.reference, draws.attached, Sequence(db, id)));
            var e := SourceEvent(c, id, draws.blob.digest, draws.ingested, Sequence(d, id));
            var r := IssueIngestionRecord(c.sourceKey, c.Canonical(), id, c.triggerEventId);
            JoinedTo(db, SourceFiled(Appended(d, e), r), c, draws, id)
  {
    hide IssueCandidate.Canonical, ArtifactJson;
  }
}

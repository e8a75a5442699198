// The SQL repositories whose rows are the records themselves, statement by statement, next
// to the in-memory ones.

module SqlStores {
  import opened Json
  import opened JsonInjective
  import opened Domain
  import opened Records
  import opened CanonicalForms
  import opened Ledgers
  import opened Database
  import opened LedgerInvariants
  import SqlLedgers

  /******* Tasks *******/

  function SqlCreate(m: Tasks, task: Task): Put<Tasks, Task> {
    if task.version > 0 then Put(m, Err(OptimisticConflict))
    else if task.taskId in m then Put(m, Err(CreateConflict))
    else Put(m[task.taskId := task], Ok(task))
  }

  // The version must increment by one before the row is looked at.
  function SqlUpdate(m: Tasks, task: Task, expectedVersion: nat): Put<Tasks, Task> {
    if task.version != expectedVersion + 1 then Put(m, Err(OptimisticConflict))
    else if task.taskId !in m then Put(m, Err(TaskNotFound))
    else if m[task.taskId].version != expectedVersion then Put(m, Err(OptimisticConflict))
    else Put(m[task.taskId := task], Ok(task))
  }

  lemma TasksAgree(m: Tasks, task: Task, expectedVersion: nat)
    ensures SqlLedgers.Agree(SqlCreate(m, task), TaskCreate(m, task))
    ensures SqlLedgers.Agree(SqlUpdate(m, task, expectedVersion), TaskUpdate(m, task, expectedVersion))
  {
  }

  /******* Intakes, sources, artifacts *******/

  function SqlIntake(m: Intakes, r: IntakeRecord): Put<Intakes, IntakeRecord> {
    if r.requestId in m then
      var existing := IntakeRecord(r.requestId, m[r.requestId].canonicalRequest, m[r.requestId].taskId);
      Put(m, if existing == r then Ok(existing) else Err(IdempotencyConflict))
    else Put(m[r.requestId := r], Ok(r))
  }

  // A unique index on the trigger refuses the insert.
  function SqlSource(m: Sources, r: IssueIngestionRecord): Put<Sources, (IssueIngestionRecord, bool)> {
    if r.sourceKey in m then
      var row := m[r.sourceKey];
      var existing := IssueIngestionRecord(r.sourceKey, row.canonicalRequest, row.taskId, row.triggerEventId);
      Put(m, if existing != r then Err(IdempotencyConflict) else Ok((existing, false)))
    else if r.triggerEventId in set k | k in m :: m[k].triggerEventId then Put(m, Err(IdempotencyConflict))
    else Put(m[r.sourceKey := r], Ok((r, true)))
  }

  function SqlRegister(m: Artifacts, a: CatalogedArtifact): Put<Artifacts, CatalogedArtifact> {
    var digest := a.reference.digest;
    if digest in m then
      var row := m[digest];
      var current := CatalogedArtifact(ArtifactRef(digest, row.reference.logicalName, row.reference.mediaType),
                                       row.classification, row.sourceKind, row.sizeBytes);
      Put(m, if current != a then Err(IdempotencyConflict) else Ok(current))
    else Put(m[digest := a], Ok(a))
  }

  lemma SourcesAgree(db: Db, i: IntakeRecord, s: IssueIngestionRecord, a: CatalogedArtifact)
    requires IntakesOk(db.intakes) && SourcesOk(db.sources) && ArtifactsOk(db.artifacts)
    ensures SqlLedgers.Agree(SqlIntake(db.intakes, i), IntakeCreate(db.intakes, i))
    ensures SqlLedgers.Agree(SqlSource(db.sources, s), SourceRecordOnce(db.sources, s))
    ensures SqlLedgers.Agree(SqlRegister(db.artifacts, a), ArtifactRegister(db.artifacts, a))
  {
    if a.reference.digest in db.artifacts && db.artifacts[a.reference.digest] == a {
      assert db.artifacts[a.reference.digest := a] == db.artifacts;
    }
  }

  /******* Sessions and results *******/

  function StateName(s: RunnerSessionState): Text {
    match s
    case REQUESTED => Lit("requested")
    case SUCCEEDED => Lit("succeeded")
    case FAILED_SESSION => Lit("failed")
    case CANCELLED => Lit("cancelled")
  }

  function OutcomeMembers(o: RunnerSessionOutcome): seq<Member> {
    [Field("state", Str(StateName(o.state))), Field("summary", Str(o.summary))]
  }

  // The text an outcome is stored and compared as.
  function OutcomeText(o: RunnerSessionOutcome): string { Encode(Obj(OutcomeMembers(o))) }

  function SqlSession(m: Sessions, r: RunnerSessionRequest): Put<Sessions, RunnerSessionReceipt> {
    if r.sessionId in m then
      Put(m, if m[r.sessionId].request.Canonical() != r.Canonical() then Err(IdempotencyConflict)
             else Ok(RunnerSessionReceipt(r.sessionId, m[r.sessionId].state, false)))
    else
      Put(m[r.sessionId := RunnerSessionRecord(r, REQUESTED, None)],
          Ok(RunnerSessionReceipt(r.sessionId, REQUESTED, true)))
  }

  function SqlOutcome(m: Sessions, o: RunnerSessionOutcome): Put<Sessions, RunnerSessionRecord> {
    if o.sessionId !in m then Put(m, Err(Validation))
    else if m[o.sessionId].outcome.Some? then
      Put(m, if OutcomeText(m[o.sessionId].outcome.value) != OutcomeText(o) then Err(IdempotencyConflict)
             else Ok(m[o.sessionId]))
    else
      var row := RunnerSessionRecord(m[o.sessionId].request, o.state, Some(o));
      Put(m[o.sessionId := row], Ok(row))
  }

  function SqlResult(m: Results, r: WorkerResult): Put<Results, bool> {
    if r.resultId in m
    then Put(m, if m[r.resultId].Canonical() != r.Canonical() then Err(IdempotencyConflict) else Ok(false))
    else Put(m[r.resultId := r], Ok(true))
  }

  lemma OutcomeField(a: RunnerSessionOutcome, b: RunnerSessionOutcome)
    ensures OutcomeText(a) == OutcomeText(b) <==> a.state == b.state && Utf16(a.summary) == Utf16(b.summary)
  {
    var ms, ns := OutcomeMembers(a), OutcomeMembers(b);
    SameText(ms, ns);
    PlainField(StateName(a.state), StateName(b.state));
    assert StateName(a.state)[0] == StateName(b.state)[0] ==> a.state == b.state;
    if Agree(ms, ns) {
      assert Narrow(ms[0].value) == Narrow(ns[0].value);
      assert Narrow(ms[1].value) == Narrow(ns[1].value);
    }
  }

  // Outcomes are compared by text in SQL and as they are in memory: a second spelling of
  // the stored summary is a replay to the one and a conflict to the other, and that is all.
  lemma SessionsAgree(db: Db, r: RunnerSessionRequest, o: RunnerSessionOutcome, w: WorkerResult)
    requires SessionsOk(db.sessions)
    ensures SqlLedgers.Agree(SqlSession(db.sessions, r), SessionRecordOnce(db.sessions, r))
    ensures SqlLedgers.Agree(SqlResult(db.results, w), ResultRecordOnce(db.results, w))
    ensures var sql, memory := SqlOutcome(db.sessions, o), SessionSetOutcome(db.sessions, o);
            && sql.m == memory.m && (memory.out.Ok? ==> sql.out == memory.out)
            && (sql.out.Ok? && memory.out.Err? <==>
                  && o.sessionId in db.sessions && db.sessions[o.sessionId].outcome.Some?
                  && var stored := db.sessions[o.sessionId].outcome.value;
                     stored != o && stored.state == o.state && Utf16(stored.summary) == Utf16(o.summary))
  {
    hide OutcomeText, RunnerSessionRequest.Canonical, WorkerResult.Canonical, Utf16;
    if o.sessionId in db.sessions {
      assert SessionOk(o.sessionId, db.sessions[o.sessionId]);
      if db.sessions[o.sessionId].outcome.Some? { OutcomeField(db.sessions[o.sessionId].outcome.value, o); }
    }
  }

  /******* Workspaces *******/

  // A new row is active, whatever the record says; a known one is compared with its access
  // and repository as well.
  function SqlWorkspace(m: Workspaces, w: WorkspaceRecord): Put<Workspaces, (WorkspaceRecord, bool)> {
    var id := w.request.allocationId;
    if id in m then
      Put(m, if m[id].request.Canonical() != w.request.Canonical() || m[id].readOnly != w.readOnly
                || m[id].repositoryName != w.repositoryName
             then Err(IdempotencyConflict) else Ok((m[id], false)))
    else if exists k :: k in m && Serves(m[k], w.request.taskId, w.request.purpose)
    then Put(m, Err(IdempotencyConflict))
    else Put(m[id := w.(state := ACTIVE)], Ok((w, true)))
  }

  predicate Serves(w: WorkspaceRecord, taskId: Text, purpose: WorkspacePurpose) {
    w.request.taskId == taskId && w.request.purpose == purpose && w.state == ACTIVE
  }

  function SqlRelease(m: Workspaces, id: Text): Put<Workspaces, WorkspaceRecord> {
    if id !in m then Put(m, Err(TaskNotFound))
    else Put(if m[id].state == ACTIVE then m[id := m[id].(state := RELEASED)] else m, Ok(m[id].(state := RELEASED)))
  }

  // A new record is accepted and answered alike, and the rows agree exactly if it is refused
  // or active, for a released one comes to stand as active in SQL. A known request is
  // answered alike exactly unless it comes with other access or another repository.
  lemma WorkspacesAgreeIf(m: Workspaces, w: WorkspaceRecord)
    ensures var sql, memory := SqlWorkspace(m, w), WorkspaceRecordOnce(m, w);
            var id := w.request.allocationId;
            && (id !in m ==>
                  && (sql.out.Ok? <==> memory.out.Ok?) && (sql.out.Ok? ==> sql.out == memory.out)
                  && (sql.m == memory.m <==> memory.out.Err? || w.state == ACTIVE))
            && (id in m ==>
                  && sql.m == memory.m
                  && (sql.out == memory.out <==>
                        memory.out.Err? || (m[id].readOnly == w.readOnly && m[id].repositoryName == w.repositoryName)))
  {
    hide WorkspaceRequest.Canonical;
    var id := w.request.allocationId;
    if id !in m {
      assert (exists k :: k in m && Serves(m[k], w.request.taskId, w.request.purpose)) <==>
        PurposeTaken(m, w.request.taskId, w.request.purpose) by {
        if k :| k in m && Serves(m[k], w.request.taskId, w.request.purpose) {
          assert m[k].state == ACTIVE;
        }
        if PurposeTaken(m, w.request.taskId, w.request.purpose) {
          var k :| k in m && m[k].state == ACTIVE && m[k].request.taskId == w.request.taskId
                   && m[k].request.purpose == w.request.purpose;
          assert Serves(m[k], w.request.taskId, w.request.purpose);
        }
      }
      if w.state != ACTIVE { assert m[id := w][id] != m[id := w.(state := ACTIVE)][id]; }
    }
  }

  lemma ReleasesAgree(m: Workspaces, id: Text)
    ensures SqlLedgers.Agree(SqlRelease(m, id), WorkspaceRelease(m, id))
  {
  }

  /******* Publications and observations *******/

  // The row keeps tree, head and ref; patch and base come from the intent.
  function SqlPrepared(m: Publications, h: PreparedHead, expectedVersion: nat): Put<Publications, PublicationRecord> {
    if h.publicationId !in m || m[h.publicationId].version != expectedVersion || m[h.publicationId].state != RESERVED
    then Put(m, Err(OptimisticConflict))
    else
      var i := m[h.publicationId].intent;
      if i.patchDigest != h.patchDigest || i.baseSha != h.baseSha then Put(m, Err(IdempotencyConflict))
      else
        var head := PreparedHead(i.publicationId, i.patchDigest, i.baseSha, h.treeSha, h.headSha, h.deterministicRef);
        var row := PublicationRecord(i, PREPARED, expectedVersion + 1, Some(head), None);
        Put(m[h.publicationId := row], Ok(row))
  }

  function SqlVerified(m: Publications, v: VerificationResult, expectedVersion: nat)
      : Put<Publications, PublicationRecord>
  {
    if v.publicationId !in m || m[v.publicationId].version != expectedVersion || m[v.publicationId].state != PREPARED
       || m[v.publicationId].preparedHead.None?
    then Put(m, Err(OptimisticConflict))
    else
      var h := m[v.publicationId].preparedHead.value;
      if h.headSha != v.headSha then Put(m, Err(IdempotencyConflict))
      else
        var row := PublicationRecord(m[v.publicationId].intent, VERIFIED, expectedVersion + 1, Some(h), Some(v));
        Put(m[v.publicationId := row], Ok(row))
  }

  lemma PublicationsAgree(db: Db, h: PreparedHead, v: VerificationResult, expectedVersion: nat)
    requires PublicationsOk(db.artifacts, db.sessions, db.results, db.publications)
    ensures SqlLedgers.Agree(SqlPrepared(db.publications, h, expectedVersion),
                             RecordPrepared(db.publications, h, expectedVersion))
    ensures SqlLedgers.Agree(SqlVerified(db.publications, v, expectedVersion),
                  RecordVerification(db.publications, v, expectedVersion))
  {
    var m := db.publications;
    if h.publicationId in m {
      assert PublicationOk(db.artifacts, db.sessions, db.results, h.publicationId, m[h.publicationId]);
    }
    if v.publicationId in m {
      assert PublicationOk(db.artifacts, db.sessions, db.results, v.publicationId, m[v.publicationId]);
    }
  }

  // The head column is null until the publication is prepared; a replay is answered with
  // the observation it came with.
  function SqlObservation(m: Observations, p: Publications, o: CheckRunObservation)
      : Put<Observations, (CheckRunObservation, bool)>
  {
    var k := ObservationKey(o.publicationId, o.headSha, o.checkName, o.observedAt);
    if k in m then
      Put(m, if m[k].Canonical() != o.Canonical() then Err(IdempotencyConflict) else Ok((o, false)))
    else if o.publicationId !in p || HeadColumn(p[o.publicationId]) != Some(o.headSha)
    then Put(m, Err(IdempotencyConflict))
    else Put(m[k := o], Ok((o, true)))
  }

  function HeadColumn(p: PublicationRecord): Option<Text> {
    if p.preparedHead.Some? then Some(p.preparedHead.value.headSha) else None
  }

  lemma ObservationsAgree(db: Db, o: CheckRunObservation)
    requires ObservationsOk(db.publications, db.observations) && o.Accepted()
    ensures SqlLedgers.Agree(SqlObservation(db.observations, db.publications, o),
                  ObservationAppend(db.observations, db.publications, o))
  {
    hide CheckRunObservation.Canonical, CheckRunObservation.Accepted;
    if KeyOf(o) in db.observations { ObservationsDetermined(db.observations[KeyOf(o)], o); }
  }
}

// The SQL ledgers guard their writes differently from the in-memory ones. On every
// reachable database the two accept the same writes and leave the same rows.

module SqlLedgers {
  import opened Json
  import opened JsonInjective
  import opened Domain
  import opened Records
  import opened CanonicalForms
  import opened Ledgers
  import opened Database
  import opened LedgerInvariants
  import opened Services
  import opened Coupling

  // Same rows, same acceptance, same answer; the error classes may differ.
  ghost predicate Agree<M, T>(sql: Put<M, T>, memory: Put<M, T>) {
    && sql.m == memory.m
    && (sql.out.Ok? <==> memory.out.Ok?)
    && (sql.out.Ok? ==> sql.out.value == memory.out.value)
  }

  /******* Event sequences *******/

  // SELECT COALESCE(MAX(sequence), 0) over the events of one task.
  function MaxSequence(h: seq<Event>): nat {
    if h == [] then 0
    else
      var m := MaxSequence(h[..|h| - 1]);
      if h[|h| - 1].sequence > m then h[|h| - 1].sequence else m
  }

  function EventTypeName(t: EventType): Text {
    match t
    case TASK_RECEIVED => Lit("task_received")
    case TASK_TRANSITIONED => Lit("task_transitioned")
    case TASK_BLOCKED => Lit("task_blocked")
    case REVIEW_REWORK_REQUIRED => Lit("review_rework_required")
    case ARTIFACT_REGISTERED => Lit("artifact_registered")
    case RUNNER_SESSION_REQUESTED => Lit("runner_session_requested")
    case WORKSPACE_ALLOCATED => Lit("workspace_allocated")
    case WORKSPACE_RELEASED => Lit("workspace_released")
    case SOURCE_INGESTED => Lit("source_ingested")
  }

  // The text the SQL adapter compares when an event id comes back.
  function EventText(e: Event): string {
    Encode(Obj(
      [Field("actor", Str(RoleName(e.actor))),
       Field("causation_id", OptionalText(e.causationId)),
       Field("correlation_id", Str(e.correlationId)),
       Field("event_id", Str(e.eventId)),
       Field("event_type", Str(EventTypeName(e.kind))),
       Field("occurred_at", Str(IsoFormat(e.occurredAt))),
       Field("payload", e.payload),
       SchemaVersion(),
       Field("sequence", Number(e.sequence)),
       Field("task_id", Str(e.taskId))]))
  }

  // The task exists; a known id is replayed if the texts agree; for a new one the expected
  // sequence is the maximum.
  function SqlAppend(tasks: Tasks, s: EventStore, e: Event, n: nat): Put<EventStore, Event> {
    if e.taskId !in tasks then Put(s, Err(TaskNotFound))
    else if e.eventId in s.ids then
      if EventText(s.ids[e.eventId]) == EventText(e)
      then Put(s, Ok(s.ids[e.eventId])) else Put(s, Err(IdempotencyConflict))
    else if MaxSequence(History(s.events, e.taskId)) != n || e.sequence != n + 1 then Put(s, Err(SequenceConflict))
    else Put(EventStore(s.events[e.taskId := History(s.events, e.taskId) + [e]], s.ids[e.eventId := e]), Ok(e))
  }

  // Another event under the same id, with the same text.
  ghost predicate Twin(ids: EventIds, e: Event) {
    e.eventId in ids && ids[e.eventId] != e && EventText(ids[e.eventId]) == EventText(e)
  }

  lemma {:induction false} MaximumIsLength(taskId: Text, h: seq<Event>)
    requires Numbered(taskId, h)
    ensures MaxSequence(h) == |h|
  {
    if h != [] { MaximumIsLength(taskId, h[..|h| - 1]); }
  }

  // The SQL store accepts exactly what the in-memory one accepts for an existing task, and
  // besides that a twin of a stored event. What both accept they store alike, and neither
  // refusal changes a history: in memory it may leave an empty one.
  lemma AppendsAgree(db: Db, e: Event, n: nat)
    requires Inv(db)
    ensures var sql := SqlAppend(db.tasks, EventStore(db.events, db.eventIds), e, n);
            var memory := EventAppend(EventStore(db.events, db.eventIds), e, n);
            && (sql.out.Ok? <==> e.taskId in db.tasks && (memory.out.Ok? || Twin(db.eventIds, e)))
            && (sql.out.Ok? && memory.out.Ok? ==> sql == memory)
            && (sql.out.Err? ==> sql.m == EventStore(db.events, db.eventIds))
            && (memory.out.Err? ==> memory.m.ids == db.eventIds)
            && (memory.out.Err? ==> forall t :: History(memory.m.events, t) == History(db.events, t))
  {
    hide EventText;
    var h := History(db.events, e.taskId);
    assert Numbered(e.taskId, h) by { HistoryNumbered(db.events, db.eventIds, e.taskId); }
    MaximumIsLength(e.taskId, h);
  }

  // A first event numbered 2: memory refuses it and keeps an empty history for the task.
  lemma EmptyHistoryLeft() returns (e: Event)
    ensures e.sequence == 2
    ensures var p := EventAppend(EventStore(map[], map[]), e, 0);
            p.out.Err? && e.taskId in p.m.events && p.m.events == map[e.taskId := []]
  {
    e := Event(Lit("e"), Lit("t"), TASK_RECEIVED, 0, SYSTEM, Null, None, Lit("c"), 2);
  }

  lemma HistoryNumbered(events: Events, ids: EventIds, t: Text)
    requires EventsOk(events, ids)
    ensures Numbered(t, History(events, t))
  {
  }

  /******* Reservation *******/

  // The SQL adapter compares digests, the in-memory one whole references.
  predicate SqlReferencesValid(tasks: Tasks, events: Events, artifacts: Artifacts, results: Results,
                               sessions: Sessions, i: PublicationIntent) {
    && i.taskId in tasks && i.workerResultId in results && i.patchDigest in artifacts
    && results[i.workerResultId].taskId == i.taskId
    && artifacts[i.patchDigest].reference.mediaType == TEXT_DIFF
    && artifacts[i.patchDigest].sourceKind == OwnedBy(i.workerResultId)
    && tasks[i.taskId].repository.name == i.repositoryName
    && tasks[i.taskId].status == READY_TO_PUBLISH
    && tasks[i.taskId].version == i.expectedTaskVersion
    && |History(events, i.taskId)| == i.expectedSequence
    && (exists a | a in tasks[i.taskId].artifacts :: a.digest == i.patchDigest)
    && SessionMatches(sessions, results[i.workerResultId].sessionId, i.taskId, IMPLEMENTER)
    && results[i.workerResultId].worker.role == IMPLEMENTER
  }

  function SqlReserve(m: Publications, tasks: Tasks, events: Events, artifacts: Artifacts, results: Results,
                      sessions: Sessions, i: PublicationIntent): Put<Publications, (PublicationRecord, bool)> {
    if i.publicationId in m then
      if m[i.publicationId].intent.Canonical() != i.Canonical() then Put(m, Err(IdempotencyConflict))
      else Put(m, Ok((m[i.publicationId], false)))
    else if !SqlReferencesValid(tasks, events, artifacts, results, sessions, i) then Put(m, Err(Validation))
    else
      var record := PublicationRecord(i, RESERVED, 0, None, None);
      Put(m[i.publicationId := record], Ok((record, true)))
  }

  lemma ReferencesAgree(tasks: Tasks, events: Events, artifacts: Artifacts, results: Results, sessions: Sessions,
                        i: PublicationIntent)
    requires ArtifactsKnown(tasks, artifacts) && ArtifactsOk(artifacts)
    ensures SqlReferencesValid(tasks, events, artifacts, results, sessions, i)
       <==> ReferencesValid(tasks, events, artifacts, results, sessions, i)
  {
    if i.taskId in tasks && i.patchDigest in artifacts {
      var own, r := tasks[i.taskId].artifacts, artifacts[i.patchDigest].reference;
      assert (exists a | a in own :: a.digest == i.patchDigest) <==> r in own by {
        if a :| a in own && a.digest == i.patchDigest {
          var j :| 0 <= j < |own| && own[j] == a;
          assert artifacts[own[j].digest].reference == own[j];
        }
      }
    }
  }

  lemma ReservationsAgree(db: Db, i: PublicationIntent)
    requires ArtifactsKnown(db.tasks, db.artifacts) && ArtifactsOk(db.artifacts)
    ensures Agree(SqlReserve(db.publications, db.tasks, db.events, db.artifacts, db.results, db.sessions, i),
                  PublicationReserve(db.publications, db.tasks, db.events, db.artifacts, db.results, db.sessions, i))
  {
    hide SqlReferencesValid, ReferencesValid, ArtifactsKnown, ArtifactsOk;
    ReferencesAgree(db.tasks, db.events, db.artifacts, db.results, db.sessions, i);
  }

  /******* Approval *******/

  predicate SqlApprovable(publications: Publications, artifacts: Artifacts, sessions: Sessions, results: Results,
                          d: PublicationReviewDecision) {
    && d.publicationId in publications && d.approvalArtifact.digest in artifacts
    && d.sessionId in sessions && d.resultId in results
    && var p := publications[d.publicationId];
    && p.verification.Some? && p.state == VERIFIED && p.verification.value.status == VERIFY_SUCCEEDED
    && p.intent.taskId == d.taskId && p.intent.patchDigest == d.patchDigest && p.intent.baseSha == d.baseSha
    && p.preparedHead.Some? && p.preparedHead.value.treeSha == d.treeSha && p.preparedHead.value.headSha == d.headSha
    && SessionMatches(sessions, d.sessionId, d.taskId, PATCH_REVIEWER)
    && results[d.resultId].taskId == d.taskId && results[d.resultId].sessionId == d.sessionId
    && results[d.resultId].worker.role == PATCH_REVIEWER && results[d.resultId].worker.workerId == d.reviewerId
  }

  // A row keeps the digest of the approval artifact; name and media type are joined from
  // the catalogue when the row is read.
  function ApprovalRows(m: Approvals): Approvals { map k | k in m :: ByDigest(m[k]) }

  function Joined(artifacts: Artifacts, row: PublicationReviewDecision): PublicationReviewDecision
    requires row.approvalArtifact.digest in artifacts
  {
    var catalogued := artifacts[row.approvalArtifact.digest].reference;
    row.(approvalArtifact :=
      ArtifactRef(row.approvalArtifact.digest, catalogued.logicalName, catalogued.mediaType))
  }

  // The join finds no row whose digest is not catalogued; the insert does nothing if the id
  // is there all the same, and the second look finds nothing either.
  function SqlApproval(rows: Approvals, publications: Publications, artifacts: Artifacts, sessions: Sessions,
                       results: Results, d: PublicationReviewDecision)
        : Put<Approvals, (PublicationReviewDecision, bool)>
  {
    if d.approvalId in rows && rows[d.approvalId].approvalArtifact.digest in artifacts then
      var prior := Joined(artifacts, rows[d.approvalId]);
      if prior.Canonical() != d.Canonical() then Put(rows, Err(IdempotencyConflict)) else Put(rows, Ok((prior, false)))
    else if !SqlApprovable(publications, artifacts, sessions, results, d) || d.approvalId in rows
    then Put(rows, Err(IdempotencyConflict))
    else Put(rows[d.approvalId := ByDigest(d)], Ok((d, true)))
  }

  // The decision names its artifact as the catalogue does.
  predicate NamedAsCatalogued(artifacts: Artifacts, d: PublicationReviewDecision) {
    && d.approvalArtifact.digest in artifacts
    && artifacts[d.approvalArtifact.digest].reference == d.approvalArtifact
  }

  lemma ApprovableAgree(ps: Publications, a: Artifacts, s: Sessions, r: Results, d: PublicationReviewDecision)
    requires PublicationsOk(a, s, r, ps)
    ensures SqlApprovable(ps, a, s, r, d) <==>
      ApprovalReferences(ps, a, s, r, d) && ExactHead(ps[d.publicationId], d) && ReviewerMatches(s, r, d)
  {
    if d.publicationId in ps { assert PublicationOk(a, s, r, d.publicationId, ps[d.publicationId]); }
  }

  lemma JoinRestores(artifacts: Artifacts, d: PublicationReviewDecision)
    requires ArtifactsOk(artifacts) && d.approvalArtifact.digest in artifacts
    ensures var r := Joined(artifacts, ByDigest(d));
            && ByDigest(r) == ByDigest(d) && r.Canonical() == d.Canonical()
            && (r == d <==> NamedAsCatalogued(artifacts, d))
  {
    SameByDigest(Joined(artifacts, ByDigest(d)), d);
  }

  // The guards compare no more of the artifact than its digest, so both stores accept the
  // same decisions and leave the same rows. They answer alike unless the decision is
  // replayed and the stored one names its artifact differently from the catalogue.
  lemma ApprovalsAgree(db: Db, d: PublicationReviewDecision)
    requires Inv(db)
    ensures var rows := ApprovalRows(db.approvals);
            var sql := SqlApproval(rows, db.publications, db.artifacts, db.sessions, db.results, d);
            var memory := ApprovalAppend(db.approvals, db.publications, db.artifacts, db.sessions, db.results, d);
            && (sql.out.Ok? <==> memory.out.Ok?)
            && sql.m == ApprovalRows(memory.m)
            && (sql.out.Ok? ==>
              && sql.out.value.1 == memory.out.value.1
              && ByDigest(sql.out.value.0) == ByDigest(memory.out.value.0)
              && (sql.out.value.0 == memory.out.value.0 <==>
                    d.approvalId !in db.approvals || NamedAsCatalogued(db.artifacts, db.approvals[d.approvalId])))
  {
    hide PublicationsOk, SqlApprovable, Inv, ApprovalReferences, ExactHead, ReviewerMatches, ArtifactsOk;
    hide PublicationReviewDecision.Canonical, Joined, NamedAsCatalogued;
    ApprovalParts(db, d.approvalId);
    if d.approvalId in db.approvals {
      JoinRestores(db.artifacts, db.approvals[d.approvalId]);
    } else {
      ApprovableAgree(db.publications, db.artifacts, db.sessions, db.results, d);
      NewRow(db.approvals, d);
    }
  }

  lemma NewRow(m: Approvals, d: PublicationReviewDecision)
    ensures ApprovalRows(m[d.approvalId := d]) == ApprovalRows(m)[d.approvalId := ByDigest(d)]
  {
  }

  lemma ApprovalParts(db: Db, id: Text)
    requires Inv(db)
    ensures PublicationsOk(db.artifacts, db.sessions, db.results, db.publications) && ArtifactsOk(db.artifacts)
    ensures id in db.approvals ==> db.approvals[id].approvalArtifact.digest in db.artifacts
  {
    hide PublicationsOk, EffectsOk, ObservationsOk, EventsOk, WorkspacesOk, SourcesOk;
    if id in db.approvals {
      assert ApprovalOk(db.artifacts, db.sessions, db.results, db.publications, db.approvals[id]);
    }
  }

  /******* Effects *******/

  ghost predicate HoldsRef(m: Effects, k: Text, i: PublicationEffectIntent) {
    k in m && m[k].intent.publicationId == i.publicationId && m[k].intent.deterministicRef == i.deterministicRef
  }

  predicate SqlEffectAllowed(publications: Publications, approvals: Approvals, i: PublicationEffectIntent) {
    && i.publicationId in publications
    && HasApproval(approvals, i.publicationId, i.headSha)
    && publications[i.publicationId].verification.Some?
    && publications[i.publicationId].preparedHead.Some?
    && publications[i.publicationId].preparedHead.value.headSha == i.headSha
    && publications[i.publicationId].preparedHead.value.deterministicRef == i.deterministicRef
    && publications[i.publicationId].state == VERIFIED
    && publications[i.publicationId].verification.value.status == VERIFY_SUCCEEDED
  }

  // What the SQL request may answer: the ref is looked up first, and an effect found there
  // with the same canonical intent counts as a replay.
  ghost predicate SqlRequests(m: Effects, publications: Publications, approvals: Approvals, i: PublicationEffectIntent,
                              answer: Put<Effects, (PublicationEffectRecord, bool)>) {
    if i.effectId in m then
      answer == if m[i.effectId].intent.Canonical() != i.Canonical() then Put(m, Err(IdempotencyConflict))
                else Put(m, Ok((m[i.effectId], false)))
    else if exists k :: HoldsRef(m, k, i) then
      exists k :: HoldsRef(m, k, i) &&
        answer == if m[k].intent.Canonical() == i.Canonical()
                  then Put(m, Ok((PublicationEffectRecord(m[k].intent, None), false)))
                  else Put(m, Err(IdempotencyConflict))
    else if !SqlEffectAllowed(publications, approvals, i) then answer == Put(m, Err(IdempotencyConflict))
    else
      answer == Put(m[i.effectId := PublicationEffectRecord(i, None)], Ok((PublicationEffectRecord(i, None), true)))
  }

  // The replay through the ref cannot happen: equal canonical intents have equal effect ids.
  lemma RequestsAgree(db: Db, i: PublicationEffectIntent, answer: Put<Effects, (PublicationEffectRecord, bool)>)
    requires PublicationsOk(db.artifacts, db.sessions, db.results, db.publications)
    requires EffectsOk(db.publications, db.approvals, db.effects) && i.Accepted()
    requires SqlRequests(db.effects, db.publications, db.approvals, i, answer)
    ensures Agree(answer, EffectRequest(db.effects, db.publications, db.approvals, i))
  {
    hide HasApproval, RefTaken, PublicationsOk, EffectsOk, EffectAllowed, SqlEffectAllowed;
    var m := db.effects;
    EffectAllowedAgrees(db.publications, db.approvals, db.artifacts, db.sessions, db.results, i);
    if i.effectId !in m {
      RefTakenHolds(m, i);
      if exists k :: HoldsRef(m, k, i) {
        var k :| HoldsRef(m, k, i) &&
          answer == if m[k].intent.Canonical() == i.Canonical()
                    then Put(m, Ok((PublicationEffectRecord(m[k].intent, None), false)))
                    else Put(m, Err(IdempotencyConflict));
        if m[k].intent.Canonical() == i.Canonical() { ReplayIsSameId(db.publications, db.approvals, m, k, i); }
      }
    }
  }

  lemma ReplayIsSameId(ps: Publications, d: Approvals, m: Effects, k: Text, i: PublicationEffectIntent)
    requires EffectsOk(ps, d, m) && i.Accepted() && k in m && m[k].intent.Canonical() == i.Canonical()
    ensures i.effectId in m
  {
    assert EffectOk(ps, d, m[k]);
    EffectsDetermined(m[k].intent, i);
  }

  lemma RefTakenHolds(m: Effects, i: PublicationEffectIntent)
    ensures RefTaken(m, i.publicationId, i.deterministicRef) <==> exists k :: HoldsRef(m, k, i)
  {
    if RefTaken(m, i.publicationId, i.deterministicRef) {
      var k :| k in m && m[k].intent.publicationId == i.publicationId
               && m[k].intent.deterministicRef == i.deterministicRef;
      assert HoldsRef(m, k, i);
    }
  }

  lemma EffectAllowedAgrees(ps: Publications, d: Approvals, a: Artifacts, s: Sessions, r: Results,
                            i: PublicationEffectIntent)
    requires PublicationsOk(a, s, r, ps)
    ensures SqlEffectAllowed(ps, d, i) <==> EffectAllowed(ps, d, i)
  {
    hide HasApproval;
    if i.publicationId in ps { assert PublicationOk(a, s, r, i.publicationId, ps[i.publicationId]); }
  }

  /******* Receipts *******/

  function SqlReconcile(m: Effects, publications: Publications, c: PublicationReceipt)
        : Put<Effects, PublicationEffectRecord>
  {
    if c.state != RECONCILED then Put(m, Err(IdempotencyConflict))
    else if c.effectId !in m then Put(m, Err(Validation))
    else
      var current := m[c.effectId];
      if current.intent.publicationId != c.publicationId then Put(m, Err(IdempotencyConflict))
      else if c.publicationId !in publications || publications[c.publicationId].preparedHead.None?
              || c.pullRequest.None?
              || !PullMatches(publications[c.publicationId], c.pullRequest.value)
              || current.intent.headSha != publications[c.publicationId].preparedHead.value.headSha
      then Put(m, Err(IdempotencyConflict))
      else if current.receipt.Some? then
        if current.receipt.value.Canonical() != c.Canonical()
        then Put(m, Err(IdempotencyConflict)) else Put(m, Ok(current))
      else
        Put(m[c.effectId := PublicationEffectRecord(current.intent, Some(c))],
            Ok(PublicationEffectRecord(current.intent, Some(c))))
  }

  // The extra head check of the SQL adapter never rejects anything.
  lemma ReceiptsAgree(db: Db, c: PublicationReceipt)
    requires EffectsOk(db.publications, db.approvals, db.effects)
    ensures Agree(SqlReconcile(db.effects, db.publications, c), EffectReconcile(db.effects, db.publications, c))
  {
    hide HasApproval;
    if c.effectId in db.effects { assert EffectOk(db.publications, db.approvals, db.effects[c.effectId]); }
  }
}

// What every run of store operations keeps: records are write-once, and the records
// of different ledgers support one another.

module LedgerInvariants {
  import opened Json
  import opened Domain
  import opened Records
  import opened Ledgers
  import opened Database
  import Queue

  /******* Growth: what no operation ever undoes *******/

  ghost predicate SubMap<K, V>(m: map<K, V>, n: map<K, V>) {
    forall k | k in m :: k in n && n[k] == m[k]
  }

  ghost predicate TasksGrow(m: Tasks, n: Tasks) {
    forall k | k in m :: k in n && m[k].version <= n[k].version
  }

  ghost predicate HistoriesGrow(m: Events, n: Events) {
    forall k | k in m :: k in n && m[k] <= n[k]
  }

  ghost predicate SessionsGrow(m: Sessions, n: Sessions) {
    forall k | k in m :: k in n && n[k].request == m[k].request && (m[k].outcome.Some? ==> n[k] == m[k])
  }

  ghost predicate WorkspacesGrow(m: Workspaces, n: Workspaces) {
    forall k | k in m ::
      && k in n && n[k].request == m[k].request && n[k].readOnly == m[k].readOnly
      && n[k].repositoryName == m[k].repositoryName && (m[k].state == RELEASED ==> n[k].state == RELEASED)
  }

  // Intent, prepared head and verification are each written once.
  ghost predicate Later(p: PublicationRecord, q: PublicationRecord) {
    && q.intent == p.intent && p.version <= q.version
    && (p.preparedHead.Some? ==> q.preparedHead == p.preparedHead)
    && (p.verification.Some? ==> q == p)
  }

  ghost predicate PublicationsGrow(m: Publications, n: Publications) {
    forall k | k in m :: k in n && Later(m[k], n[k])
  }

  ghost predicate EffectsGrow(m: Effects, n: Effects) {
    forall k | k in m :: k in n && n[k].intent == m[k].intent && (m[k].receipt.Some? ==> n[k] == m[k])
  }

  ghost predicate Extends(db: Db, db': Db) {
    && TasksGrow(db.tasks, db'.tasks)
    && HistoriesGrow(db.events, db'.events)
    && SubMap(db.eventIds, db'.eventIds)
    && SubMap(db.intakes, db'.intakes)
    && SubMap(db.sources, db'.sources)
    && db.control <= db'.control
    && SubMap(db.artifacts, db'.artifacts)
    && SessionsGrow(db.sessions, db'.sessions)
    && SubMap(db.results, db'.results)
    && WorkspacesGrow(db.workspaces, db'.workspaces)
    && PublicationsGrow(db.publications, db'.publications)
    && SubMap(db.approvals, db'.approvals)
    && EffectsGrow(db.effects, db'.effects)
    && SubMap(db.observations, db'.observations)
  }

  lemma ExtendsSelf(db: Db)
    ensures Extends(db, db)
  {
  }

  lemma ExtendsTransitive(a: Db, b: Db, c: Db)
    requires Extends(a, b) && Extends(b, c)
    ensures Extends(a, c)
  {
  }

  /******* Consistency of single ledgers *******/

  ghost predicate TasksOk(m: Tasks) { forall k | k in m :: m[k].taskId == k }

  ghost predicate IntakesOk(m: Intakes) { forall k | k in m :: m[k].requestId == k }

  // One source for a trigger event.
  ghost predicate SourcesOk(m: Sources) {
    && (forall k | k in m :: m[k].sourceKey == k)
    && (forall j, k | j in m && k in m && m[j].triggerEventId == m[k].triggerEventId :: j == k)
  }

  ghost predicate ArtifactsOk(m: Artifacts) { forall k | k in m :: m[k].reference.digest == k }

  ghost predicate ResultsOk(m: Results) { forall k | k in m :: m[k].resultId == k }

  ghost predicate SessionOk(id: Text, s: RunnerSessionRecord) {
    && s.request.sessionId == id
    && (s.state == REQUESTED <==> s.outcome.None?)
    && (s.outcome.Some? ==> s.outcome.value.sessionId == id && s.outcome.value.state == s.state)
  }

  ghost predicate SessionsOk(m: Sessions) { forall k | k in m :: SessionOk(k, m[k]) }

  // One active workspace for a task and purpose.
  ghost predicate WorkspacesOk(m: Workspaces) {
    && (forall k | k in m :: m[k].request.allocationId == k)
    && (forall j, k | j in m && k in m && m[j].state == ACTIVE && m[k].state == ACTIVE
                      && m[j].request.taskId == m[k].request.taskId
                      && m[j].request.purpose == m[k].request.purpose :: j == k)
  }

  // Histories are numbered 1..n and hold only events of their own task.
  ghost predicate Numbered(taskId: Text, h: seq<Event>) {
    forall i | 0 <= i < |h| :: h[i].sequence == i + 1 && h[i].taskId == taskId
  }

  // The id index is exactly the union of the histories.
  ghost predicate EventsOk(events: Events, ids: EventIds) {
    && (forall t | t in events :: Numbered(t, events[t]))
    && (forall t, i | t in events && 0 <= i < |events[t]| ::
          events[t][i].eventId in ids && ids[events[t][i].eventId] == events[t][i])
    && (forall id | id in ids :: ids[id].eventId == id && Filed(events, ids[id]))
  }

  // The event stands in its task's history, at its sequence number.
  ghost predicate Filed(events: Events, e: Event) {
    && e.taskId in events
    && 1 <= e.sequence <= |events[e.taskId]|
    && events[e.taskId][e.sequence - 1] == e
  }

  /******* Consistency across ledgers *******/

  // (state, version) is RESERVED/0, PREPARED/1 or VERIFIED/2, with exactly the parts that belong to it.
  ghost predicate Shape(p: PublicationRecord) {
    match p.state
    case RESERVED => p.version == 0 && p.preparedHead.None? && p.verification.None?
    case PREPARED => p.version == 1 && p.preparedHead.Some? && p.verification.None?
    case VERIFIED => p.version == 2 && p.preparedHead.Some? && p.verification.Some?
    case _ => false
  }

  ghost predicate HeadOk(p: PublicationRecord) {
    && (p.preparedHead.Some? ==>
          && p.preparedHead.value.Accepted()
          && p.preparedHead.value.publicationId == p.intent.publicationId
          && p.preparedHead.value.patchDigest == p.intent.patchDigest
          && p.preparedHead.value.baseSha == p.intent.baseSha)
    && (p.verification.Some? ==>
          && p.verification.value.Accepted()
          && p.verification.value.publicationId == p.intent.publicationId
          && p.preparedHead.Some?
          && p.verification.value.headSha == p.preparedHead.value.headSha)
  }

  // The patch is catalogued as the output of a result of a successful implementer session.
  ghost predicate ImplementerOwns(artifacts: Artifacts, sessions: Sessions, results: Results,
                                  intent: PublicationIntent) {
    && intent.patchDigest in artifacts
    && artifacts[intent.patchDigest].reference.mediaType == TEXT_DIFF
    && artifacts[intent.patchDigest].sourceKind == OwnedBy(intent.workerResultId)
    && intent.workerResultId in results
    && results[intent.workerResultId].taskId == intent.taskId
    && results[intent.workerResultId].worker.role == IMPLEMENTER
    && SessionMatches(sessions, results[intent.workerResultId].sessionId, intent.taskId, IMPLEMENTER)
  }

  ghost predicate PublicationOk(artifacts: Artifacts, sessions: Sessions, results: Results, id: Text,
                                p: PublicationRecord) {
    && p.intent.publicationId == id && p.intent.Accepted() && Shape(p) && HeadOk(p)
    && ImplementerOwns(artifacts, sessions, results, p.intent)
  }

  ghost predicate PublicationsOk(artifacts: Artifacts, sessions: Sessions, results: Results, m: Publications) {
    forall k | k in m :: PublicationOk(artifacts, sessions, results, k, m[k])
  }

  // A decision is about a publication whose verification passed, at exactly its head,
  // by the successful patch-reviewer result it names.
  ghost predicate ApprovalOk(artifacts: Artifacts, sessions: Sessions, results: Results,
                             publications: Publications, d: PublicationReviewDecision) {
    && ApprovalReferences(publications, artifacts, sessions, results, d)
    && ExactHead(publications[d.publicationId], d)
    && ReviewerMatches(sessions, results, d)
  }

  ghost predicate ApprovalsOk(artifacts: Artifacts, sessions: Sessions, results: Results,
                              publications: Publications, m: Approvals) {
    forall k | k in m ::
      m[k].approvalId == k && m[k].Accepted() && ApprovalOk(artifacts, sessions, results, publications, m[k])
  }

  ghost predicate ReceiptOk(p: PublicationRecord, e: PublicationEffectRecord) {
    e.receipt.Some? ==>
      && p.preparedHead.Some?
      && e.receipt.value.Accepted()
      && e.receipt.value.effectId == e.intent.effectId
      && e.receipt.value.publicationId == e.intent.publicationId
      && e.receipt.value.state == RECONCILED
      && PullMatches(p, e.receipt.value.pullRequest.value)
  }

  // An effect is about an approved head of a publication whose verification passed.
  ghost predicate EffectOk(publications: Publications, approvals: Approvals, e: PublicationEffectRecord) {
    && e.intent.Accepted()
    && EffectAllowed(publications, approvals, e.intent)
    && ReceiptOk(publications[e.intent.publicationId], e)
  }

  // One effect for a publication.
  ghost predicate EffectsOk(publications: Publications, approvals: Approvals, m: Effects) {
    && (forall k | k in m :: m[k].intent.effectId == k && EffectOk(publications, approvals, m[k]))
    && (forall j, k | j in m && k in m && m[j].intent.publicationId == m[k].intent.publicationId :: j == k)
  }

  ghost predicate ObservationsOk(publications: Publications, m: Observations) {
    forall k | k in m ::
      && KeyOf(m[k]) == k && m[k].Accepted()
      && HeadIs(publications, k.publicationId, k.headSha)
  }

  ghost predicate Inv(db: Db) {
    && TasksOk(db.tasks)
    && EventsOk(db.events, db.eventIds)
    && Queue.QueueOk(db.queue)
    && IntakesOk(db.intakes)
    && SourcesOk(db.sources)
    && ArtifactsOk(db.artifacts)
    && SessionsOk(db.sessions)
    && ResultsOk(db.results)
    && WorkspacesOk(db.workspaces)
    && PublicationsOk(db.artifacts, db.sessions, db.results, db.publications)
    && ApprovalsOk(db.artifacts, db.sessions, db.results, db.publications, db.approvals)
    && EffectsOk(db.publications, db.approvals, db.effects)
    && ObservationsOk(db.publications, db.observations)
  }

  // A step that grows the ledgers and keeps them consistent.
  ghost predicate Good(db: Db, db': Db) {
    Extends(db, db') && Inv(db')
  }

  /******* Support persists as ledgers grow *******/

  lemma SessionPersists(m: Sessions, n: Sessions, id: Text, taskId: Text, role: Role)
    requires SessionsOk(m) && SessionsGrow(m, n) && SessionMatches(m, id, taskId, role)
    ensures SessionMatches(n, id, taskId, role)
  {
    assert SessionOk(id, m[id]);
  }

  lemma PublicationsSupported(a: Artifacts, a': Artifacts, s: Sessions, s': Sessions, r: Results, r': Results,
                              p: Publications)
    requires SessionsOk(s) && SubMap(a, a') && SessionsGrow(s, s') && SubMap(r, r')
    requires PublicationsOk(a, s, r, p)
    ensures PublicationsOk(a', s', r', p)
  {
    forall k | k in p ensures PublicationOk(a', s', r', k, p[k]) {
      assert PublicationOk(a, s, r, k, p[k]);
      SessionPersists(s, s', r[p[k].intent.workerResultId].sessionId, p[k].intent.taskId, IMPLEMENTER);
    }
  }

  lemma ApprovalsSupported(a: Artifacts, a': Artifacts, s: Sessions, s': Sessions, r: Results, r': Results,
                           p: Publications, p': Publications, d: Approvals)
    requires SessionsOk(s) && SubMap(a, a') && SessionsGrow(s, s') && SubMap(r, r') && PublicationsGrow(p, p')
    requires ApprovalsOk(a, s, r, p, d)
    ensures ApprovalsOk(a', s', r', p', d)
  {
    forall k | k in d ensures ApprovalOk(a', s', r', p', d[k]) {
      assert ApprovalOk(a, s, r, p, d[k]);
      SessionPersists(s, s', d[k].sessionId, d[k].taskId, PATCH_REVIEWER);
      assert Later(p[d[k].publicationId], p'[d[k].publicationId]);
    }
  }

  lemma HasApprovalPersists(d: Approvals, d': Approvals, pid: Text, head: Text)
    requires SubMap(d, d') && HasApproval(d, pid, head)
    ensures HasApproval(d', pid, head)
  {
    var k :| k in d && d[k].publicationId == pid && d[k].headSha == head && d[k].decision == APPROVED;
    assert k in d' && d'[k] == d[k];
  }

  lemma EffectsSupported(p: Publications, p': Publications, d: Approvals, d': Approvals, e: Effects)
    requires PublicationsGrow(p, p') && SubMap(d, d') && EffectsOk(p, d, e)
    ensures EffectsOk(p', d', e)
  {
    forall k | k in e ensures EffectOk(p', d', e[k]) {
      assert EffectOk(p, d, e[k]);
      assert Later(p[e[k].intent.publicationId], p'[e[k].intent.publicationId]);
      HasApprovalPersists(d, d', e[k].intent.publicationId, e[k].intent.headSha);
    }
  }

  lemma ObservationsSupported(p: Publications, p': Publications, o: Observations)
    requires PublicationsGrow(p, p') && ObservationsOk(p, o)
    ensures ObservationsOk(p', o)
  {
    forall k | k in o ensures k.publicationId in p' && Later(p[k.publicationId], p'[k.publicationId]) {}
  }

  /******* Writing one ledger *******/

  lemma TasksGrew(db: Db, m: Tasks)
    requires Inv(db) && TasksGrow(db.tasks, m) && TasksOk(m)
    ensures Good(db, db.(tasks := m))
  {
    ExtendsSelf(db);
  }

  lemma EventsGrew(db: Db, m: Events, ids: EventIds)
    requires Inv(db) && HistoriesGrow(db.events, m) && SubMap(db.eventIds, ids) && EventsOk(m, ids)
    ensures Good(db, db.(events := m, eventIds := ids))
  {
    ExtendsSelf(db);
  }

  lemma ControlsGrew(db: Db, queue: Queue.Rows, fuse: FuseState, control: seq<ControlEvent>)
    requires Inv(db) && Queue.QueueOk(queue) && db.control <= control
    ensures Good(db, db.(queue := queue, fuse := fuse, control := control))
  {
    ExtendsSelf(db);
  }

  lemma IntakesGrew(db: Db, i: Intakes, s: Sources)
    requires Inv(db) && SubMap(db.intakes, i) && SubMap(db.sources, s) && IntakesOk(i) && SourcesOk(s)
    ensures Good(db, db.(intakes := i, sources := s))
  {
    ExtendsSelf(db);
  }

  lemma WorkspacesGrew(db: Db, m: Workspaces)
    requires Inv(db) && WorkspacesGrow(db.workspaces, m) && WorkspacesOk(m)
    ensures Good(db, db.(workspaces := m))
  {
    ExtendsSelf(db);
  }

  // The source ledgers, with everything that rests on them.
  lemma SourcesGrew(db: Db, a: Artifacts, s: Sessions, r: Results)
    requires Inv(db) && SubMap(db.artifacts, a) && SessionsGrow(db.sessions, s) && SubMap(db.results, r)
    requires ArtifactsOk(a) && SessionsOk(s) && ResultsOk(r)
    ensures Good(db, db.(artifacts := a, sessions := s, results := r))
  {
    ExtendsSelf(db);
    PublicationsSupported(db.artifacts, a, db.sessions, s, db.results, r, db.publications);
    ApprovalsSupported(db.artifacts, a, db.sessions, s, db.results, r, db.publications, db.publications, db.approvals);
  }

  lemma PublicationsGrew(db: Db, p: Publications)
    requires Inv(db) && PublicationsGrow(db.publications, p)
    requires PublicationsOk(db.artifacts, db.sessions, db.results, p)
    ensures Good(db, db.(publications := p))
  {
    ExtendsSelf(db);
    ApprovalsSupported(db.artifacts, db.artifacts, db.sessions, db.sessions, db.results, db.results,
                       db.publications, p, db.approvals);
    EffectsSupported(db.publications, p, db.approvals, db.approvals, db.effects);
    ObservationsSupported(db.publications, p, db.observations);
  }

  lemma ApprovalsGrew(db: Db, d: Approvals)
    requires Inv(db) && SubMap(db.approvals, d)
    requires ApprovalsOk(db.artifacts, db.sessions, db.results, db.publications, d)
    ensures Good(db, db.(approvals := d))
  {
    ExtendsSelf(db);
    EffectsSupported(db.publications, db.publications, db.approvals, d, db.effects);
  }

  lemma EffectsGrew(db: Db, e: Effects)
    requires Inv(db) && EffectsGrow(db.effects, e) && EffectsOk(db.publications, db.approvals, e)
    ensures Good(db, db.(effects := e))
  {
    ExtendsSelf(db);
  }

  lemma ObservationsGrew(db: Db, o: Observations)
    requires Inv(db) && SubMap(db.observations, o) && ObservationsOk(db.publications, o)
    ensures Good(db, db.(observations := o))
  {
    ExtendsSelf(db);
  }

  /******* What each store writes *******/

  lemma TaskCreateWrites(m: Tasks, t: Task)
    requires TasksOk(m)
    ensures TasksGrow(m, TaskCreate(m, t).m) && TasksOk(TaskCreate(m, t).m)
  {
  }

  lemma TaskUpdateWrites(m: Tasks, t: Task, v: nat)
    requires TasksOk(m)
    ensures TasksGrow(m, TaskUpdate(m, t, v).m) && TasksOk(TaskUpdate(m, t, v).m)
  {
  }

  lemma EventFiled(events: Events, ids: EventIds, e: Event)
    requires EventsOk(events, ids) && e.eventId !in ids && e.sequence == |History(events, e.taskId)| + 1
    ensures EventsOk(events[e.taskId := History(events, e.taskId) + [e]], ids[e.eventId := e])
  {
    var n: Events := events[e.taskId := History(events, e.taskId) + [e]];
    var m: EventIds := ids[e.eventId := e];
    forall t, i | t in n && 0 <= i < |n[t]| ensures n[t][i].eventId in m && m[n[t][i].eventId] == n[t][i] {
      if t in events && i < |events[t]| { assert n[t][i] == events[t][i]; }
    }
    forall id | id in m ensures m[id].eventId == id && Filed(n, m[id]) {
      if id != e.eventId { assert Filed(events, ids[id]); }
    }
  }

  lemma EventTouched(events: Events, ids: EventIds, taskId: Text)
    requires EventsOk(events, ids)
    ensures EventsOk(events[taskId := History(events, taskId)], ids)
  {
    var n: Events := events[taskId := History(events, taskId)];
    forall id | id in ids ensures Filed(n, ids[id]) { assert Filed(events, ids[id]); }
  }

  lemma EventWrites(s: EventStore, e: Event, n: nat)
    requires EventsOk(s.events, s.ids)
    ensures var t := EventAppend(s, e, n).m;
            HistoriesGrow(s.events, t.events) && SubMap(s.ids, t.ids) && EventsOk(t.events, t.ids)
  {
    if e.eventId !in s.ids {
      EventTouched(s.events, s.ids, e.taskId);
      if |History(s.events, e.taskId)| == n && e.sequence == n + 1 { EventFiled(s.events, s.ids, e); }
    }
  }

  lemma IntakeWrites(m: Intakes, r: IntakeRecord)
    requires IntakesOk(m)
    ensures SubMap(m, IntakeCreate(m, r).m) && IntakesOk(IntakeCreate(m, r).m)
  {
  }

  lemma SourceWrites(m: Sources, r: IssueIngestionRecord)
    requires SourcesOk(m)
    ensures SubMap(m, SourceRecordOnce(m, r).m) && SourcesOk(SourceRecordOnce(m, r).m)
  {
  }

  lemma ArtifactWrites(m: Artifacts, a: CatalogedArtifact)
    requires ArtifactsOk(m)
    ensures SubMap(m, ArtifactRegister(m, a).m) && ArtifactsOk(ArtifactRegister(m, a).m)
  {
  }

  lemma SessionWrites(m: Sessions, r: RunnerSessionRequest)
    requires SessionsOk(m)
    ensures SessionsGrow(m, SessionRecordOnce(m, r).m) && SessionsOk(SessionRecordOnce(m, r).m)
  {
  }

  lemma OutcomeWrites(m: Sessions, o: RunnerSessionOutcome)
    requires SessionsOk(m) && o.Accepted()
    ensures SessionsGrow(m, SessionSetOutcome(m, o).m) && SessionsOk(SessionSetOutcome(m, o).m)
  {
    if o.sessionId in m { assert SessionOk(o.sessionId, m[o.sessionId]); }
  }

  lemma ResultWrites(m: Results, r: WorkerResult)
    requires ResultsOk(m)
    ensures SubMap(m, ResultRecordOnce(m, r).m) && ResultsOk(ResultRecordOnce(m, r).m)
  {
  }

  lemma WorkspaceWrites(m: Workspaces, w: WorkspaceRecord)
    requires WorkspacesOk(m)
    ensures WorkspacesGrow(m, WorkspaceRecordOnce(m, w).m) && WorkspacesOk(WorkspaceRecordOnce(m, w).m)
  {
  }

  lemma ReleaseWrites(m: Workspaces, id: Text)
    requires WorkspacesOk(m)
    ensures WorkspacesGrow(m, WorkspaceRelease(m, id).m) && WorkspacesOk(WorkspaceRelease(m, id).m)
  {
  }

  lemma ReserveWrites(m: Publications, t: Tasks, e: Events, a: Artifacts, r: Results, s: Sessions, i: PublicationIntent)
    requires PublicationsOk(a, s, r, m) && i.Accepted()
    ensures var n := PublicationReserve(m, t, e, a, r, s, i).m;
            PublicationsGrow(m, n) && PublicationsOk(a, s, r, n)
  {
    var n := PublicationReserve(m, t, e, a, r, s, i).m;
    if i.publicationId !in m && i.publicationId in n {
      assert PublicationOk(a, s, r, i.publicationId, n[i.publicationId]);
    }
  }

  lemma PublicationReplaced(a: Artifacts, s: Sessions, r: Results, m: Publications, id: Text, q: PublicationRecord)
    requires PublicationsOk(a, s, r, m) && id in m && PublicationOk(a, s, r, id, q) && Later(m[id], q)
    ensures PublicationsGrow(m, m[id := q]) && PublicationsOk(a, s, r, m[id := q])
  {
    hide PublicationOk;
  }

  lemma PublicationsStand(m: Publications)
    ensures PublicationsGrow(m, m)
  {
  }

  lemma PrepareWrites(a: Artifacts, s: Sessions, r: Results, m: Publications, p: PreparedHead, v: nat)
    requires PublicationsOk(a, s, r, m) && p.Accepted()
    ensures var n := RecordPrepared(m, p, v).m; PublicationsGrow(m, n) && PublicationsOk(a, s, r, n)
  {
    var id := p.publicationId;
    PublicationsStand(m);
    if id in m && RecordPrepared(m, p, v).out.Ok? {
      hide PublicationsOk, PublicationsGrow;
      PublicationFound(a, s, r, m, id);
      PublicationReplaced(a, s, r, m, id, RecordPrepared(m, p, v).out.value);
    }
  }

  lemma PublicationFound(a: Artifacts, s: Sessions, r: Results, m: Publications, id: Text)
    requires PublicationsOk(a, s, r, m) && id in m
    ensures PublicationOk(a, s, r, id, m[id])
  {
  }

  lemma VerifyWrites(a: Artifacts, s: Sessions, r: Results, m: Publications, w: VerificationResult, v: nat)
    requires PublicationsOk(a, s, r, m) && w.Accepted()
    ensures var n := RecordVerification(m, w, v).m; PublicationsGrow(m, n) && PublicationsOk(a, s, r, n)
  {
    var id := w.publicationId;
    PublicationsStand(m);
    if id in m && RecordVerification(m, w, v).out.Ok? {
      hide PublicationsOk, PublicationsGrow;
      PublicationFound(a, s, r, m, id);
      PublicationReplaced(a, s, r, m, id, RecordVerification(m, w, v).out.value);
    }
  }

  lemma ApprovalWrites(m: Approvals, p: Publications, a: Artifacts, s: Sessions, r: Results,
                       d: PublicationReviewDecision)
    requires ApprovalsOk(a, s, r, p, m) && d.Accepted()
    ensures var n := ApprovalAppend(m, p, a, s, r, d).m; SubMap(m, n) && ApprovalsOk(a, s, r, p, n)
  {
    hide PublicationReviewDecision.Accepted, PublicationReviewDecision.Canonical;
  }

  // A second effect for a publication would carry the prepared ref, which is taken.
  lemma NoOtherEffect(m: Effects, p: Publications, d: Approvals, e: PublicationEffectIntent)
    requires EffectsOk(p, d, m) && EffectAllowed(p, d, e) && !RefTaken(m, e.publicationId, e.deterministicRef)
    ensures forall k | k in m :: m[k].intent.publicationId != e.publicationId
  {
    forall k | k in m ensures m[k].intent.publicationId != e.publicationId {
      assert EffectOk(p, d, m[k]);
    }
  }

  lemma EffectFiled(m: Effects, p: Publications, d: Approvals, e: PublicationEffectIntent)
    requires EffectsOk(p, d, m) && e.effectId !in m
    requires EffectOk(p, d, PublicationEffectRecord(e, None))
    requires forall k | k in m :: m[k].intent.publicationId != e.publicationId
    ensures EffectsOk(p, d, m[e.effectId := PublicationEffectRecord(e, None)])
  {
  }

  lemma NewEffectOk(p: Publications, d: Approvals, e: PublicationEffectIntent)
    requires e.Accepted() && EffectAllowed(p, d, e)
    ensures EffectOk(p, d, PublicationEffectRecord(e, None))
  {
    hide HasApproval;
  }

  lemma RequestWrites(m: Effects, p: Publications, d: Approvals, e: PublicationEffectIntent)
    requires EffectsOk(p, d, m) && e.Accepted()
    ensures var n := EffectRequest(m, p, d, e).m; EffectsGrow(m, n) && EffectsOk(p, d, n)
  {
    hide EffectsOk, EffectOk, EffectAllowed, RefTaken;
    if e.effectId !in m && EffectAllowed(p, d, e) && !RefTaken(m, e.publicationId, e.deterministicRef) {
      NewEffectOk(p, d, e);
      NoOtherEffect(m, p, d, e);
      EffectFiled(m, p, d, e);
    }
  }

  lemma EffectReplaced(m: Effects, p: Publications, d: Approvals, id: Text, e: PublicationEffectRecord)
    requires EffectsOk(p, d, m) && id in m && m[id].receipt.None? && e.intent == m[id].intent && EffectOk(p, d, e)
    ensures EffectsOk(p, d, m[id := e]) && EffectsGrow(m, m[id := e])
  {
    hide EffectOk;
  }

  lemma ReceiptedEffect(m: Effects, p: Publications, d: Approvals, r: PublicationReceipt)
    requires r.Accepted() && r.effectId in m && m[r.effectId].intent.effectId == r.effectId
    requires EffectOk(p, d, m[r.effectId])
    requires EffectReconcile(m, p, r).m != m
    ensures var e := PublicationEffectRecord(m[r.effectId].intent, Some(r));
            m[r.effectId].receipt.None? && EffectReconcile(m, p, r).m == m[r.effectId := e] && EffectOk(p, d, e)
  {
    hide HasApproval;
  }

  lemma ReconcileWrites(m: Effects, p: Publications, d: Approvals, r: PublicationReceipt)
    requires EffectsOk(p, d, m) && r.Accepted()
    ensures var n := EffectReconcile(m, p, r).m; EffectsGrow(m, n) && EffectsOk(p, d, n)
  {
    if EffectReconcile(m, p, r).m != m {
      hide EffectOk;
      assert r.effectId in m && EffectOk(p, d, m[r.effectId]);
      ReceiptedEffect(m, p, d, r);
      EffectReplaced(m, p, d, r.effectId, PublicationEffectRecord(m[r.effectId].intent, Some(r)));
    }
  }

  lemma ObservationWrites(m: Observations, p: Publications, o: CheckRunObservation)
    requires ObservationsOk(p, m) && o.Accepted()
    ensures SubMap(m, ObservationAppend(m, p, o).m) && ObservationsOk(p, ObservationAppend(m, p, o).m)
  {
    hide CheckRunObservation.Accepted, CheckRunObservation.Canonical;
  }

  /******* Every operation *******/

  lemma QueueStep(db: Db, c: Queue.Command)
    requires Inv(db)
    ensures Good(db, db.(queue := Queue.Execute(db.queue, c).0))
  {
    Queue.ExecuteKeeps(db.queue, c);
    ControlsGrew(db, Queue.Execute(db.queue, c).0, db.fuse, db.control);
  }

  datatype Family = TaskFamily | WorkspaceFamily | ControlFamily | SourceFamily | HeadFamily | EffectFamily

  function FamilyOf(op: StoreOp): Family {
    match op
    case CreateTask(_) => TaskFamily
    case UpdateTask(_, _) => TaskFamily
    case AppendEvent(_, _) => TaskFamily
    case RecordWorkspace(_) => WorkspaceFamily
    case ReleaseWorkspace(_) => WorkspaceFamily
    case RegisterArtifact(_) => SourceFamily
    case RecordSession(_) => SourceFamily
    case SetOutcome(_) => SourceFamily
    case RecordResult(_) => SourceFamily
    case Reserve(_) => HeadFamily
    case Prepare(_, _) => HeadFamily
    case Verify(_, _) => HeadFamily
    case AppendApproval(_) => EffectFamily
    case RequestEffect(_) => EffectFamily
    case ReconcileEffect(_) => EffectFamily
    case AppendObservation(_) => EffectFamily
    case _ => ControlFamily
  }

  lemma TaskStep(db: Db, op: StoreOp)
    requires Inv(db) && FamilyOf(op) == TaskFamily
    ensures Good(db, Apply(db, op))
  {
    match op
    case CreateTask(t) =>
      TaskCreateWrites(db.tasks, t);
      TasksGrew(db, TaskCreate(db.tasks, t).m);
    case UpdateTask(t, v) =>
      TaskUpdateWrites(db.tasks, t, v);
      TasksGrew(db, TaskUpdate(db.tasks, t, v).m);
    case AppendEvent(e, n) =>
      var s := EventStore(db.events, db.eventIds);
      EventWrites(s, e, n);
      EventsGrew(db, EventAppend(s, e, n).m.events, EventAppend(s, e, n).m.ids);
  }

  lemma WorkspaceStep(db: Db, op: StoreOp)
    requires Inv(db) && FamilyOf(op) == WorkspaceFamily
    ensures Good(db, Apply(db, op))
  {
    match op
    case RecordWorkspace(w) =>
      WorkspaceWrites(db.workspaces, w);
      WorkspacesGrew(db, WorkspaceRecordOnce(db.workspaces, w).m);
    case ReleaseWorkspace(id) =>
      ReleaseWrites(db.workspaces, id);
      WorkspacesGrew(db, WorkspaceRelease(db.workspaces, id).m);
  }

  lemma ControlStep(db: Db, op: StoreOp)
    requires Inv(db) && FamilyOf(op) == ControlFamily
    ensures Good(db, Apply(db, op))
  {
    match op
    case UseQueue(c) => QueueStep(db, c);
    case SetFuse(f) => ControlsGrew(db, db.queue, f, db.control);
    case AppendControl(e) => ControlsGrew(db, db.queue, db.fuse, db.control + [e]);
    case CreateIntake(r) =>
      IntakeWrites(db.intakes, r);
      IntakesGrew(db, IntakeCreate(db.intakes, r).m, db.sources);
    case RecordSource(r) =>
      SourceWrites(db.sources, r);
      IntakesGrew(db, db.intakes, SourceRecordOnce(db.sources, r).m);
  }

  lemma SourceStep(db: Db, op: StoreOp)
    requires Inv(db) && Constructible(op) && FamilyOf(op) == SourceFamily
    ensures Good(db, Apply(db, op))
  {
    ExtendsSelf(db);
    match op
    case RegisterArtifact(a) =>
      ArtifactWrites(db.artifacts, a);
      SourcesGrew(db, ArtifactRegister(db.artifacts, a).m, db.sessions, db.results);
    case RecordSession(r) =>
      SessionWrites(db.sessions, r);
      SourcesGrew(db, db.artifacts, SessionRecordOnce(db.sessions, r).m, db.results);
    case SetOutcome(o) =>
      OutcomeWrites(db.sessions, o);
      SourcesGrew(db, db.artifacts, SessionSetOutcome(db.sessions, o).m, db.results);
    case RecordResult(r) =>
      ResultWrites(db.results, r);
      SourcesGrew(db, db.artifacts, db.sessions, ResultRecordOnce(db.results, r).m);
  }

  lemma HeadStep(db: Db, op: StoreOp)
    requires Inv(db) && Constructible(op) && FamilyOf(op) == HeadFamily
    ensures Good(db, Apply(db, op))
  {
    var a, s, r, p := db.artifacts, db.sessions, db.results, db.publications;
    match op
    case Reserve(i) =>
      ReserveWrites(p, db.tasks, db.events, a, r, s, i);
      PublicationsGrew(db, PublicationReserve(p, db.tasks, db.events, a, r, s, i).m);
    case Prepare(h, v) =>
      PrepareWrites(a, s, r, p, h, v);
      PublicationsGrew(db, RecordPrepared(p, h, v).m);
    case Verify(w, v) =>
      VerifyWrites(a, s, r, p, w, v);
      PublicationsGrew(db, RecordVerification(p, w, v).m);
  }

  lemma EffectStep(db: Db, op: StoreOp)
    requires Inv(db) && Constructible(op) && FamilyOf(op) == EffectFamily
    ensures Good(db, Apply(db, op))
  {
    var p := db.publications;
    match op
    case AppendApproval(d) =>
      ApprovalWrites(db.approvals, p, db.artifacts, db.sessions, db.results, d);
      ApprovalsGrew(db, ApprovalAppend(db.approvals, p, db.artifacts, db.sessions, db.results, d).m);
    case RequestEffect(e) =>
      RequestWrites(db.effects, p, db.approvals, e);
      EffectsGrew(db, EffectRequest(db.effects, p, db.approvals, e).m);
    case ReconcileEffect(c) =>
      ReconcileWrites(db.effects, p, db.approvals, c);
      EffectsGrew(db, EffectReconcile(db.effects, p, c).m);
    case AppendObservation(o) =>
      ObservationWrites(db.observations, p, o);
      ObservationsGrew(db, ObservationAppend(db.observations, p, o).m);
  }

  lemma ApplyGood(db: Db, op: StoreOp)
    requires Inv(db) && Constructible(op)
    ensures Good(db, Apply(db, op))
  {
    match FamilyOf(op)
    case TaskFamily => TaskStep(db, op);
    case WorkspaceFamily => WorkspaceStep(db, op);
    case ControlFamily => ControlStep(db, op);
    case SourceFamily => SourceStep(db, op);
    case HeadFamily => HeadStep(db, op);
    case EffectFamily => EffectStep(db, op);
  }

  lemma EmptyInv()
    ensures Inv(EMPTY)
  {
  }

  // Every run of store operations, successful or not, grows the ledgers and keeps
  // them consistent.
  lemma {:induction false} RunGood(db: Db, ops: seq<StoreOp>)
    requires Inv(db) && AllConstructible(ops)
    ensures Good(db, Run(db, ops))
  {
    ExtendsSelf(db);
    if ops != [] {
      var n := |ops| - 1;
      RunGood(db, ops[..n]);
      assert Constructible(ops[n]);
      ApplyGood(Run(db, ops[..n]), ops[n]);
      ExtendsTransitive(db, Run(db, ops[..n]), Run(db, ops));
    }
  }
}

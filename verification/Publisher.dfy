// Any number of publish calls, interleaved request by request with one another, with
// other transactions, with moves of the base branches and with crashes.

module Publisher {
  import opened Json
  import opened Domain
  import opened Records
  import opened CanonicalForms
  import opened Ledgers
  import opened Database
  import opened LedgerInvariants
  import opened Publication
  import opened ServiceSteps
  import opened GitHub

  datatype Reason = NotBegun | Crashed | RemoteRefused | Rejected(why: SettleError)

  datatype State =
    | Remoting(effectId: Text, job: Job, local: Local, point: Point)
    | Settling(effectId: Text, job: Job, receipt: PublicationReceipt)
    | Returned(effectId: Text, receipt: PublicationReceipt)
    | Failed(reason: Reason)

  datatype System = System(db: Db, remote: Remote, publishers: map<nat, State>)

  datatype Action =
    | BeginPublish(pid: nat, publicationId: Text, effectId: Text, local: Local)
    | RemoteStep(pid: nat, number: int)
    | SettleStep(pid: nat)
    | Crash(pid: nat)
    | Transact(op: StoreOp)
    | MoveBase(repository: Text, sha: Text)

  // The first transaction.
  function AfterBegin(c: Config, db: Db, publicationId: Text, effectId: Text, local: Local): (Db, State) {
    var b := Begin(db, publicationId, effectId);
    match b.out
    case Err(_) => (db, Failed(NotBegun))
    case Ok(Finished(receipt)) => (db, Returned(effectId, receipt))
    case Ok(Proceed(job)) => (b.db, Remoting(effectId, job, local, StartPoint(c, local, job)))
  }

  // One request, or the validation of the receipt the requests ended with.
  function AfterRequest(c: Config, r: Remote, effectId: Text, job: Job, local: Local, p: Point, number: int)
        : (Remote, State)
  {
    match p
    case Stopped => (r, Failed(RemoteRefused))
    case Done(receipt) =>
      (r, if ReceiptMatches(receipt, job.prepared, job.effect) then Settling(effectId, job, receipt)
      else Failed(RemoteRefused))
    case _ =>
      if job.intent.repositoryName !in c.baseBranches then (r, Failed(RemoteRefused))
      else
        var next := Request(c, local, job, r, p, number);
        (next.0, Remoting(effectId, job, local, next.1))
  }

  // The second transaction.
  function AfterSettle(db: Db, effectId: Text, job: Job, receipt: PublicationReceipt): (Db, State) {
    var s := SettleReceipt(db, effectId, job, receipt);
    match s.1
    case Settled(stored) => (s.0, Returned(effectId, stored))
    case Rejected(why) => (db, Failed(Reason.Rejected(why)))
  }

  function Act(c: Config, s: System, a: Action): System {
    match a
    case BeginPublish(pid, id, effectId, local) =>
      if pid in s.publishers then s
      else
        var b := AfterBegin(c, s.db, id, effectId, local);
        System(b.0, s.remote, s.publishers[pid := b.1])
    case RemoteStep(pid, number) =>
      if pid !in s.publishers || !s.publishers[pid].Remoting? then s
      else
        var p := s.publishers[pid];
        var n := AfterRequest(c, s.remote, p.effectId, p.job, p.local, p.point, number);
        System(s.db, n.0, s.publishers[pid := n.1])
    case SettleStep(pid) =>
      if pid !in s.publishers || !s.publishers[pid].Settling? then s
      else
        var p := s.publishers[pid];
        var n := AfterSettle(s.db, p.effectId, p.job, p.receipt);
        System(n.0, s.remote, s.publishers[pid := n.1])
    case Crash(pid) =>
      if pid !in s.publishers || s.publishers[pid].Returned? || s.publishers[pid].Failed? then s
      else s.(publishers := s.publishers[pid := Failed(Crashed)])
    case Transact(op) => s.(db := Apply(s.db, op))
    case MoveBase(repository, sha) => s.(remote := s.remote.(tips := s.remote.tips[repository := sha]))
  }

  function RunActions(c: Config, s: System, acts: seq<Action>): System {
    if acts == [] then s else Act(c, RunActions(c, s, acts[..|acts| - 1]), acts[|acts| - 1])
  }

  ghost predicate Plausible(a: Action) {
    && (a.Transact? ==> Constructible(a.op))
    && (a.RemoteStep? ==> a.number > 0)
  }

  ghost predicate AllPlausible(acts: seq<Action>) { forall i | 0 <= i < |acts| :: Plausible(acts[i]) }

  // A remote nobody has published to.
  ghost predicate Untouched(r: Remote) { r.refs == map[] && r.pulls == [] }

  /******* Invariant *******/

  lemma LitConcat(a: string, b: string)
    ensures Lit(a) + Lit(b) == Lit(a + b)
  {
  }

  lemma BranchRef(id: Text)
    ensures HEADS + Branch(id) == PublicationRef(id)
  {
    LitConcat("refs/heads/", "meta-loop/");
    assert HEADS + (Lit("meta-loop/") + id) == (HEADS + Lit("meta-loop/")) + id;
  }

  lemma RefDeterminesId(i: Text, j: Text)
    requires PublicationRef(i) == PublicationRef(j)
    ensures i == j
  {
    var p := Lit("refs/heads/meta-loop/");
    assert (p + i)[|p|..] == i && (p + j)[|p|..] == j;
  }

  // The publication, its prepared head and the durable effect the job was built from.
  ghost predicate JobOk(db: Db, effectId: Text, j: Job) {
    && effectId in db.effects && db.effects[effectId].intent == j.effect && j.effect.effectId == effectId
    && j.effect.publicationId == j.intent.publicationId
    && j.intent.publicationId in db.publications
    && db.publications[j.intent.publicationId].intent == j.intent
    && db.publications[j.intent.publicationId].preparedHead == Some(j.prepared)
  }

  ghost predicate RefExact(r: Remote, j: Job) { RefKey(j) in r.refs && r.refs[RefKey(j)] == j.prepared.headSha }

  // A pull request with this number stands on the job's branch.
  ghost predicate Backed(r: Remote, repository: Text, publicationId: Text, number: int) {
    exists i | 0 <= i < |r.pulls| ::
      r.pulls[i].repository == repository && r.pulls[i].headRef == Branch(publicationId) && r.pulls[i].number == number
  }

  ghost predicate ReceiptBacked(r: Remote, j: Job, receipt: PublicationReceipt) {
    && receipt.pullRequest.Some?
    && receipt == Receipt(j, receipt.pullRequest.value.number)
    && receipt.pullRequest.value.number > 0
    && Backed(r, j.intent.repositoryName, j.intent.publicationId, receipt.pullRequest.value.number)
  }

  ghost predicate PointOk(c: Config, r: Remote, j: Job, p: Point) {
    && (!p.Stopped? ==> Bound(c, j))
    && (p.AtPostRef? ==> CommitExact(r, j))
    && (p.AtKnownCommit? || p.AtPulls? || p.AtPostPull? ==> RefExact(r, j))
    && (p.Done? ==> ReceiptBacked(r, j, p.receipt))
  }

  ghost predicate StateOk(c: Config, db: Db, r: Remote, s: State) {
    match s
    case Remoting(effectId, job, _, point) => JobOk(db, effectId, job) && PointOk(c, r, job, point)
    case Settling(effectId, job, receipt) => JobOk(db, effectId, job) && ReceiptBacked(r, job, receipt) && Bound(c, job)
    case Returned(effectId, receipt) => effectId in db.effects && db.effects[effectId].receipt == Some(receipt)
    case Failed(reason) => reason != Reason.Rejected(Drifted)
  }

  // The ref is a publication's own, at its prepared head, whose commit has the prepared tree.
  ghost predicate RefOf(db: Db, r: Remote, k: Key, id: Text) {
    && id in db.publications
    && db.publications[id].preparedHead.Some?
    && var h := db.publications[id].preparedHead.value;
    && k == Key(db.publications[id].intent.repositoryName, PublicationRef(id))
    && k in r.refs && r.refs[k] == h.headSha
    && Key(k.repository, h.headSha) in r.commits && r.commits[Key(k.repository, h.headSha)] == h.treeSha
  }

  ghost predicate RefsOk(db: Db, r: Remote) {
    forall k | k in r.refs :: exists id :: RefOf(db, r, k, id)
  }

  function HeadKey(p: Pull): Key { Key(p.repository, HEADS + p.headRef) }

  // Each pull request shows the ref its branch has, and there is one for a branch.
  ghost predicate PullsOk(c: Config, r: Remote) {
    && (forall i | 0 <= i < |r.pulls| ::
          && HeadKey(r.pulls[i]) in r.refs && r.refs[HeadKey(r.pulls[i])] == r.pulls[i].headSha
          && r.pulls[i].repository in c.baseBranches && r.pulls[i].baseRef == c.baseBranches[r.pulls[i].repository]
          && r.pulls[i].number > 0)
    && (forall i, k | 0 <= i < |r.pulls| && 0 <= k < |r.pulls|
                      && r.pulls[i].repository == r.pulls[k].repository && r.pulls[i].headRef == r.pulls[k].headRef ::
                            i == k)
  }

  ghost predicate StatesOk(c: Config, db: Db, r: Remote, ps: map<nat, State>) {
    forall pid | pid in ps :: StateOk(c, db, r, ps[pid])
  }

  ghost predicate SystemOk(c: Config, s: System) {
    Inv(s.db) && RefsOk(s.db, s.remote) && PullsOk(c, s.remote) && StatesOk(c, s.db, s.remote, s.publishers)
  }

  /******* Growth keeps everything *******/

  // RemoteGrows, with the base branches free to move.
  ghost predicate Remains(r: Remote, s: Remote) { RemoteGrows(r, s.(tips := r.tips)) }

  lemma JobStays(db: Db, db': Db, effectId: Text, j: Job)
    requires JobOk(db, effectId, j) && PublicationsGrow(db.publications, db'.publications)
    requires EffectsGrow(db.effects, db'.effects)
    ensures JobOk(db', effectId, j)
  {
    assert Later(db.publications[j.intent.publicationId], db'.publications[j.intent.publicationId]);
  }

  lemma BackedStays(r: Remote, s: Remote, repository: Text, id: Text, number: int)
    requires Remains(r, s) && Backed(r, repository, id, number)
    ensures Backed(s, repository, id, number)
  {
    var i :| 0 <= i < |r.pulls| && r.pulls[i].repository == repository && r.pulls[i].headRef == Branch(id)
             && r.pulls[i].number == number;
    assert s.pulls[i] == r.pulls[i];
  }

  lemma PointStays(c: Config, r: Remote, s: Remote, j: Job, p: Point)
    requires PointOk(c, r, j, p) && Remains(r, s)
    ensures PointOk(c, s, j, p)
  {
    hide Backed;
    if p.Done? {
      BackedStays(r, s, j.intent.repositoryName, j.intent.publicationId, p.receipt.pullRequest.value.number);
    }
  }

  lemma StateStays(c: Config, db: Db, db': Db, r: Remote, s: Remote, p: State)
    requires StateOk(c, db, r, p) && Remains(r, s)
    requires PublicationsGrow(db.publications, db'.publications) && EffectsGrow(db.effects, db'.effects)
    ensures StateOk(c, db', s, p)
  {
    hide PointOk, JobOk, Backed, Bound;
    match p
    case Remoting(effectId, job, _, point) =>
      JobStays(db, db', effectId, job);
      PointStays(c, r, s, job, point);
    case Settling(effectId, job, receipt) =>
      JobStays(db, db', effectId, job);
      BackedStays(r, s, job.intent.repositoryName, job.intent.publicationId, receipt.pullRequest.value.number);
    case Returned(_, _) =>
    case Failed(_) =>
  }

  lemma StatesStay(c: Config, db: Db, db': Db, r: Remote, s: Remote, ps: map<nat, State>)
    requires StatesOk(c, db, r, ps) && Remains(r, s)
    requires PublicationsGrow(db.publications, db'.publications) && EffectsGrow(db.effects, db'.effects)
    ensures StatesOk(c, db', s, ps)
  {
    hide StateOk, Remains;
    forall pid | pid in ps ensures StateOk(c, db', s, ps[pid]) { StateStays(c, db, db', r, s, ps[pid]); }
  }

  lemma RefStays(db: Db, db': Db, r: Remote, s: Remote, k: Key, id: Text)
    requires RefOf(db, r, k, id) && Remains(r, s) && PublicationsGrow(db.publications, db'.publications)
    ensures RefOf(db', s, k, id)
  {
    assert Later(db.publications[id], db'.publications[id]);
  }

  lemma RefsStay(db: Db, db': Db, r: Remote, s: Remote)
    requires RefsOk(db, r) && Remains(r, s) && s.refs == r.refs && PublicationsGrow(db.publications, db'.publications)
    ensures RefsOk(db', s)
  {
    hide RefOf, Remains;
    forall k | k in s.refs ensures exists id :: RefOf(db', s, k, id) {
      var id :| RefOf(db, r, k, id);
      RefStays(db, db', r, s, k, id);
    }
  }

  /******* Transactions *******/

  lemma TransactionOk(c: Config, s: System, db': Db)
    requires SystemOk(c, s) && Good(s.db, db')
    ensures SystemOk(c, s.(db := db'))
  {
    hide Inv, StateOk, RefOf, PullsOk;
    StatesStay(c, s.db, db', s.remote, s.remote, s.publishers);
    RefsStay(s.db, db', s.remote, s.remote);
  }

  lemma StateAdded(c: Config, s: System, pid: nat, p: State)
    requires SystemOk(c, s) && StateOk(c, s.db, s.remote, p)
    ensures SystemOk(c, s.(publishers := s.publishers[pid := p]))
  {
    hide Inv, StateOk, RefsOk, PullsOk;
  }

  lemma BegunOk(c: Config, db: Db, r: Remote, id: Text, effectId: Text, local: Local)
    requires Inv(db)
    ensures var b := AfterBegin(c, db, id, effectId, local);
            Good(db, b.0) && StateOk(c, b.0, r, b.1)
  {
    hide Inv, Extends, Begin;
    GoodSelf(db);
    BeginGood(db, id, effectId);
    var b := Begin(db, id, effectId);
    if b.out.Ok? {
      BeginShape(db, id, effectId);
    }
  }

  // What the first transaction hands on.
  lemma BeginShape(db: Db, id: Text, effectId: Text)
    requires Inv(db) && Begin(db, id, effectId).out.Ok?
    ensures var b := Begin(db, id, effectId);
            match b.out.value
            case Finished(receipt) => effectId in db.effects && db.effects[effectId].receipt == Some(receipt)
            case Proceed(job) => JobOk(b.db, effectId, job)
  {
    hide Inv, ExactlyApproved, EffectAllowed, RefTaken, TaskReady;
    var record := db.publications[id];
    var e := EffectIntent(effectId, id, record.preparedHead.value);
    RecordNamed(db, id);
    if effectId in db.effects {
      EffectNamed(db, effectId, e);
    }
  }

  lemma RecordNamed(db: Db, id: Text)
    requires Inv(db) && id in db.publications
    ensures db.publications[id].intent.publicationId == id
  {
    hide SourcesOk, EventsOk, WorkspacesOk, ApprovalsOk, EffectsOk, ObservationsOk;
    assert PublicationOk(db.artifacts, db.sessions, db.results, id, db.publications[id]);
  }

  lemma EffectNamed(db: Db, effectId: Text, e: PublicationEffectIntent)
    requires Inv(db) && effectId in db.effects && e.Accepted()
    requires db.effects[effectId].intent.Canonical() == e.Canonical()
    ensures db.effects[effectId].intent == e
  {
    hide SourcesOk, EventsOk, WorkspacesOk, ApprovalsOk, PublicationsOk, ObservationsOk;
    assert EffectOk(db.publications, db.approvals, db.effects[effectId]);
    EffectsDetermined(db.effects[effectId].intent, e);
  }

  /******* Requests *******/

  lemma JobBound(db: Db, effectId: Text, j: Job)
    requires JobOk(db, effectId, j)
    ensures RefKey(j)
         == Key(db.publications[j.intent.publicationId].intent.repositoryName, PublicationRef(j.intent.publicationId))
  {
  }

  // A ref under the job's name is the job's own.
  lemma OwnRef(db: Db, r: Remote, effectId: Text, j: Job)
    requires RefsOk(db, r) && JobOk(db, effectId, j) && RefKey(j) in r.refs
    ensures RefExact(r, j) && CommitExact(r, j)
  {
    var id :| RefOf(db, r, RefKey(j), id);
    RefDeterminesId(id, j.intent.publicationId);
  }

  lemma NewRefOk(db: Db, r: Remote, effectId: Text, j: Job)
    requires RefsOk(db, r) && JobOk(db, effectId, j) && CommitExact(r, j) && RefKey(j) !in r.refs
    ensures RefsOk(db, PostRef(j, r).0) && RefExact(PostRef(j, r).0, j)
  {
    var s := PostRef(j, r).0;
    forall k | k in s.refs ensures exists id :: RefOf(db, s, k, id) {
      if k == RefKey(j) {
        assert RefOf(db, s, k, j.intent.publicationId);
      } else {
        var id :| RefOf(db, r, k, id);
        assert RefOf(db, s, k, id);
      }
    }
  }

  lemma {:induction false} OpenNone(c: Config, j: Job, pulls: seq<Pull>)
    requires j.intent.repositoryName in c.baseBranches
    ensures Open(c, j, pulls) == [] <==> forall i | 0 <= i < |pulls| :: !Asked(c, j, pulls[i])
  {
    if pulls != [] {
      OpenNone(c, j, pulls[1..]);
      assert forall i | 0 < i < |pulls| :: pulls[i] == pulls[1..][i - 1];
      assert forall i | 0 <= i < |pulls[1..]| :: pulls[1..][i] == pulls[i + 1];
    }
  }

  lemma {:induction false} OpenFirst(c: Config, j: Job, pulls: seq<Pull>)
    requires j.intent.repositoryName in c.baseBranches && Open(c, j, pulls) != []
    ensures exists i | 0 <= i < |pulls| :: pulls[i] == Open(c, j, pulls)[0] && Asked(c, j, pulls[i])
  {
    if Asked(c, j, pulls[0]) {
      assert pulls[0] == Open(c, j, pulls)[0];
    } else {
      OpenFirst(c, j, pulls[1..]);
      var i :| 0 <= i < |pulls[1..]| && pulls[1..][i] == Open(c, j, pulls[1..])[0] && Asked(c, j, pulls[1..][i]);
      assert pulls[i + 1] == Open(c, j, pulls)[0];
    }
  }

  lemma NewPullOk(c: Config, r: Remote, j: Job, number: int)
    requires Bound(c, j) && PullsOk(c, r) && RefExact(r, j) && number > 0
    ensures var n := PostPull(c, j, r, number);
            && PullsOk(c, n.0) && n.0.refs == r.refs && PointOk(c, n.0, j, n.1)
  {
    hide Open;
    OpenNone(c, j, r.pulls);
    BranchRef(j.intent.publicationId);
    var repo := j.intent.repositoryName;
    if repo in r.tips && Open(c, j, r.pulls) == [] {
      var p := Pull(repo, number, r.tips[repo], c.baseBranches[repo], r.refs[RefKey(j)],
                    Branch(j.intent.publicationId));
      var s := r.(pulls := r.pulls + [p]);
      assert s.pulls[|r.pulls|] == p;
      assert Backed(s, repo, j.intent.publicationId, number);
      forall i | 0 <= i < |r.pulls| ensures !(s.pulls[i].repository == repo && s.pulls[i].headRef == p.headRef) {
        assert !Asked(c, j, r.pulls[i]);
      }
    }
  }

  lemma FoundPullOk(c: Config, r: Remote, j: Job)
    requires Bound(c, j) && Open(c, j, r.pulls) != []
    ensures PointOk(c, r, j, Concluded(c, j, Open(c, j, r.pulls)[0]))
  {
    hide Open;
    OpenFirst(c, j, r.pulls);
    var i :| 0 <= i < |r.pulls| && r.pulls[i] == Open(c, j, r.pulls)[0] && Asked(c, j, r.pulls[i]);
    assert Backed(r, j.intent.repositoryName, j.intent.publicationId, r.pulls[i].number);
  }

  lemma PullsStay(c: Config, r: Remote, s: Remote)
    requires PullsOk(c, r) && Remains(r, s) && s.pulls == r.pulls
    ensures PullsOk(c, s)
  {
  }

  // Before the ref there is nothing but objects and commits to add.
  lemma ObjectsOk(c: Config, l: Local, j: Job, r: Remote, p: Point, number: int)
    requires Bound(c, j) && !p.AtPostRef? && !p.AtPulls? && !p.AtPostPull? && !p.Done? && !p.AtRef? && !p.AtKnownCommit?
    ensures var n := Request(c, l, j, r, p, number);
            n.0.refs == r.refs && n.0.pulls == r.pulls && PointOk(c, n.0, j, n.1)
  {
    hide Known, Bound, Backed;
  }

  lemma PublicationsSelf(db: Db)
    ensures PublicationsGrow(db.publications, db.publications) && EffectsGrow(db.effects, db.effects)
  {
  }

  lemma PostRefOk(c: Config, db: Db, r: Remote, effectId: Text, j: Job)
    requires RefsOk(db, r) && PullsOk(c, r) && JobOk(db, effectId, j) && Bound(c, j) && CommitExact(r, j)
    ensures var n := PostRef(j, r);
            && RefsOk(db, n.0) && PullsOk(c, n.0) && PointOk(c, n.0, j, n.1)
  {
    hide RefsOk, JobOk, Bound;
    if RefKey(j) !in r.refs { NewRefOk(db, r, effectId, j); }
  }

  lemma RequestOk(c: Config, db: Db, r: Remote, effectId: Text, j: Job, l: Local, p: Point, number: int)
    requires RefsOk(db, r) && PullsOk(c, r) && JobOk(db, effectId, j) && Bound(c, j) && PointOk(c, r, j, p)
    requires number > 0
    requires !p.Stopped? && !p.Done?
    ensures var n := Request(c, l, j, r, p, number);
            && RefsOk(db, n.0) && PullsOk(c, n.0) && Remains(r, n.0) && PointOk(c, n.0, j, n.1)
  {
    hide RefsOk, PullsOk, JobOk, Bound, Backed, Known, Open, PullExact, PostObject, PostCommit, PostRef, PostPull;
    BoundBranch(c, j);
    RequestGrows(c, l, j, r, p, number);
    PublicationsSelf(db);
    var n := Request(c, l, j, r, p, number);
    assert Remains(r, n.0);
    match p
    case AtRef =>
    case AtKnownCommit =>
    case AtPostRef => PostRefOk(c, db, r, effectId, j);
    case AtPulls => if Open(c, j, r.pulls) != [] { FoundPullOk(c, r, j); }
    case AtPostPull =>
      NewPullOk(c, r, j, number);
      RefsStay(db, db, r, n.0);
    case _ =>
      ObjectsOk(c, l, j, r, p, number);
      RefsStay(db, db, r, n.0);
      PullsStay(c, r, n.0);
  }

  lemma StepOk(c: Config, s: System, pid: nat, number: int)
    requires SystemOk(c, s) && pid in s.publishers && s.publishers[pid].Remoting? && number > 0
    ensures SystemOk(c, Act(c, s, RemoteStep(pid, number)))
    ensures Remains(s.remote, Act(c, s, RemoteStep(pid, number)).remote)
  {
    hide Inv, RefsOk, PullsOk, JobOk, Request, ReceiptMatches, ReceiptBacked, Bound;
    var p := s.publishers[pid];
    assert StateOk(c, s.db, s.remote, p);
    var n := AfterRequest(c, s.remote, p.effectId, p.job, p.local, p.point, number);
    RemainsSelf(s.remote);
    PublicationsSelf(s.db);
    if !p.point.Stopped? && !p.point.Done? {
      RequestOk(c, s.db, s.remote, p.effectId, p.job, p.local, p.point, number);
      BoundBranch(c, p.job);
    }
    StatesStay(c, s.db, s.db, s.remote, n.0, s.publishers);
    StateAdded(c, System(s.db, n.0, s.publishers), pid, n.1);
  }

  lemma BoundBranch(c: Config, j: Job)
    requires Bound(c, j)
    ensures j.intent.repositoryName in c.baseBranches
  {
  }

  lemma RemainsSelf(r: Remote)
    ensures Remains(r, r)
  {
  }

  /******* The second transaction *******/

  // The intent is permanent once committed, so it never drifts; a receipt that is
  // returned is the stored one.
  lemma SettledOk(c: Config, db: Db, r: Remote, effectId: Text, j: Job, receipt: PublicationReceipt)
    requires Inv(db) && JobOk(db, effectId, j) && ReceiptBacked(r, j, receipt) && Bound(c, j)
    ensures var n := AfterSettle(db, effectId, j, receipt);
            Good(db, n.0) && StateOk(c, n.0, r, n.1)
  {
    hide Inv, Extends, Backed, EffectReconcile;
    GoodSelf(db);
    JobAccepted(db, effectId, j, receipt);
    SettleReceiptGood(db, effectId, j, receipt);
    ReconciledIsStored(db, receipt);
  }

  lemma ReconciledIsStored(db: Db, receipt: PublicationReceipt)
    ensures var r := db.ReconcileEffect(receipt);
            r.out.Ok? ==> receipt.effectId in r.db.effects && r.db.effects[receipt.effectId] == r.out.value
  {
    hide PullMatches;
  }

  lemma JobAccepted(db: Db, effectId: Text, j: Job, receipt: PublicationReceipt)
    requires Inv(db) && JobOk(db, effectId, j) && receipt.pullRequest.Some?
    requires receipt == Receipt(j, receipt.pullRequest.value.number) && receipt.pullRequest.value.number > 0
    ensures receipt.Accepted()
  {
    hide SourcesOk, EventsOk, WorkspacesOk, ApprovalsOk, ObservationsOk;
    assert PublicationOk(db.artifacts, db.sessions, db.results, j.intent.publicationId,
                         db.publications[j.intent.publicationId]);
    assert EffectOk(db.publications, db.approvals, db.effects[effectId]);
  }

  /******* Every action *******/

  lemma MoveBaseOk(c: Config, s: System, repository: Text, sha: Text)
    requires SystemOk(c, s)
    ensures SystemOk(c, Act(c, s, MoveBase(repository, sha)))
    ensures Remains(s.remote, Act(c, s, MoveBase(repository, sha)).remote)
  {
    hide Inv, StateOk, RefOf;
    var r := s.remote.(tips := s.remote.tips[repository := sha]);
    assert Remains(s.remote, r);
    PublicationsSelf(s.db);
    StatesStay(c, s.db, s.db, s.remote, r, s.publishers);
    RefsStay(s.db, s.db, s.remote, r);
    PullsStay(c, s.remote, r);
  }

  ghost predicate Goes(c: Config, s: System, s': System) {
    SystemOk(c, s') && Extends(s.db, s'.db) && Remains(s.remote, s'.remote)
  }

  lemma TransactGoes(c: Config, s: System, db': Db, pid: nat, p: State)
    requires SystemOk(c, s) && Good(s.db, db') && StateOk(c, db', s.remote, p)
    ensures Goes(c, s, System(db', s.remote, s.publishers))
    ensures Goes(c, s, System(db', s.remote, s.publishers[pid := p]))
  {
    hide Inv, SystemOk, StateOk, Extends;
    TransactionOk(c, s, db');
    RemainsSelf(s.remote);
    StateAdded(c, s.(db := db'), pid, p);
  }

  lemma ActGoes(c: Config, s: System, a: Action)
    requires SystemOk(c, s) && Plausible(a)
    ensures Goes(c, s, Act(c, s, a))
  {
    hide Inv, Extends, StateOk, RefsOk, PullsOk, AfterBegin, AfterRequest, AfterSettle, Apply, Constructible, Remains;
    GoodSelf(s.db);
    RemainsSelf(s.remote);
    var crashed := Failed(Crashed);
    assert StateOk(c, s.db, s.remote, crashed) by { CrashedOk(c, s.db, s.remote); }
    match a
    case BeginPublish(pid, id, effectId, local) =>
      BegunOk(c, s.db, s.remote, id, effectId, local);
      var b := AfterBegin(c, s.db, id, effectId, local);
      TransactGoes(c, s, b.0, pid, b.1);
    case RemoteStep(pid, number) =>
      if pid in s.publishers && s.publishers[pid].Remoting? {
        StepOk(c, s, pid, number);
      }
    case SettleStep(pid) =>
      if pid in s.publishers && s.publishers[pid].Settling? {
        SettlingParts(c, s, pid);
        var p := s.publishers[pid];
        SettledOk(c, s.db, s.remote, p.effectId, p.job, p.receipt);
        var n := AfterSettle(s.db, p.effectId, p.job, p.receipt);
        TransactGoes(c, s, n.0, pid, n.1);
      }
    case Crash(pid) => TransactGoes(c, s, s.db, pid, crashed);
    case Transact(op) =>
      ApplyGood(s.db, op);
      CrashedOk(c, Apply(s.db, op), s.remote);
      TransactGoes(c, s, Apply(s.db, op), 0, crashed);
    case MoveBase(repository, sha) => MoveBaseOk(c, s, repository, sha);
  }

  lemma CrashedOk(c: Config, db: Db, r: Remote)
    ensures StateOk(c, db, r, Failed(Crashed))
  {
  }

  lemma SettlingParts(c: Config, s: System, pid: nat)
    requires SystemOk(c, s) && pid in s.publishers && s.publishers[pid].Settling?
    ensures var p := s.publishers[pid];
            JobOk(s.db, p.effectId, p.job) && ReceiptBacked(s.remote, p.job, p.receipt) && Bound(c, p.job)
  {
    hide Inv, RefsOk, PullsOk;
    assert StateOk(c, s.db, s.remote, s.publishers[pid]);
  }

  lemma RemainsThen(a: Remote, b: Remote, d: Remote)
    requires Remains(a, b) && Remains(b, d)
    ensures Remains(a, d)
  {
  }

  lemma {:induction false} RunGoes(c: Config, s: System, acts: seq<Action>)
    requires SystemOk(c, s) && AllPlausible(acts)
    ensures Goes(c, s, RunActions(c, s, acts))
  {
    hide SystemOk, Extends, Remains, Plausible, Act;
    if acts == [] {
      ExtendsSelf(s.db);
      RemainsSelf(s.remote);
    } else {
      var n := |acts| - 1;
      var t := RunActions(c, s, acts[..n]);
      RunGoes(c, s, acts[..n]);
      ActGoes(c, t, acts[n]);
      ExtendsTransitive(s.db, t.db, RunActions(c, s, acts).db);
      RemainsThen(s.remote, t.remote, RunActions(c, s, acts).remote);
    }
  }

  lemma FreshOk(c: Config, db: Db, r: Remote)
    requires Inv(db) && Untouched(r)
    ensures SystemOk(c, System(db, r, map[]))
  {
    hide Inv;
  }

  /******* Main results *******/

  // The pull request stands on a branch whose ref is the prepared head of a publication,
  // whose commit has the prepared tree.
  ghost predicate ChainOk(db: Db, r: Remote, p: Pull) {
    && HeadKey(p) in r.refs && r.refs[HeadKey(p)] == p.headSha
    && exists id :: RefOf(db, r, HeadKey(p), id)
  }

  lemma HeadKeyDetermines(p: Pull, q: Pull)
    ensures HeadKey(p) == HeadKey(q) <==> p.repository == q.repository && p.headRef == q.headRef
  {
    assert (HEADS + p.headRef)[|HEADS|..] == p.headRef && (HEADS + q.headRef)[|HEADS|..] == q.headRef;
  }

  // Over any interleaving, whatever crashed.
  lemma RemoteIsExact(c: Config, db: Db, r: Remote, acts: seq<Action>)
    requires Inv(db) && Untouched(r) && AllPlausible(acts)
    ensures var s := RunActions(c, System(db, r, map[]), acts);
            && (forall k | k in s.remote.refs :: exists id :: RefOf(s.db, s.remote, k, id))
            && (forall i | 0 <= i < |s.remote.pulls| :: ChainOk(s.db, s.remote, s.remote.pulls[i]))
            && (forall i, j | 0 <= i < j < |s.remote.pulls| :: HeadKey(s.remote.pulls[i]) != HeadKey(s.remote.pulls[j]))
  {
    hide Inv, RefOf, StateOk, Extends, Remains;
    FreshOk(c, db, r);
    RunGoes(c, System(db, r, map[]), acts);
    var s := RunActions(c, System(db, r, map[]), acts).remote;
    forall i, j | 0 <= i < j < |s.pulls| ensures HeadKey(s.pulls[i]) != HeadKey(s.pulls[j]) {
      HeadKeyDetermines(s.pulls[i], s.pulls[j]);
    }
  }

  // Nothing a publisher created is ever changed or removed.
  lemma RefsNeverChange(c: Config, s: System, acts: seq<Action>, k: Key)
    requires SystemOk(c, s) && AllPlausible(acts) && k in s.remote.refs
    ensures var t := RunActions(c, s, acts).remote;
            && k in t.refs && t.refs[k] == s.remote.refs[k] && s.remote.pulls <= t.pulls
            && forall n | n in s.remote.commits :: n in t.commits && t.commits[n] == s.remote.commits[n]
  {
    hide SystemOk;
    RunGoes(c, s, acts);
  }

  // All publish calls that return for one effect return the same receipt, the stored one.
  lemma PublishAgrees(c: Config, db: Db, r: Remote, acts: seq<Action>, i: nat, j: nat)
    requires Inv(db) && Untouched(r) && AllPlausible(acts)
    requires var ps := RunActions(c, System(db, r, map[]), acts).publishers;
             i in ps && j in ps && ps[i].Returned? && ps[j].Returned? && ps[i].effectId == ps[j].effectId
    ensures var s := RunActions(c, System(db, r, map[]), acts);
            && s.publishers[i].receipt == s.publishers[j].receipt
            && s.publishers[i].effectId in s.db.effects
            && s.db.effects[s.publishers[i].effectId].receipt == Some(s.publishers[i].receipt)
  {
    hide Inv, RefsOk, PullsOk, Extends, Remains, Act;
    FreshOk(c, db, r);
    RunGoes(c, System(db, r, map[]), acts);
    var s := RunActions(c, System(db, r, map[]), acts);
    assert StateOk(c, s.db, s.remote, s.publishers[i]) && StateOk(c, s.db, s.remote, s.publishers[j]);
  }

  // The guard against a drifted effect never fires.
  lemma EffectsNeverDrift(c: Config, db: Db, r: Remote, acts: seq<Action>, pid: nat)
    requires Inv(db) && Untouched(r) && AllPlausible(acts)
    requires pid in RunActions(c, System(db, r, map[]), acts).publishers
    ensures RunActions(c, System(db, r, map[]), acts).publishers[pid] != Failed(Reason.Rejected(Drifted))
  {
    hide Inv, RefsOk, PullsOk, Extends, Remains, Act;
    FreshOk(c, db, r);
    RunGoes(c, System(db, r, map[]), acts);
    var s := RunActions(c, System(db, r, map[]), acts);
    assert StateOk(c, s.db, s.remote, s.publishers[pid]);
  }

  /******* When only publishers write receipts *******/

  // Every stored receipt carries the number of a pull request on its publication's branch.
  ghost predicate StoredBacked(db: Db, r: Remote) {
    forall k | k in db.effects && db.effects[k].receipt.Some? ::
      && db.effects[k].intent.publicationId in db.publications
      && db.effects[k].receipt.value.pullRequest.Some?
      && var id := db.effects[k].intent.publicationId;
      Backed(r, db.publications[id].intent.repositoryName, id, db.effects[k].receipt.value.pullRequest.value.number)
  }

  lemma OneNumber(c: Config, r: Remote, repository: Text, id: Text, m: int, n: int)
    requires PullsOk(c, r) && Backed(r, repository, id, m) && Backed(r, repository, id, n)
    ensures m == n
  {
    var i :| 0 <= i < |r.pulls| && r.pulls[i].repository == repository && r.pulls[i].headRef == Branch(id)
             && r.pulls[i].number == m;
    var k :| 0 <= k < |r.pulls| && r.pulls[k].repository == repository && r.pulls[k].headRef == Branch(id)
             && r.pulls[k].number == n;
    assert i == k;
  }

  // The stored receipt can only be the one this publisher computed.
  lemma StoredIsOurs(c: Config, db: Db, r: Remote, effectId: Text, j: Job, receipt: PublicationReceipt)
    requires EffectsOk(db.publications, db.approvals, db.effects) && JobOk(db, effectId, j)
    requires HeadOk(db.publications[j.intent.publicationId])
    requires db.publications[j.intent.publicationId].intent.publicationId == j.intent.publicationId
    requires ReceiptBacked(r, j, receipt) && PullsOk(c, r) && StoredBacked(db, r)
    requires db.effects[effectId].receipt.Some?
    ensures db.effects[effectId].receipt.value == receipt
  {
    hide Backed, PullsOk, HasApproval;
    assert EffectOk(db.publications, db.approvals, db.effects[effectId]);
    var stored := db.effects[effectId].receipt.value;
    OneNumber(c, r, j.intent.repositoryName, j.intent.publicationId, stored.pullRequest.value.number,
              receipt.pullRequest.value.number);
  }

  lemma ReconcileAccepts(db: Db, effectId: Text, j: Job, receipt: PublicationReceipt)
    requires EffectsOk(db.publications, db.approvals, db.effects) && JobOk(db, effectId, j)
    requires receipt.pullRequest.Some? && receipt == Receipt(j, receipt.pullRequest.value.number)
    requires db.effects[effectId].receipt.None? && receipt.Accepted()
    ensures var e := PublicationEffectRecord(j.effect, Some(receipt));
            EffectReconcile(db.effects, db.publications, receipt) == Put(db.effects[effectId := e], Ok(e))
  {
    hide HasApproval;
    assert EffectOk(db.publications, db.approvals, db.effects[effectId]);
  }

  lemma InvParts(db: Db, id: Text)
    requires Inv(db) && id in db.publications
    ensures EffectsOk(db.publications, db.approvals, db.effects)
    ensures HeadOk(db.publications[id]) && db.publications[id].intent.publicationId == id
  {
    hide SourcesOk, EventsOk, WorkspacesOk, ApprovalsOk, ObservationsOk, EffectsOk;
    assert PublicationOk(db.artifacts, db.sessions, db.results, id, db.publications[id]);
  }

  // The second transaction of a publisher always returns, with the receipt it computed.
  lemma SettleSucceeds(c: Config, db: Db, r: Remote, effectId: Text, j: Job, receipt: PublicationReceipt)
    requires Inv(db) && JobOk(db, effectId, j) && ReceiptBacked(r, j, receipt) && PullsOk(c, r) && StoredBacked(db, r)
    ensures SettleReceipt(db, effectId, j, receipt).1 == Settled(receipt)
    ensures StoredBacked(SettleReceipt(db, effectId, j, receipt).0, r)
  {
    hide Inv, PullsOk, Backed, EffectsOk, HeadOk, EffectReconcile;
    InvParts(db, j.intent.publicationId);
    JobAccepted(db, effectId, j, receipt);
    if db.effects[effectId].receipt.Some? {
      StoredIsOurs(c, db, r, effectId, j, receipt);
    } else {
      ReconcileAccepts(db, effectId, j, receipt);
      NewlyBacked(db, r, effectId, j, receipt);
    }
  }

  lemma NewlyBacked(db: Db, r: Remote, effectId: Text, j: Job, receipt: PublicationReceipt)
    requires JobOk(db, effectId, j) && ReceiptBacked(r, j, receipt) && StoredBacked(db, r)
    ensures StoredBacked(db.(effects := db.effects[effectId := PublicationEffectRecord(j.effect, Some(receipt))]), r)
  {
    hide Backed;
  }

  // No receipt appears out of nowhere.
  ghost predicate NoNewReceipts(m: Effects, n: Effects) {
    forall k | k in n && n[k].receipt.Some? :: k in m && m[k] == n[k]
  }

  lemma RequestNoReceipts(m: Effects, p: Publications, d: Approvals, e: PublicationEffectIntent)
    ensures NoNewReceipts(m, EffectRequest(m, p, d, e).m)
  {
    hide EffectAllowed, RefTaken;
  }

  lemma ApplyNoReceipts(db: Db, op: StoreOp)
    requires !op.ReconcileEffect?
    ensures NoNewReceipts(db.effects, Apply(db, op).effects)
  {
    hide TaskCreate, TaskUpdate, EventAppend, IntakeCreate, SourceRecordOnce, ArtifactRegister, SessionRecordOnce;
    hide SessionSetOutcome, ResultRecordOnce, WorkspaceRecordOnce, WorkspaceRelease, PublicationReserve, RecordPrepared;
    hide RecordVerification, ApprovalAppend, EffectRequest, ObservationAppend;
    if op.RequestEffect? { RequestNoReceipts(db.effects, db.publications, db.approvals, op.effect); }
  }

  lemma BeginNoReceipts(db: Db, id: Text, effectId: Text)
    ensures NoNewReceipts(db.effects, Begin(db, id, effectId).db.effects)
  {
    hide EffectRequest, ExactlyApproved, TaskReady;
    if id in db.publications && SuccessfullyVerified(db.publications[id]) {
      RequestNoReceipts(db.effects, db.publications, db.approvals,
                        EffectIntent(effectId, id, db.publications[id].preparedHead.value));
    }
  }

  lemma StoredStays(db: Db, db': Db, r: Remote, s: Remote)
    requires StoredBacked(db, r) && NoNewReceipts(db.effects, db'.effects) && Remains(r, s)
    requires PublicationsGrow(db.publications, db'.publications)
    ensures StoredBacked(db', s)
  {
    hide Backed, Remains;
    forall k | k in db'.effects && db'.effects[k].receipt.Some?
      ensures var id := db'.effects[k].intent.publicationId;
              && id in db'.publications && db'.effects[k].receipt.value.pullRequest.Some?
              && Backed(s, db'.publications[id].intent.repositoryName, id,
                        db'.effects[k].receipt.value.pullRequest.value.number)
    {
      var id := db.effects[k].intent.publicationId;
      assert Later(db.publications[id], db'.publications[id]);
      BackedStays(r, s, db.publications[id].intent.repositoryName, id,
                  db.effects[k].receipt.value.pullRequest.value.number);
    }
  }

  ghost predicate NothingRejected(ps: map<nat, State>) {
    forall pid | pid in ps && ps[pid].Failed? :: !ps[pid].reason.Rejected?
  }

  ghost predicate Settled1(s: System) { StoredBacked(s.db, s.remote) && NothingRejected(s.publishers) }

  lemma RejectedNever(c: Config, db: Db, r: Remote, id: Text, effectId: Text, local: Local, job: Job, p: Point,
                      number: int)
    ensures var b := AfterBegin(c, db, id, effectId, local).1; b.Failed? ==> !b.reason.Rejected?
    ensures var n := AfterRequest(c, r, effectId, job, local, p, number).1; n.Failed? ==> !n.reason.Rejected?
    ensures NoNewReceipts(db.effects, AfterBegin(c, db, id, effectId, local).0.effects)
  {
    hide Begin, Request;
    BeginNoReceipts(db, id, effectId);
  }

  lemma ActSettles(c: Config, s: System, a: Action)
    requires SystemOk(c, s) && Plausible(a) && !(a.Transact? && a.op.ReconcileEffect?) && Settled1(s)
    ensures Settled1(Act(c, s, a))
  {
    hide SystemOk, StoredBacked, Extends, Inv, AfterBegin, AfterRequest, AfterSettle, Remains, Apply, NoNewReceipts;
    ActGoes(c, s, a);
    var t := Act(c, s, a);
    assert PublicationsGrow(s.db.publications, t.db.publications) by { GrowsParts(s.db, t.db); }
    NoneNew(s.db);
    match a
    case BeginPublish(pid, id, effectId, local) =>
      RejectedNever(c, s.db, s.remote, id, effectId, local, NO_JOB, Stopped, 0);
      StoredStays(s.db, t.db, s.remote, t.remote);
    case RemoteStep(pid, number) =>
      if pid in s.publishers && s.publishers[pid].Remoting? {
        var p := s.publishers[pid];
        RejectedNever(c, s.db, s.remote, [], p.effectId, p.local, p.job, p.point, number);
      }
      StoredStays(s.db, t.db, s.remote, t.remote);
    case SettleStep(pid) =>
      if pid in s.publishers && s.publishers[pid].Settling? { SettleStepSettles(c, s, pid); }
    case Crash(pid) => StoredStays(s.db, t.db, s.remote, t.remote);
    case Transact(op) =>
      ApplyNoReceipts(s.db, op);
      StoredStays(s.db, t.db, s.remote, t.remote);
    case MoveBase(repository, sha) => StoredStays(s.db, t.db, s.remote, t.remote);
  }

  const NO_JOB := Job(PublicationIntent([], [], [], [], [], [], 0, 0, [], []), PreparedHead([], [], [], [], [], []),
                      PublicationEffectIntent([], [], [], []))

  lemma GrowsParts(db: Db, db': Db)
    requires Extends(db, db')
    ensures PublicationsGrow(db.publications, db'.publications)
  {
  }

  lemma NoneNew(db: Db)
    ensures NoNewReceipts(db.effects, db.effects)
  {
  }

  lemma SettleStepSettles(c: Config, s: System, pid: nat)
    requires SystemOk(c, s) && Settled1(s) && pid in s.publishers && s.publishers[pid].Settling?
    ensures Settled1(Act(c, s, SettleStep(pid)))
  {
    hide Inv, StoredBacked, RefsOk, PullsOk, StatesOk, SettleReceipt;
    var p := s.publishers[pid];
    SettlingParts(c, s, pid);
    SettleSucceeds(c, s.db, s.remote, p.effectId, p.job, p.receipt);
  }

  ghost predicate OnlyPublishersReconcile(acts: seq<Action>) {
    forall i | 0 <= i < |acts| :: !(acts[i].Transact? && acts[i].op.ReconcileEffect?)
  }

  // If no other transaction writes receipts, no second transaction is ever rejected: not
  // for drift, not for a conflicting receipt, not by the ledger.
  lemma {:induction false} SettlingNeverFails(c: Config, db: Db, r: Remote, acts: seq<Action>)
    requires Inv(db) && Untouched(r) && AllPlausible(acts) && OnlyPublishersReconcile(acts)
    requires forall k | k in db.effects :: db.effects[k].receipt.None?
    ensures Settled1(RunActions(c, System(db, r, map[]), acts))
  {
    hide Inv, SystemOk, Act, Plausible, Extends, Remains;
    var s := System(db, r, map[]);
    FreshOk(c, db, r);
    if acts != [] {
      var n := |acts| - 1;
      SettlingNeverFails(c, db, r, acts[..n]);
      RunGoes(c, s, acts[..n]);
      ActSettles(c, RunActions(c, s, acts[..n]), acts[n]);
    }
  }
}

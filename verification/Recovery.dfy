// Retries after crashes: exactly when an undisturbed one completes, and what it leaves.

module Recovery {
  import opened Json
  import opened Domain
  import opened Records
  import opened Ledgers
  import opened Database
  import opened LedgerInvariants
  import opened Publication
  import opened ServiceSteps
  import opened GitHub
  import opened Publisher

  // No pull request on the branch was opened against another base.
  ghost predicate Unmoved(c: Config, j: Job, pulls: seq<Pull>)
    requires j.intent.repositoryName in c.baseBranches
  {
    forall i | 0 <= i < |pulls| && Asked(c, j, pulls[i]) :: pulls[i].baseSha == j.intent.baseSha
  }

  // In a reachable system the ref, its commit and the number of pull requests take care
  // of themselves: what can stop a retry is the local repository, a commit object with
  // another tree, or a base branch that moved, now or when the pull request was opened.
  lemma RetryNeeds(c: Config, s: System, effectId: Text, j: Job, l: Local)
    requires SystemOk(c, s) && JobOk(s.db, effectId, j) && Bound(c, j)
    ensures Completes(c, l, j, s.remote)
       <==> && LocalIntact(l, j) && BaseStands(j, s.remote) && Unmoved(c, j, s.remote.pulls)
            && (RefKey(j) in s.remote.refs || (Spells(c, l, j) && CommitFree(j, s.remote)))
  {
    hide Inv, StatesOk, Spells, RefsOk, LocalIntact, BaseStands, Open, CommitFree, JobOk;
    if RefKey(j) in s.remote.refs { OwnRef(s.db, s.remote, effectId, j); }
    if Unmoved(c, j, s.remote.pulls) {
      OpenExact(c, s.remote, effectId, j, s.db);
    } else if PullsFine(c, j, s.remote.pulls) {
      var i :| 0 <= i < |s.remote.pulls| && Asked(c, j,
                                                  s.remote.pulls[i]) && s.remote.pulls[i].baseSha != j.intent.baseSha;
      OpenHolds(c, j, s.remote.pulls, i);
    }
  }

  lemma {:induction false} SoloOk(c: Config, db: Db, r: Remote, effectId: Text, j: Job, l: Local, p: Point, number: int,
                                  fuel: nat)
    requires RefsOk(db, r) && PullsOk(c, r) && JobOk(db, effectId, j) && Bound(c, j) && PointOk(c, r, j, p)
    requires number > 0
    ensures var n := Solo(c, l, j, r, p, number, fuel);
            && PullsOk(c, n.0) && Remains(r, n.0) && PointOk(c, n.0, j, n.1)
    decreases fuel
  {
    hide RefsOk, PullsOk, JobOk, Bound, PointOk, Request, Remains;
    RemainsSelf(r);
    if fuel > 0 && !p.Done? && !p.Stopped? {
      RequestOk(c, db, r, effectId, j, l, p, number);
      BoundRepository(c, j);
      var next := Request(c, l, j, r, p, number);
      SoloOk(c, db, next.0, effectId, j, l, next.1, number, fuel - 1);
      RemainsThen(r, next.0, Solo(c, l, j, r, p, number, fuel).0);
    }
  }

  // An undisturbed retry ends with the receipt of the one pull request and the ledger
  // takes it, or it stops.
  lemma RetrySettles(c: Config, s: System, effectId: Text, j: Job, l: Local, number: int)
    requires SystemOk(c, s) && StoredBacked(s.db, s.remote) && JobOk(s.db, effectId, j) && Bound(c, j) && number > 0
    ensures var receipt := Receipt(j, Chosen(c, j, s.remote.pulls, number));
            if Completes(c, l, j, s.remote)
            then && Attempt(c, l, j, s.remote, number).1 == Done(receipt) && ReceiptMatches(receipt, j.prepared,
                                                                                            j.effect)
                 && SettleReceipt(s.db, effectId, j, receipt).1 == Settled(receipt)
            else Attempt(c, l, j, s.remote, number).1 == Stopped
  {
    hide Inv, StatesOk, Solo, RefsOk, PullsOk, StoredBacked, Open, Completes, SettleReceipt, PullsFine, JobOk,
         StartPoint, Bound;
    BoundRepository(c, j);
    AttemptDecides(c, l, j, s.remote, number);
    CompletesFine(c, l, j, s.remote);
    if Completes(c, l, j, s.remote) {
      var receipt := Receipt(j, Chosen(c, j, s.remote.pulls, number));
      StartOk(c, s.remote, l, j);
      SoloOk(c, s.db, s.remote, effectId, j, l, StartPoint(c, l, j), number, |l.changes| + 8);
      var end := Attempt(c, l, j, s.remote, number).0;
      NoneNew(s.db);
      PublicationsSelf(s.db);
      StoredStays(s.db, s.db, s.remote, end);
      SettleSucceeds(c, s.db, end, effectId, j, receipt);
      OwnReceipt(c, s.db, effectId, j, receipt);
    }
  }

  // After any run from a remote nobody has published to and a ledger without receipts,
  // however many attempts crashed, as long as publishers alone write receipts.
  lemma RetryRecovers(c: Config, db: Db, r: Remote, acts: seq<Action>, effectId: Text, j: Job, l: Local, number: int)
    requires Inv(db) && Untouched(r) && AllPlausible(acts) && OnlyPublishersReconcile(acts)
    requires forall k | k in db.effects :: db.effects[k].receipt.None?
    requires JobOk(RunActions(c, System(db, r, map[]), acts).db, effectId, j) && Bound(c, j) && number > 0
    ensures var s := RunActions(c, System(db, r, map[]), acts);
            var receipt := Receipt(j, Chosen(c, j, s.remote.pulls, number));
            if Completes(c, l, j, s.remote)
            then && Attempt(c, l, j, s.remote, number).1 == Done(receipt)
                 && ReceiptMatches(receipt, j.prepared, j.effect)
                 && SettleReceipt(s.db, effectId, j, receipt).1 == Settled(receipt)
            else Attempt(c, l, j, s.remote, number).1 == Stopped
  {
    hide Inv, SystemOk, RunActions, Completes, Attempt, SettleReceipt, JobOk, Bound, ReceiptMatches, StoredBacked;
    FreshOk(c, db, r);
    RunGoes(c, System(db, r, map[]), acts);
    SettlingNeverFails(c, db, r, acts);
    RetrySettles(c, RunActions(c, System(db, r, map[]), acts), effectId, j, l, number);
  }

  lemma CompletesFine(c: Config, l: Local, j: Job, r: Remote)
    requires j.intent.repositoryName in c.baseBranches
    ensures Completes(c, l, j, r) ==> PullsFine(c, j, r.pulls)
  {
  }

  lemma StartOk(c: Config, r: Remote, l: Local, j: Job)
    ensures PointOk(c, r, j, StartPoint(c, l, j))
  {
  }

  lemma OwnReceipt(c: Config, db: Db, effectId: Text, j: Job, receipt: PublicationReceipt)
    requires Bound(c, j) && JobOk(db, effectId, j) && receipt.pullRequest.Some?
    requires receipt == Receipt(j, receipt.pullRequest.value.number)
    ensures ReceiptMatches(receipt, j.prepared, j.effect)
  {
  }

  // A pull request opened against another base stops every attempt, in every later state.
  lemma StuckForGood(c: Config, s: System, acts: seq<Action>, l: Local, j: Job, i: nat, number: int)
    requires SystemOk(c, s) && AllPlausible(acts) && j.intent.repositoryName in c.baseBranches && number > 0
    requires i < |s.remote.pulls| && Asked(c, j, s.remote.pulls[i]) && s.remote.pulls[i].baseSha != j.intent.baseSha
    ensures Attempt(c, l, j, RunActions(c, s, acts).remote, number).1 == Stopped
  {
    hide SystemOk, Attempt, Extends, Asked;
    RunGoes(c, s, acts);
    assert RunActions(c, s, acts).remote.pulls[i] == s.remote.pulls[i];
    MovedBaseSticks(c, l, j, RunActions(c, s, acts).remote, i, number);
  }

  lemma OpenExact(c: Config, r: Remote, effectId: Text, j: Job, db: Db)
    requires PullsOk(c, r) && RefsOk(db, r) && JobOk(db, effectId, j) && Bound(c, j)
    requires forall i | 0 <= i < |r.pulls| && Asked(c, j, r.pulls[i]) :: r.pulls[i].baseSha == j.intent.baseSha
    ensures |Open(c, j, r.pulls)| <= 1
    ensures Open(c, j, r.pulls) != [] ==> PullExact(c, j, Open(c, j, r.pulls)[0])
  {
    hide RefsOk, JobOk, Bound, Open;
    BoundBranch(c, j);
    OpenAtMostOne(c, j, r.pulls);
    if Open(c, j, r.pulls) != [] {
      OpenFirst(c, j, r.pulls);
      var i :| 0 <= i < |r.pulls| && r.pulls[i] == Open(c, j, r.pulls)[0] && Asked(c, j, r.pulls[i]);
      BranchRef(j.intent.publicationId);
      assert HeadKey(r.pulls[i]) == RefKey(j);
      OwnRef(db, r, effectId, j);
    }
  }

  lemma {:induction false} OpenAtMostOne(c: Config, j: Job, pulls: seq<Pull>)
    requires j.intent.repositoryName in c.baseBranches
    requires forall i, k | 0 <= i < |pulls| && 0 <= k < |pulls|
                           && pulls[i].repository == pulls[k].repository && pulls[i].headRef == pulls[k].headRef ::
                                 i == k
    ensures |Open(c, j, pulls)| <= 1
  {
    if pulls != [] {
      OpenAtMostOne(c, j, pulls[1..]);
      if Asked(c, j, pulls[0]) {
        OpenNone(c, j, pulls[1..]);
        forall i | 0 <= i < |pulls[1..]| ensures !Asked(c, j, pulls[1..][i]) {
          assert pulls[1..][i] == pulls[i + 1];
        }
      }
    }
  }
}

// The publisher as it runs: ordered requests to a remote that changes in place, and the
// whole publish call around it.

module PublisherMethods {
  import opened Json
  import opened Domain
  import opened Records
  import opened Database
  import opened Heap
  import opened Memory
  import opened UnitOfWork
  import opened Publication
  import opened ServiceMethods
  import opened PublicationMethods
  import opened GitHub
  import opened Publisher
  import opened LedgerInvariants
  import opened PublicationOutcomes
  import opened ServiceSteps
  import opened Reconciliation

  // The remote side of the transport.
  class Transport {
    var remote: Remote

    constructor (r: Remote)
      ensures remote == r
    {
      remote := r;
    }

    method PostBlob(c: Config, repository: Text, content: Text) returns (sha: Text)
      modifies this
      ensures sha == c.forge.blobSha(content)
      ensures remote == old(remote).(objects := old(remote).objects + {Key(repository, sha)})
    {
      sha := c.forge.blobSha(content);
      remote := remote.(objects := remote.objects + {Key(repository, sha)});
    }

    // Refused when an entry names an object the remote does not have.
    method PostTree(c: Config, repository: Text, baseTree: Text, entries: seq<Entry>) returns (sha: Option<Text>)
      modifies this
      ensures sha == if Known(old(remote), repository, entries) then Some(c.forge.treeSha(baseTree, entries)) else None
      ensures remote == if sha.None? then old(remote)
                        else old(remote).(objects := old(remote).objects + {Key(repository, sha.value)})
    {
      if !Known(remote, repository, entries) { return None; }
      var answer := c.forge.treeSha(baseTree, entries);
      remote := remote.(objects := remote.objects + {Key(repository, answer)});
      sha := Some(answer);
    }

    // Refused when the tree is unknown.
    method PostCommit(c: Config, repository: Text, payload: Payload) returns (sha: Option<Text>)
      modifies this
      ensures sha
           == if Key(repository, payload.tree) in old(remote).objects then Some(c.forge.commitSha(payload)) else None
      ensures remote == if sha.None? || Key(repository, sha.value) in old(remote).commits then old(remote)
                        else old(remote).(commits := old(remote).commits[Key(repository, sha.value) := payload.tree])
    {
      if Key(repository, payload.tree) !in remote.objects { return None; }
      var answer := c.forge.commitSha(payload);
      if Key(repository, answer) !in remote.commits {
        remote := remote.(commits := remote.commits[Key(repository, answer) := payload.tree]);
      }
      sha := Some(answer);
    }

    method PostRef(key: Key, sha: Text) returns (created: bool)
      modifies this
      ensures created == (key !in old(remote).refs && Key(key.repository, sha) in old(remote).commits)
      ensures remote == if created then old(remote).(refs := old(remote).refs[key := sha]) else old(remote)
    {
      if key in remote.refs || Key(key.repository, sha) !in remote.commits { return false; }
      remote := remote.(refs := remote.refs[key := sha]);
      created := true;
    }

    // Opens the pull request the query asks for; the remote chooses its number and fills
    // in the shas it sees.
    method PostPull(c: Config, j: Job, number: int) returns (made: Option<Pull>)
      requires j.intent.repositoryName in c.baseBranches
      modifies this
      ensures var n := GitHub.PostPull(c, j, old(remote), number);
              remote == n.0 && n.1 == if made.Some? then Concluded(c, j, made.value) else Stopped
    {
      var repo := j.intent.repositoryName;
      if RefKey(j) !in remote.refs || repo !in remote.tips || Open(c, j, remote.pulls) != [] { return None; }
      var p := Pull(repo, number, remote.tips[repo], c.baseBranches[repo], remote.refs[RefKey(j)],
                    Branch(j.intent.publicationId));
      remote := remote.(pulls := remote.pulls + [p]);
      made := Some(p);
    }
  }

  class GitHubPublicationPublisher {
    const config: Config
    const transport: Transport

    constructor (c: Config, t: Transport)
      ensures config == c && transport == t
    {
      config, transport := c, t;
    }

    method ValidateRemoteCommit(j: Job) returns (ok: bool)
      ensures ok == CommitExact(transport.remote, j)
    {
      ok := CommitKey(j) in transport.remote.commits && transport.remote.commits[CommitKey(j)] == j.prepared.treeSha;
    }

    // Blobs one by one, in the order of the local diff; None is an exception.
    method PostBlobs(l: Local, j: Job, ghost number: int, ghost fuel: nat) returns (entries: Option<seq<Entry>>)
      requires j.intent.repositoryName in config.baseBranches && fuel >= |l.changes| + 1
      modifies transport
      ensures Solo(config, l, j, old(transport.remote), AtObjects(0, []), number, fuel)
           == if entries.None? then (transport.remote, Stopped)
              else Solo(config, l, j, transport.remote, AtObjects(|l.changes|, entries.value), number,
                        fuel - |l.changes|)
    {
      hide Solo, Known;
      var sent := [];
      var i := 0;
      while i < |l.changes|
        invariant 0 <= i <= |l.changes|
        invariant Solo(config, l, j, old(transport.remote), AtObjects(0, []), number, fuel)
               == Solo(config, l, j, transport.remote, AtObjects(i, sent), number, fuel - i)
      {
        SoloStep(config, l, j, transport.remote, AtObjects(i, sent), number, fuel - i);
        match l.changes[i] {
          case Unsupported =>
            SoloEnd(config, l, j, transport.remote, Stopped, number, fuel - i - 1);
            return None;
          case Deleted(path, mode) =>
            sent := sent + [Entry(path, mode, None)];
          case Written(path, mode, blobSha, content) =>
            var answer := transport.PostBlob(config, j.intent.repositoryName, content);
            if answer != blobSha {
              SoloEnd(config, l, j, transport.remote, Stopped, number, fuel - i - 1);
              return None;
            }
            sent := sent + [Entry(path, mode, Some(blobSha))];
        }
        i := i + 1;
      }
      entries := Some(sent);
    }

    method CreateExactObjects(l: Local, j: Job, ghost number: int, ghost fuel: nat) returns (ok: bool)
      requires j.intent.repositoryName in config.baseBranches && fuel >= |l.changes| + 3
      modifies transport
      ensures Solo(config, l, j, old(transport.remote), AtObjects(0, []), number, fuel)
           == if !ok then (transport.remote, Stopped)
              else Solo(config, l, j, transport.remote, AtPostRef, number, fuel - |l.changes| - 3)
    {
      hide Solo, Known;
      var repo := j.intent.repositoryName;
      var entries := PostBlobs(l, j, number, fuel);
      if entries.None? { return false; }
      ghost var left := fuel - |l.changes|;
      SoloStep(config, l, j, transport.remote, AtObjects(|l.changes|, entries.value), number, left);
      var tree := transport.PostTree(config, repo, l.baseTree, entries.value);
      if tree != Some(j.prepared.treeSha) {
        SoloEnd(config, l, j, transport.remote, Stopped, number, left - 1);
        return false;
      }
      SoloStep(config, l, j, transport.remote, AtCommit, number, left - 1);
      if l.metadata.None? {
        SoloEnd(config, l, j, transport.remote, Stopped, number, left - 2);
        return false;
      }
      var commit := transport.PostCommit(config, repo, Payload(j.prepared.treeSha, j.intent.baseSha, l.metadata.value));
      if commit != Some(j.prepared.headSha) {
        SoloEnd(config, l, j, transport.remote, Stopped, number, left - 2);
        return false;
      }
      SoloStep(config, l, j, transport.remote, AtNewCommit, number, left - 2);
      ok := ValidateRemoteCommit(j);
      if !ok { SoloEnd(config, l, j, transport.remote, Stopped, number, left - 3); }
    }

    // The pull request, found or opened; None is an exception.
    method FindOrOpenPull(l: Local, j: Job, number: int, ghost fuel: nat) returns (out: Option<PublicationReceipt>)
      requires Bound(config, j) && fuel >= 2
      modifies transport
      ensures Solo(config, l, j, old(transport.remote), AtPulls, number, fuel)
           == (transport.remote, if out.Some? then Done(out.value) else Stopped)
    {
      hide Solo, Open;
      SoloStep(config, l, j, transport.remote, AtPulls, number, fuel);
      var found := Open(config, j, transport.remote.pulls);
      var p: Pull;
      if |found| > 1 {
        SoloEnd(config, l, j, transport.remote, Stopped, number, fuel - 1);
        return None;
      }
      if found == [] {
        SoloStep(config, l, j, transport.remote, AtPostPull, number, fuel - 1);
        var made := transport.PostPull(config, j, number);
        if made.None? {
          SoloEnd(config, l, j, transport.remote, Stopped, number, fuel - 2);
          return None;
        }
        p := made.value;
        SoloEnd(config, l, j, transport.remote, Concluded(config, j, p), number, fuel - 2);
      } else {
        p := found[0];
        SoloEnd(config, l, j, transport.remote, Concluded(config, j, p), number, fuel - 1);
      }
      out := if PullExact(config, j, p) then Some(Receipt(j, p.number)) else None;
    }

    method Reconcile(l: Local, j: Job, number: int) returns (out: Option<PublicationReceipt>)
      modifies transport
      ensures Attempt(config, l, j, old(transport.remote), number)
           == (transport.remote, if out.Some? then Done(out.value) else Stopped)
    {
      hide Solo, Open, LocalIntact;
      if !Bound(config, j) { return None; }
      ghost var fuel := |l.changes| + 8;
      var repo := j.intent.repositoryName;
      if !LocalIntact(l, j) {
        SoloEnd(config, l, j, transport.remote, Stopped, number, fuel);
        return None;
      }
      SoloStep(config, l, j, transport.remote, AtBase, number, fuel);
      if repo !in transport.remote.tips || transport.remote.tips[repo] != j.intent.baseSha {
        SoloEnd(config, l, j, transport.remote, Stopped, number, fuel - 1);
        return None;
      }
      SoloStep(config, l, j, transport.remote, AtRef, number, fuel - 1);
      if RefKey(j) in transport.remote.refs {
        if transport.remote.refs[RefKey(j)] != j.prepared.headSha {
          SoloEnd(config, l, j, transport.remote, Stopped, number, fuel - 2);
          return None;
        }
        SoloStep(config, l, j, transport.remote, AtKnownCommit, number, fuel - 2);
        var exact := ValidateRemoteCommit(j);
        if !exact {
          SoloEnd(config, l, j, transport.remote, Stopped, number, fuel - 3);
          return None;
        }
        out := FindOrOpenPull(l, j, number, fuel - 3);
      } else {
        var created := CreateExactObjects(l, j, number, fuel - 2);
        if !created { return None; }
        SoloStep(config, l, j, transport.remote, AtPostRef, number, 3);
        var posted := transport.PostRef(RefKey(j), j.prepared.headSha);
        if !posted {
          SoloEnd(config, l, j, transport.remote, Stopped, number, 2);
          return None;
        }
        out := FindOrOpenPull(l, j, number, 2);
      }
    }
  }

  /******* The whole publish call *******/

  // Both transactions with an undisturbed attempt in between.
  function PublishAlone(c: Config, db: Db, r: Remote, publicationId: Text, effectId: Text, l: Local, number: int)
        : (Db, Remote, State)
  {
    var b := AfterBegin(c, db, publicationId, effectId, l);
    if !b.1.Remoting? then (b.0, r, b.1)
    else
      var job := b.1.job;
      var a := Attempt(c, l, job, r, number);
      if !a.1.Done? || !ReceiptMatches(a.1.receipt, job.prepared, job.effect) then (b.0, a.0, Failed(RemoteRefused))
      else
        var s := AfterSettle(b.0, effectId, job, a.1.receipt);
        (s.0, a.0, s.1)
  }

  // What the publication's effect asks of the remote.
  function JobOf(db: Db, id: Text, effectId: Text): Job
    requires id in db.publications && db.publications[id].preparedHead.Some?
  {
    Job(db.publications[id].intent, db.publications[id].preparedHead.value, Wanted(effectId, id, db.publications[id]))
  }

  ghost predicate Received(db: Db, effectId: Text) { effectId in db.effects && db.effects[effectId].receipt.Some? }

  ghost predicate MayPublish(c: Config, db: Db, r: Remote, id: Text, effectId: Text, l: Local) {
    MayBegin(db, id, effectId) && (Received(db, effectId) || MayComplete(c, l, JobOf(db, id, effectId), r))
  }

  lemma BegunState(c: Config, db: Db, id: Text, effectId: Text, l: Local)
    requires Inv(db) && MayBegin(db, id, effectId)
    ensures var b := AfterBegin(c, db, id, effectId, l);
            var j := JobOf(db, id, effectId);
            if Received(db, effectId) then b == (db, Returned(effectId, db.effects[effectId].receipt.value))
            else
              && b.1 == Remoting(effectId, j, l, StartPoint(c, l, j))
              && Inv(b.0) && JobOk(b.0, effectId, j) && b.0.effects[effectId].receipt.None?
              && b.0 == db.(effects := db.effects[effectId := PublicationEffectRecord(j.effect, None)])
  {
    hide Inv, Begin, MayBegin, Extends;
    BeginExactly(db, id, effectId);
    BeginGood(db, id, effectId);
    BeginShape(db, id, effectId);
    BegunFirst(db, id, effectId);
    if effectId in db.effects && db.effects[effectId].receipt.None? {
      StoredAsWanted(db, id, effectId);
      assert db.effects[effectId := db.effects[effectId]] == db.effects;
    }
  }

  lemma BegunFirst(db: Db, id: Text, effectId: Text)
    requires MayBegin(db, id, effectId)
    ensures id in db.publications && db.publications[id].preparedHead.Some?
  {
  }

  lemma StoredAsWanted(db: Db, id: Text, effectId: Text)
    requires Inv(db) && MayBegin(db, id, effectId) && effectId in db.effects
    ensures id in db.publications && db.publications[id].preparedHead.Some?
    ensures db.effects[effectId].intent == Wanted(effectId, id, db.publications[id])
  {
    hide Inv, EffectsOk;
    EffectsHeld(db);
    EffectStored(db, effectId);
  }

  // The receipt of a delivered head is the job's own, and the ledger takes it.
  lemma DeliveredSettles(c: Config, db: Db, r: Remote, effectId: Text, j: Job, n: int)
    requires Inv(db) && JobOk(db, effectId, j) && db.effects[effectId].receipt.None?
    requires n > 0 && AboutOneHead(c, j)
    ensures var receipt := Receipt(j, n);
            && ReceiptMatches(receipt, j.prepared, j.effect)
            && AfterSettle(db, effectId, j, receipt)
               == (db.(effects := db.effects[effectId := PublicationEffectRecord(j.effect, Some(receipt))]),
                   Returned(effectId, receipt))
  {
    hide Inv, SettleReceipt, AboutOneHead;
    var receipt := Receipt(j, n);
    JobAccepted(db, effectId, j, receipt);
    EffectNamed(db, effectId);
    SettleExactly(db, effectId, j, receipt);
    OneHeadParts(c, j);
  }

  lemma EffectNamed(db: Db, effectId: Text)
    requires Inv(db) && effectId in db.effects
    ensures db.effects[effectId].intent.Accepted()
  {
    hide Inv, EffectsOk;
    EffectsHeld(db);
    EffectStored(db, effectId);
  }

  lemma OneHeadParts(c: Config, j: Job)
    requires AboutOneHead(c, j)
    ensures j.effect.publicationId == j.intent.publicationId && j.prepared.baseSha == j.intent.baseSha
  {
  }

  // An undisturbed publish call returns exactly if it may begin and either has its receipt
  // already or the remote and the local repository let it complete. Then the head is
  // delivered and the receipt stored; and whatever happens, the remote gains at most this
  // publication's branch and one pull request.
  lemma PublishExactly(c: Config, db: Db, r: Remote, id: Text, effectId: Text, l: Local, number: int)
    requires Inv(db) && number > 0
    ensures var p := PublishAlone(c, db, r, id, effectId, l, number);
            && (p.2.Returned? <==> MayPublish(c, db, r, id, effectId, l))
            && (p.2.Returned? ==>
                  if Received(db, effectId)
                  then p == (db, r, Returned(effectId, db.effects[effectId].receipt.value))
                  else
                    var j := JobOf(db, id, effectId);
                    && p.2.effectId == effectId && Delivered(c, j, p.1, p.2.receipt)
                    && p.0 == db.(effects :=
                        db.effects[effectId := PublicationEffectRecord(j.effect, Some(p.2.receipt))]))
            && (p.2 == Failed(NotBegun) <==> !MayBegin(db, id, effectId))
            && (p.2 == Failed(NotBegun) ==> p.0 == db && p.1 == r)
            && (MayBegin(db, id, effectId) ==> OnlyOwn(c, JobOf(db, id, effectId), r, p.1))
  {
    hide Inv, Begin, MayBegin, Attempt, MayComplete, Delivered, SettleReceipt, ReceiptMatches, OnlyOwn, JobOk;
    BeginExactly(db, id, effectId);
    if MayBegin(db, id, effectId) {
      BegunFirst(db, id, effectId);
      BegunState(c, db, id, effectId, l);
      var j := JobOf(db, id, effectId);
      OwnSelf(c, j, r);
      if !Received(db, effectId) {
        var d := AfterBegin(c, db, id, effectId, l).0;
        AttemptExactly(c, l, j, r, number);
        if Attempt(c, l, j, r, number).1.Done? {
          OwnReceiptDone(c, l, j, r, number);
          CompleteParts(c, l, j, r);
          DeliveredSettles(c, d, r, effectId, j, Attempt(c, l, j, r, number).1.receipt.pullRequest.value.number);
        }
      }
    }
  }

  lemma OwnSelf(c: Config, j: Job, r: Remote)
    ensures OnlyOwn(c, j, r, r)
  {
  }

  lemma CompleteParts(c: Config, l: Local, j: Job, r: Remote)
    requires MayComplete(c, l, j, r)
    ensures AboutOneHead(c, j)
  {
  }

  lemma OwnReceiptDone(c: Config, l: Local, j: Job, r: Remote, number: int)
    requires number > 0 && Attempt(c, l, j, r, number).1.Done?
    ensures var receipt := Attempt(c, l, j, r, number).1.receipt;
            && receipt.pullRequest.Some? && receipt.pullRequest.value.number > 0
            && receipt == Receipt(j, receipt.pullRequest.value.number)
  {
    hide Solo, Attempt, MayComplete, OnlyOwn, Proposes, HasRef, HasCommit;
    AttemptExactly(c, l, j, r, number);
  }

  lemma PublishSpeaks(c: Config, db: Db, r: Remote, id: Text, effectId: Text, l: Local, number: int)
    ensures var p := PublishAlone(c, db, r, id, effectId, l, number);
            && (Inv(db) && number > 0 ==> (p.2.Returned? <==> MayPublish(c, db, r, id, effectId, l)))
            && (Inv(db) && !MayBegin(db, id, effectId) ==> p == (db, r, Failed(NotBegun)))
  {
    hide Inv, MayBegin, MayPublish, Attempt, AfterSettle, ReceiptMatches, Begin;
    if Inv(db) {
      BeginExactly(db, id, effectId);
      if number > 0 { PublishExactly(c, db, r, id, effectId, l, number); }
    }
  }

  method Publish(uow: InMemoryUnitOfWork, publisher: GitHubPublicationPublisher, publicationId: Text, effectId: Text,
                 l: Local,
                 number: int) returns (out: State)
    requires uow.Settled() && publisher.transport !in uow.committed.All()
    modifies uow, publisher.transport
    ensures uow.Settled() && (uow.committed == old(uow.committed) || fresh(uow.committed.All()))
    ensures (uow.committed.View(), publisher.transport.remote, out)
         == PublishAlone(publisher.config, old(uow.committed.View()), old(publisher.transport.remote), publicationId,
                         effectId, l, number)
    ensures Inv(old(uow.committed.View())) && number > 0 ==>
      (out.Returned? <==> MayPublish(publisher.config, old(uow.committed.View()), old(publisher.transport.remote),
                                     publicationId, effectId, l))
    ensures Inv(old(uow.committed.View())) && !MayBegin(old(uow.committed.View()), publicationId, effectId) ==>
      && out == Failed(NotBegun) && uow.committed.View() == old(uow.committed.View())
      && publisher.transport.remote == old(publisher.transport.remote)
  {
    hide Maps.View, Maps.Valid, Maps.All, InMemoryUnitOfWork.Settled, Begin, Attempt, SettleReceipt, ReceiptMatches;
    hide Inv, MayBegin, MayPublish;
    PublishSpeaks(publisher.config, uow.committed.View(), publisher.transport.remote, publicationId, effectId, l,
                  number);
    var begun := BeginBlock(uow, publicationId, effectId);
    if begun.Err? { return Failed(NotBegun); }
    if begun.value.Finished? { return Returned(effectId, begun.value.receipt); }
    var job := begun.value.job;
    label Begun:
    OldOnes@Begun(uow.committed);
    assert publisher.transport !in uow.committed.All();
    var receipt := publisher.Reconcile(l, job, number);
    NoneWritten@Begun(uow.committed);
    SettledStays@Begun(uow);
    if receipt.None? || !ReceiptMatches(receipt.value, job.prepared, job.effect) { return Failed(RemoteRefused); }
    var settled := SettleBlock(uow, effectId, job, receipt.value);
    match settled
    case Settled(stored) => out := Returned(effectId, stored);
    case Rejected(why) => out := Failed(Reason.Rejected(why));
  }

  twostate lemma SettledStays(uow: InMemoryUnitOfWork)
    requires old(uow.Settled()) && unchanged(uow) && unchanged(uow.committed.events) && unchanged(uow.committed.queue)
    ensures uow.Settled()
  {
  }

  /******* It is one of the runs *******/

  function Steps(pid: nat, number: int, n: nat): seq<Action> { seq(n, _ => RemoteStep(pid, number)) }

  lemma {:induction false} RunSplit(c: Config, s: System, first: seq<Action>, rest: seq<Action>)
    ensures RunActions(c, s, first + rest) == RunActions(c, RunActions(c, s, first), rest)
    decreases |rest|
  {
    if rest == [] {
      assert first + rest == first;
    } else {
      var n := |rest| - 1;
      assert (first + rest)[..|first + rest| - 1] == first + rest[..n];
      RunSplit(c, s, first, rest[..n]);
    }
  }

  lemma RunOne(c: Config, s: System, a: Action)
    ensures RunActions(c, s, [a]) == Act(c, s, a)
  {
    assert [a][..0] == [];
  }

  // An undisturbed attempt is some number of remote steps.
  lemma {:induction false} AttemptIsSteps(c: Config, s: System, pid: nat, number: int, fuel: nat) returns (n: nat)
    requires pid in s.publishers && s.publishers[pid].Remoting?
    requires s.publishers[pid].job.intent.repositoryName in c.baseBranches
    ensures var p := s.publishers[pid];
            var end := Solo(c, p.local, p.job, s.remote, p.point, number, fuel);
            RunActions(c, s, Steps(pid, number, n))
            == System(s.db, end.0, s.publishers[pid := Remoting(p.effectId, p.job, p.local, end.1)])
    decreases fuel
  {
    hide Request;
    var p := s.publishers[pid];
    if fuel == 0 || p.point.Done? || p.point.Stopped? {
      n := 0;
      assert s.publishers[pid := p] == s.publishers;
    } else {
      var next := Request(c, p.local, p.job, s.remote, p.point, number);
      var a := RemoteStep(pid, number);
      var t := Act(c, s, a);
      assert t == System(s.db, next.0, s.publishers[pid := Remoting(p.effectId, p.job, p.local, next.1)]);
      var m := AttemptIsSteps(c, t, pid, number, fuel - 1);
      n := m + 1;
      assert Steps(pid, number, n) == [a] + Steps(pid, number, m);
      RunOne(c, s, a);
      RunSplit(c, s, [a], Steps(pid, number, m));
      var end := Solo(c, p.local, p.job, next.0, next.1, number, fuel - 1);
      assert t.publishers[pid := Remoting(p.effectId, p.job, p.local, end.1)]
          == s.publishers[pid := Remoting(p.effectId, p.job, p.local, end.1)];
    }
  }

  // The whole call, run alone, is a run of single actions; what every run keeps, it keeps.
  lemma PublishIsARun(c: Config, s: System, pid: nat, publicationId: Text, effectId: Text, l: Local, number: int)
      returns (acts: seq<Action>)
    requires pid !in s.publishers && number > 0
    ensures AllPlausible(acts)
    ensures var p := PublishAlone(c, s.db, s.remote, publicationId, effectId, l, number);
            RunActions(c, s, acts) == System(p.0, p.1, s.publishers[pid := p.2])
  {
    hide Attempt, AfterBegin, AfterSettle, ReceiptMatches, RunActions;
    var start := BeginPublish(pid, publicationId, effectId, l);
    var b := AfterBegin(c, s.db, publicationId, effectId, l);
    BegunJob(c, s.db, publicationId, effectId, l);
    var t := System(b.0, s.remote, s.publishers[pid := b.1]);
    RunOne(c, s, start);
    if !b.1.Remoting? {
      acts := [start];
    } else {
      var a := Attempt(c, l, b.1.job, s.remote, number);
      var n := WholeAttempt(c, t, pid, number);
      var end := System(b.0, a.0, t.publishers[pid := Remoting(effectId, b.1.job, l, a.1)]);
      AttemptEnds(c, l, b.1.job, s.remote, number);
      var tail := [RemoteStep(pid, number), SettleStep(pid)];
      Tail(c, end, pid, number);
      acts := [start] + (Steps(pid, number, n) + tail);
      RunSplit(c, s, [start], Steps(pid, number, n) + tail);
      RunSplit(c, t, Steps(pid, number, n), tail);
      var p := PublishAlone(c, s.db, s.remote, publicationId, effectId, l, number);
      assert end.publishers[pid := p.2] == s.publishers[pid := p.2];
    }
  }

  lemma BegunJob(c: Config, db: Db, publicationId: Text, effectId: Text, l: Local)
    ensures var b := AfterBegin(c, db, publicationId, effectId, l).1;
            b.Remoting? ==> b.effectId == effectId && b.local == l && b.point == StartPoint(c, l, b.job)
  {
    hide Begin;
  }

  lemma WholeAttempt(c: Config, t: System, pid: nat, number: int) returns (n: nat)
    requires pid in t.publishers && t.publishers[pid].Remoting?
    requires t.publishers[pid].point == StartPoint(c, t.publishers[pid].local, t.publishers[pid].job)
    ensures var p := t.publishers[pid];
            var a := Attempt(c, p.local, p.job, t.remote, number);
            RunActions(c, t, Steps(pid, number, n))
            == System(t.db, a.0, t.publishers[pid := Remoting(p.effectId, p.job, p.local, a.1)])
  {
    hide Solo, Act;
    var p := t.publishers[pid];
    if Bound(c, p.job) {
      n := AttemptIsSteps(c, t, pid, number, |p.local.changes| + 8);
    } else {
      n := 0;
      assert t.publishers[pid := p] == t.publishers;
    }
  }

  lemma AttemptEnds(c: Config, l: Local, j: Job, r: Remote, number: int)
    requires number > 0
    ensures Attempt(c, l, j, r, number).1.Done? || Attempt(c, l, j, r, number).1.Stopped?
  {
    hide Solo, Completes;
    if Bound(c, j) { AttemptDecides(c, l, j, r, number); }
  }

  // The step that leaves the remote, and the second transaction.
  lemma Tail(c: Config, s: System, pid: nat, number: int)
    requires pid in s.publishers && s.publishers[pid].Remoting?
    requires (s.publishers[pid].point.Done? || s.publishers[pid].point.Stopped?)
    ensures var p := s.publishers[pid];
            RunActions(c, s, [RemoteStep(pid, number), SettleStep(pid)])
            == if p.point.Stopped? || !ReceiptMatches(p.point.receipt, p.job.prepared, p.job.effect)
               then s.(publishers := s.publishers[pid := Failed(RemoteRefused)])
               else
                 var n := AfterSettle(s.db, p.effectId, p.job, p.point.receipt);
                 System(n.0, s.remote, s.publishers[pid := n.1])
  {
    hide AfterSettle, ReceiptMatches;
    var one := [RemoteStep(pid, number)];
    RunOne(c, s, RemoteStep(pid, number));
    RunSplit(c, s, one, [SettleStep(pid)]);
    RunOne(c, Act(c, s, RemoteStep(pid, number)), SettleStep(pid));
    assert one + [SettleStep(pid)] == [RemoteStep(pid, number), SettleStep(pid)];
    var t := Act(c, s, RemoteStep(pid, number));
    if t.publishers[pid].Settling? {
      var p := t.publishers[pid];
      Overwrite(s.publishers, pid, p, AfterSettle(t.db, p.effectId, p.job, p.receipt).1);
    }
  }
}

// What an undisturbed attempt needs, condition by condition, and what it leaves on the
// remote.

module Reconciliation {
  import opened Json
  import opened Domain
  import opened Records
  import opened Publication
  import opened GitHub

  /******* What the publisher needs *******/

  function RefOf(j: Job): Key { Key(j.intent.repositoryName, Lit("refs/heads/meta-loop/") + j.intent.publicationId) }

  // One exact head, on the publication's own branch, in a repository that is configured.
  ghost predicate AboutOneHead(c: Config, j: Job) {
    && c.enabled && j.intent.repositoryName in c.baseBranches
    && j.prepared.publicationId == j.intent.publicationId == j.effect.publicationId
    && j.prepared.patchDigest == j.intent.patchDigest && j.prepared.baseSha == j.intent.baseSha
    && j.effect.headSha == j.prepared.headSha
    && j.prepared.deterministicRef == j.effect.deterministicRef == RefOf(j).name
  }

  // The i-th pull request is from the branch to the base branch.
  ghost predicate Proposes(c: Config, j: Job, r: Remote, i: int) {
    && 0 <= i < |r.pulls| && j.intent.repositoryName in c.baseBranches
    && r.pulls[i].repository == j.intent.repositoryName
    && r.pulls[i].headRef == Lit("meta-loop/") + j.intent.publicationId
    && r.pulls[i].baseRef == c.baseBranches[j.intent.repositoryName]
  }

  // And shows the publication's base and head.
  ghost predicate Shows(j: Job, p: Pull) {
    p.number > 0 && p.baseSha == j.intent.baseSha && p.headSha == j.prepared.headSha
  }

  ghost predicate OnePullAtMost(c: Config, j: Job, r: Remote) {
    && (forall i, k | Proposes(c, j, r, i) && Proposes(c, j, r, k) :: i == k)
    && (forall i | Proposes(c, j, r, i) :: Shows(j, r.pulls[i]))
  }

  ghost predicate HasCommit(j: Job, r: Remote) {
    var k := Key(j.intent.repositoryName, j.prepared.headSha);
    k in r.commits && r.commits[k] == j.prepared.treeSha
  }

  ghost predicate HasRef(j: Job, r: Remote) { RefOf(j) in r.refs && r.refs[RefOf(j)] == j.prepared.headSha }

  // A tree entry for each change: path, mode and blob, or no blob where the path goes.
  function Line(change: Change): Entry {
    match change
    case Deleted(path, mode) => Entry(path, mode, None)
    case Written(path, mode, blobSha, _) => Entry(path, mode, Some(blobSha))
    case Unsupported => Entry([], [], None)
  }

  function Lines(changes: seq<Change>): seq<Entry> {
    seq(|changes|, i requires 0 <= i < |changes| => Line(changes[i]))
  }

  lemma {:induction false} EntriesAreLines(changes: seq<Change>)
    requires forall i | 0 <= i < |changes| :: !changes[i].Unsupported?
    ensures Entries(changes) == Lines(changes)
  {
    if changes != [] {
      EntriesAreLines(changes[..|changes| - 1]);
      assert Lines(changes) == Lines(changes[..|changes| - 1]) + [Line(changes[|changes| - 1])];
    }
  }

  // The local repository spells the head in the names the remote will give the objects.
  ghost predicate CanSpell(c: Config, l: Local, j: Job) {
    && (forall i | 0 <= i < |l.changes| ::
          !l.changes[i].Unsupported?
          && (l.changes[i].Written? ==> c.forge.blobSha(l.changes[i].content) == l.changes[i].blobSha))
    && c.forge.treeSha(l.baseTree, Lines(l.changes)) == j.prepared.treeSha
    && l.metadata.Some?
    && c.forge.commitSha(Payload(j.prepared.treeSha, j.intent.baseSha, l.metadata.value)) == j.prepared.headSha
  }

  ghost predicate MayComplete(c: Config, l: Local, j: Job, r: Remote) {
    && AboutOneHead(c, j)
    && l.tree == j.prepared.treeSha && l.parent == j.intent.baseSha
    && j.intent.repositoryName in r.tips && r.tips[j.intent.repositoryName] == j.intent.baseSha
    && OnePullAtMost(c, j, r)
    && if RefOf(j) in r.refs then HasRef(j, r) && HasCommit(j, r)
       else CanSpell(c, l, j) && (Key(j.intent.repositoryName, j.prepared.headSha) in r.commits ==> HasCommit(j, r))
  }

  lemma {:induction false} OpenMeans(c: Config, j: Job, pulls: seq<Pull>)
    requires j.intent.repositoryName in c.baseBranches
    ensures |Open(c, j, pulls)| <= 1
       <==> forall i, k | 0 <= i < k < |pulls| && Asked(c, j, pulls[i]) :: !Asked(c, j, pulls[k])
    ensures Open(c, j, pulls) == [] <==> forall i | 0 <= i < |pulls| :: !Asked(c, j, pulls[i])
    ensures forall p :: p in Open(c, j, pulls) <==> p in pulls && Asked(c, j, p)
  {
    if pulls != [] {
      var rest := pulls[1..];
      OpenMeans(c, j, rest);
      assert pulls == [pulls[0]] + rest;
      assert forall i | 0 <= i < |rest| :: rest[i] == pulls[i + 1];
      assert forall i | 0 < i < |pulls| :: pulls[i] == rest[i - 1];
      if |Open(c, j, rest)| <= 1 && (Asked(c, j, pulls[0]) ==> Open(c, j, rest) == []) {
        forall i, k | 0 <= i < k < |pulls| && Asked(c, j, pulls[i]) ensures !Asked(c, j, pulls[k]) {
          assert pulls[k] == rest[k - 1];
        }
      }
    }
  }

  lemma PullsMean(c: Config, j: Job, r: Remote)
    requires j.intent.repositoryName in c.baseBranches
    ensures OnePullAtMost(c, j, r) <==> PullsFine(c, j, r.pulls)
  {
    var pulls := r.pulls;
    hide Open;
    OpenMeans(c, j, pulls);
    forall i ensures Proposes(c, j, r, i) <==> 0 <= i < |pulls| && Asked(c, j, pulls[i]) {}
    if PullsFine(c, j, pulls) {
      forall i | Proposes(c, j, r, i) ensures Shows(j, pulls[i]) {
        assert pulls[i] in Open(c, j, pulls);
      }
      forall i, k | Proposes(c, j, r, i) && Proposes(c, j, r, k) ensures i == k {}
    }
    if OnePullAtMost(c, j, r) && Open(c, j, pulls) != [] {
      var p := Open(c, j, pulls)[0];
      assert p in Open(c, j, pulls);
      var i :| 0 <= i < |pulls| && pulls[i] == p;
      assert Proposes(c, j, r, i);
    }
  }

  lemma SpellsMeans(c: Config, l: Local, j: Job)
    ensures Spells(c, l, j) <==> CanSpell(c, l, j)
  {
    hide Entries, Lines;
    if forall i | 0 <= i < |l.changes| :: !l.changes[i].Unsupported? { EntriesAreLines(l.changes); }
  }

  lemma CompletesMeans(c: Config, l: Local, j: Job, r: Remote)
    ensures Completes(c, l, j, r) <==> MayComplete(c, l, j, r)
  {
    hide OnePullAtMost, PullsFine, Entries, Lines;
    SpellsMeans(c, l, j);
    hide Spells, CanSpell;
    if j.intent.repositoryName in c.baseBranches { PullsMean(c, j, r); }
  }

  /******* What it leaves *******/

  // The branch stands at the head with its commit, one pull request proposes it, and the
  // receipt is about that one.
  ghost predicate Delivered(c: Config, j: Job, r: Remote, receipt: PublicationReceipt) {
    && HasRef(j, r) && HasCommit(j, r)
    && receipt.publicationId == j.intent.publicationId && receipt.effectId == j.effect.effectId
    && receipt.state == RECONCILED && receipt.pullRequest.Some?
    && receipt.pullRequest.value.publicationId == j.intent.publicationId
    && receipt.pullRequest.value.baseSha == j.intent.baseSha
    && receipt.pullRequest.value.treeSha == j.prepared.treeSha
    && receipt.pullRequest.value.headSha == j.prepared.headSha
    && exists i :: Proposes(c, j, r, i) && Shows(j, r.pulls[i])
                   && r.pulls[i].number == receipt.pullRequest.value.number
  }

  // Nothing but this publication's branch, and at most one pull request from it.
  ghost predicate OnlyOwn(c: Config, j: Job, r: Remote, s: Remote) {
    && s.tips == r.tips
    && (forall k | k in r.refs :: k in s.refs && s.refs[k] == r.refs[k])
    && (forall k | k in s.refs && k !in r.refs :: k == RefOf(j) && s.refs[k] == j.prepared.headSha)
    && (s.pulls == r.pulls
        || (s.pulls != [] && s.pulls[..|s.pulls| - 1] == r.pulls && Proposes(c, j, s, |s.pulls| - 1)
            && forall i | 0 <= i < |r.pulls| :: !Proposes(c, j, r, i)))
  }

  ghost predicate Along(c: Config, j: Job, r: Remote, s: Remote, p: Point) {
    && OnlyOwn(c, j, r, s)
    && (p.AtPostRef? ==> HasCommit(j, s))
    && (p.AtKnownCommit? ==> HasRef(j, s))
    && (p.AtPulls? || p.AtPostPull? ==> HasRef(j, s) && HasCommit(j, s))
    && (p.Done? ==> Delivered(c, j, s, p.receipt))
    && (!p.Done? && !p.Stopped? ==> s.pulls == r.pulls)
  }

  lemma FoundDelivers(c: Config, j: Job, s: Remote, p: Pull)
    requires j.intent.repositoryName in c.baseBranches && HasRef(j, s) && HasCommit(j, s)
    requires p in s.pulls && Asked(c, j, p) && PullExact(c, j, p)
    ensures Delivered(c, j, s, Receipt(j, p.number))
  {
    var i :| 0 <= i < |s.pulls| && s.pulls[i] == p;
    assert Proposes(c, j, s, i);
  }

  lemma PullStep(c: Config, j: Job, r: Remote, s: Remote, number: int)
    requires j.intent.repositoryName in c.baseBranches && Along(c, j, r, s, AtPostPull)
    ensures var n := PostPull(c, j, s, number); Along(c, j, r, n.0, n.1)
  {
    hide Open, Delivered;
    OpenMeans(c, j, s.pulls);
    var n := PostPull(c, j, s, number);
    if n.0 != s {
      var p := n.0.pulls[|s.pulls|];
      assert n.0.pulls[..|n.0.pulls| - 1] == r.pulls;
      forall i | 0 <= i < |r.pulls| ensures !Proposes(c, j, r, i) {}
      if PullExact(c, j, p) { FoundDelivers(c, j, n.0, p); }
    }
  }

  lemma RequestAlong(c: Config, l: Local, j: Job, r: Remote, s: Remote, p: Point, number: int)
    requires j.intent.repositoryName in c.baseBranches && Along(c, j, r, s, p)
    ensures var n := Request(c, l, j, s, p, number); Along(c, j, r, n.0, n.1)
  {
    hide Open, Delivered, Known, PullExact;
    match p
    case AtPulls =>
      OpenMeans(c, j, s.pulls);
      if Open(c, j, s.pulls) != [] {
        var q := Open(c, j, s.pulls)[0];
        assert q in Open(c, j, s.pulls);
        if PullExact(c, j, q) { FoundDelivers(c, j, s, q); }
      }
    case AtPostPull => PullStep(c, j, r, s, number);
    case _ =>
  }

  lemma {:induction false} SoloAlong(c: Config, l: Local, j: Job, r: Remote, s: Remote, p: Point, number: int,
                                     fuel: nat)
    requires j.intent.repositoryName in c.baseBranches && Along(c, j, r, s, p)
    ensures var n := Solo(c, l, j, s, p, number, fuel); Along(c, j, r, n.0, n.1)
    decreases fuel
  {
    hide Along, Request;
    if fuel > 0 && !p.Done? && !p.Stopped? {
      RequestAlong(c, l, j, r, s, p, number);
      var n := Request(c, l, j, s, p, number);
      SoloAlong(c, l, j, r, n.0, n.1, number, fuel - 1);
    }
  }

  // From whatever earlier attempts left, an undisturbed attempt completes exactly under
  // these conditions; then the head is delivered, and the receipt says so. Whatever
  // happens, it touches only its own branch and opens at most one pull request.
  lemma AttemptExactly(c: Config, l: Local, j: Job, r: Remote, number: int)
    requires number > 0
    ensures var a := Attempt(c, l, j, r, number);
            && (a.1.Done? <==> MayComplete(c, l, j, r)) && (a.1.Done? || a.1.Stopped?)
            && (a.1.Done? ==> Delivered(c, j, a.0, a.1.receipt))
            && OnlyOwn(c, j, r, a.0)
  {
    hide Solo, Completes, Open, PullsFine, MayComplete, Delivered;
    CompletesMeans(c, l, j, r);
    if j.intent.repositoryName in c.baseBranches {
      AttemptDecides(c, l, j, r, number);
      if Completes(c, l, j, r) { CompletesFine(c, l, j, r); }
      if Bound(c, j) { SoloAlong(c, l, j, r, r, StartPoint(c, l, j), number, |l.changes| + 8); }
    } else {
      NotConfigured(c, l, j, r);
    }
  }

  lemma CompletesFine(c: Config, l: Local, j: Job, r: Remote)
    requires j.intent.repositoryName in c.baseBranches && Completes(c, l, j, r)
    ensures PullsFine(c, j, r.pulls)
  {
  }

  lemma NotConfigured(c: Config, l: Local, j: Job, r: Remote)
    requires j.intent.repositoryName !in c.baseBranches
    ensures !MayComplete(c, l, j, r) && !Bound(c, j)
  {
  }
}

// The publisher's work on the remote, one request at a time, and the remote it works on:
// objects are content-addressed, refs and pull requests are created only if absent.

module GitHub {
  import opened Json
  import opened Domain
  import opened Records
  import opened Publication

  datatype Entry = Entry(path: Text, mode: Text, sha: Option<Text>)

  // One line of the local diff, with what the local repository knows about the path.
  datatype Change =
    | Deleted(path: Text, mode: Text)
    | Written(path: Text, mode: Text, blobSha: Text, content: Text)
    | Unsupported

  datatype Payload = Payload(tree: Text, parent: Text, rest: Text)

  // What the local repository answers about the prepared head; None where reading fails.
  datatype Local = Local(tree: Text, parent: Text, baseTree: Text, changes: seq<Change>, metadata: Option<Text>)

  // How the remote names the objects it is sent.
  datatype Forge = Forge(blobSha: Text -> Text, treeSha: (Text, seq<Entry>) -> Text, commitSha: Payload -> Text)

  datatype Config = Config(enabled: bool, baseBranches: map<Text, Text>, forge: Forge)

  datatype Key = Key(repository: Text, name: Text)

  // All modelled pull requests are open.
  datatype Pull = Pull(repository: Text, number: int, baseSha: Text, baseRef: Text, headSha: Text, headRef: Text)

  datatype Remote = Remote(
    tips: map<Text, Text>,
    objects: set<Key>,
    commits: map<Key, Text>,
    refs: map<Key, Text>,
    pulls: seq<Pull>)

  /******* Names *******/

  const HEADS: Text := Lit("refs/heads/")

  function Branch(publicationId: Text): Text { Lit("meta-loop/") + publicationId }

  function RefKey(j: Job): Key { Key(j.intent.repositoryName, PublicationRef(j.intent.publicationId)) }

  function CommitKey(j: Job): Key { Key(j.intent.repositoryName, j.prepared.headSha) }

  /******* Local checks *******/

  // The input is about one exact head on the publication's own branch.
  predicate Bound(c: Config, j: Job) {
    && c.enabled
    && j.intent.repositoryName in c.baseBranches
    && j.prepared.publicationId == j.intent.publicationId
    && j.prepared.patchDigest == j.intent.patchDigest
    && j.prepared.baseSha == j.intent.baseSha
    && j.prepared.deterministicRef == PublicationRef(j.intent.publicationId)
    && j.effect.publicationId == j.intent.publicationId
    && j.effect.headSha == j.prepared.headSha
    && j.effect.deterministicRef == PublicationRef(j.intent.publicationId)
  }

  predicate LocalIntact(l: Local, j: Job) { l.tree == j.prepared.treeSha && l.parent == j.intent.baseSha }

  /******* Requests *******/

  // Where a publisher stands; each step from here makes at most one request.
  datatype Point =
    | AtBase
    | AtRef
    | AtKnownCommit
    | AtObjects(next: nat, entries: seq<Entry>)
    | AtCommit
    | AtNewCommit
    | AtPostRef
    | AtPulls
    | AtPostPull
    | Done(receipt: PublicationReceipt)
    | Stopped

  function StartPoint(c: Config, l: Local, j: Job): Point {
    if Bound(c, j) && LocalIntact(l, j) then AtBase else Stopped
  }

  function Receipt(j: Job, number: int): PublicationReceipt {
    PublicationReceipt(j.intent.publicationId, j.effect.effectId, RECONCILED,
                       Some(PullRequestReceipt(j.intent.publicationId, number, j.intent.baseSha,
                                               j.prepared.treeSha, j.prepared.headSha)))
  }

  predicate CommitExact(r: Remote, j: Job) {
    CommitKey(j) in r.commits && r.commits[CommitKey(j)] == j.prepared.treeSha
  }

  // The pull request the query asks for: this branch against the base branch.
  predicate Asked(c: Config, j: Job, p: Pull)
    requires j.intent.repositoryName in c.baseBranches
  {
    && p.repository == j.intent.repositoryName
    && p.headRef == Branch(j.intent.publicationId)
    && p.baseRef == c.baseBranches[j.intent.repositoryName]
  }

  function Open(c: Config, j: Job, pulls: seq<Pull>): seq<Pull>
    requires j.intent.repositoryName in c.baseBranches
  {
    if pulls == [] then []
    else (if Asked(c, j, pulls[0]) then [pulls[0]] else []) + Open(c, j, pulls[1..])
  }

  predicate PullExact(c: Config, j: Job, p: Pull)
    requires j.intent.repositoryName in c.baseBranches
  {
    && p.number > 0
    && p.baseSha == j.intent.baseSha
    && p.baseRef == c.baseBranches[j.intent.repositoryName]
    && p.headSha == j.prepared.headSha
    && p.headRef == Branch(j.intent.publicationId)
  }

  function Concluded(c: Config, j: Job, p: Pull): Point
    requires j.intent.repositoryName in c.baseBranches
  {
    if PullExact(c, j, p) then Done(Receipt(j, p.number)) else Stopped
  }

  function EntryOf(change: Change): Entry
    requires !change.Unsupported?
  {
    match change
    case Deleted(path, mode) => Entry(path, mode, None)
    case Written(path, mode, sha, _) => Entry(path, mode, Some(sha))
  }

  predicate Known(r: Remote, repository: Text, entries: seq<Entry>) {
    forall i | 0 <= i < |entries| :: entries[i].sha.Some? ==> Key(repository, entries[i].sha.value) in r.objects
  }

  // POST of the blobs, one by one, then of the tree.
  function PostObject(c: Config, l: Local, j: Job, r: Remote, next: nat, entries: seq<Entry>): (Remote, Point) {
    var repo := j.intent.repositoryName;
    if next < |l.changes| then
      match l.changes[next]
      case Unsupported => (r, Stopped)
      case Deleted(_, _) => (r, AtObjects(next + 1, entries + [EntryOf(l.changes[next])]))
      case Written(_, _, sha, content) =>
        var answer := c.forge.blobSha(content);
        (r.(objects := r.objects + {Key(repo, answer)}),
         if answer != sha then Stopped else AtObjects(next + 1, entries + [EntryOf(l.changes[next])]))
    else if !Known(r, repo, entries) then (r, Stopped)
    else
      var answer := c.forge.treeSha(l.baseTree, entries);
      (r.(objects := r.objects + {Key(repo, answer)}), if answer != j.prepared.treeSha then Stopped else AtCommit)
  }

  function PostCommit(c: Config, l: Local, j: Job, r: Remote): (Remote, Point) {
    var repo := j.intent.repositoryName;
    if l.metadata.None? || Key(repo, j.prepared.treeSha) !in r.objects then (r, Stopped)
    else
      var answer := c.forge.commitSha(Payload(j.prepared.treeSha, j.intent.baseSha, l.metadata.value));
      (if Key(repo, answer) in r.commits then r else r.(commits := r.commits[Key(repo, answer) := j.prepared.treeSha]),
       if answer != j.prepared.headSha then Stopped else AtNewCommit)
  }

  // POST of the ref: refused if it exists or its commit does not.
  function PostRef(j: Job, r: Remote): (Remote, Point) {
    if RefKey(j) in r.refs || CommitKey(j) !in r.commits then (r, Stopped)
    else (r.(refs := r.refs[RefKey(j) := j.prepared.headSha]), AtPulls)
  }

  // POST of the pull request: refused if one is open or the branch does not exist; the
  // remote fills in the shas it sees and a number of its choice.
  function PostPull(c: Config, j: Job, r: Remote, number: int): (Remote, Point)
    requires j.intent.repositoryName in c.baseBranches
  {
    var repo := j.intent.repositoryName;
    if RefKey(j) !in r.refs || repo !in r.tips || Open(c, j, r.pulls) != [] then (r, Stopped)
    else
      var p := Pull(repo, number, r.tips[repo], c.baseBranches[repo], r.refs[RefKey(j)],
                    Branch(j.intent.publicationId));
      (r.(pulls := r.pulls + [p]), Concluded(c, j, p))
  }

  function Request(c: Config, l: Local, j: Job, r: Remote, p: Point, number: int): (Remote, Point)
    requires j.intent.repositoryName in c.baseBranches
  {
    var repo := j.intent.repositoryName;
    match p
    case AtBase => (r, if repo in r.tips && r.tips[repo] == j.intent.baseSha then AtRef else Stopped)
    case AtRef =>
      (r, if RefKey(j) !in r.refs then AtObjects(0, [])
          else if r.refs[RefKey(j)] == j.prepared.headSha then AtKnownCommit else Stopped)
    case AtKnownCommit => (r, if CommitExact(r, j) then AtPulls else Stopped)
    case AtObjects(next, entries) => PostObject(c, l, j, r, next, entries)
    case AtCommit => PostCommit(c, l, j, r)
    case AtNewCommit => (r, if CommitExact(r, j) then AtPostRef else Stopped)
    case AtPostRef => PostRef(j, r)
    case AtPulls =>
      var open := Open(c, j, r.pulls);
      (r, if |open| > 1 then Stopped else if open == [] then AtPostPull else Concluded(c, j, open[0]))
    case AtPostPull => PostPull(c, j, r, number)
    case Done(_) => (r, p)
    case Stopped => (r, p)
  }

  /******* What no request undoes *******/

  ghost predicate RemoteGrows(r: Remote, s: Remote) {
    && s.tips == r.tips
    && r.objects <= s.objects
    && (forall k | k in r.commits :: k in s.commits && s.commits[k] == r.commits[k])
    && (forall k | k in r.refs :: k in s.refs && s.refs[k] == r.refs[k])
    && r.pulls <= s.pulls
  }

  lemma RequestGrows(c: Config, l: Local, j: Job, r: Remote, p: Point, number: int)
    requires j.intent.repositoryName in c.baseBranches
    ensures RemoteGrows(r, Request(c, l, j, r, p, number).0)
  {
    hide Open, PullExact, Known, CommitExact;
  }

  /******* An attempt that nothing disturbs *******/

  // Requests one after another, with the number the remote would choose.
  function Solo(c: Config, l: Local, j: Job, r: Remote, p: Point, number: int, fuel: nat): (Remote, Point)
    requires j.intent.repositoryName in c.baseBranches
    decreases fuel
  {
    if fuel == 0 || p.Done? || p.Stopped? then (r, p)
    else
      var next := Request(c, l, j, r, p, number);
      Solo(c, l, j, next.0, next.1, number, fuel - 1)
  }

  // The whole of it; every request is made at most once, and every change at most one.
  function Attempt(c: Config, l: Local, j: Job, r: Remote, number: int): (Remote, Point) {
    if !Bound(c, j) then (r, Stopped) else Solo(c, l, j, r, StartPoint(c, l, j), number, |l.changes| + 8)
  }

  lemma SoloStep(c: Config, l: Local, j: Job, r: Remote, p: Point, number: int, fuel: nat)
    requires j.intent.repositoryName in c.baseBranches && fuel > 0 && !p.Done? && !p.Stopped?
    ensures var next := Request(c, l, j, r, p, number);
            Solo(c, l, j, r, p, number, fuel) == Solo(c, l, j, next.0, next.1, number, fuel - 1)
  {
  }

  lemma SoloEnd(c: Config, l: Local, j: Job, r: Remote, p: Point, number: int, fuel: nat)
    requires j.intent.repositoryName in c.baseBranches && (p.Done? || p.Stopped?)
    ensures Solo(c, l, j, r, p, number, fuel) == (r, p)
  {
  }

  function Entries(changes: seq<Change>): (es: seq<Entry>)
    requires forall i | 0 <= i < |changes| :: !changes[i].Unsupported?
    ensures |es| == |changes|
  {
    if changes == [] then [] else Entries(changes[..|changes| - 1]) + [EntryOf(changes[|changes| - 1])]
  }

  // The change can be sent, and the remote would name its blob as the local repository does.
  predicate Sendable(c: Config, change: Change) {
    !change.Unsupported? && (change.Written? ==> c.forge.blobSha(change.content) == change.blobSha)
  }

  predicate AllSendable(c: Config, changes: seq<Change>) { forall i | 0 <= i < |changes| :: Sendable(c, changes[i]) }

  // The local repository spells the prepared head, in the remote's own hashing.
  predicate Spells(c: Config, l: Local, j: Job) {
    && AllSendable(c, l.changes)
    && c.forge.treeSha(l.baseTree, Entries(l.changes)) == j.prepared.treeSha
    && l.metadata.Some?
    && c.forge.commitSha(Payload(j.prepared.treeSha, j.intent.baseSha, l.metadata.value)) == j.prepared.headSha
  }

  // At most one open pull request on the branch, and that one exact.
  predicate PullsFine(c: Config, j: Job, pulls: seq<Pull>)
    requires j.intent.repositoryName in c.baseBranches
  {
    |Open(c, j, pulls)| <= 1 && (Open(c, j, pulls) != [] ==> PullExact(c, j, Open(c, j, pulls)[0]))
  }

  predicate CommitFree(j: Job, r: Remote) { CommitKey(j) in r.commits ==> CommitExact(r, j) }

  predicate BaseStands(j: Job, r: Remote) {
    j.intent.repositoryName in r.tips && r.tips[j.intent.repositoryName] == j.intent.baseSha
  }

  // What the publisher needs of the remote and the local repository.
  predicate Completes(c: Config, l: Local, j: Job, r: Remote) {
    && Bound(c, j) && LocalIntact(l, j) && BaseStands(j, r) && PullsFine(c, j, r.pulls)
    && (if RefKey(j) in r.refs then r.refs[RefKey(j)] == j.prepared.headSha && CommitExact(r, j)
        else Spells(c, l, j) && CommitFree(j, r))
  }

  lemma {:induction false} OpenAppend(c: Config, j: Job, pulls: seq<Pull>, p: Pull)
    requires j.intent.repositoryName in c.baseBranches
    ensures Open(c, j, pulls + [p]) == Open(c, j, pulls) + if Asked(c, j, p) then [p] else []
  {
    if pulls == [] {
      assert pulls + [p] == [p] && [p][1..] == [];
    } else {
      assert (pulls + [p])[1..] == pulls[1..] + [p];
      OpenAppend(c, j, pulls[1..], p);
    }
  }

  // The number of the open pull request, or of the one about to be opened.
  function Chosen(c: Config, j: Job, pulls: seq<Pull>, number: int): int
    requires j.intent.repositoryName in c.baseBranches
  {
    if Open(c, j, pulls) == [] then number else Open(c, j, pulls)[0].number
  }

  function Ending(c: Config, j: Job, pulls: seq<Pull>, number: int, good: bool): Point
    requires j.intent.repositoryName in c.baseBranches
  {
    if good && PullsFine(c, j, pulls) then Done(Receipt(j, Chosen(c, j, pulls, number))) else Stopped
  }

  // The last stretch: the branch exists at the prepared head.
  lemma FromPulls(c: Config, l: Local, j: Job, r: Remote, number: int, fuel: nat)
    requires Bound(c, j) && BaseStands(j, r) && number > 0 && fuel >= 2
    requires RefKey(j) in r.refs && r.refs[RefKey(j)] == j.prepared.headSha
    ensures Solo(c, l, j, r, AtPulls, number, fuel).1 == Ending(c, j, r.pulls, number, true)
  {
    hide Open, Solo;
    SoloStep(c, l, j, r, AtPulls, number, fuel);
    var next := Request(c, l, j, r, AtPulls, number);
    if Open(c, j, r.pulls) == [] {
      SoloStep(c, l, j, r, AtPostPull, number, fuel - 1);
      var last := Request(c, l, j, r, AtPostPull, number);
      SoloEnd(c, l, j, last.0, last.1, number, fuel - 2);
    } else {
      SoloEnd(c, l, j, r, next.1, number, fuel - 1);
    }
  }

  lemma FromPostRef(c: Config, l: Local, j: Job, r: Remote, number: int, fuel: nat)
    requires Bound(c, j) && BaseStands(j, r) && RefKey(j) !in r.refs && CommitExact(r, j) && number > 0 && fuel >= 3
    ensures Solo(c, l, j, r, AtPostRef, number, fuel).1 == Ending(c, j, r.pulls, number, true)
  {
    hide Open, Solo;
    SoloStep(c, l, j, r, AtPostRef, number, fuel);
    FromPulls(c, l, j, Request(c, l, j, r, AtPostRef, number).0, number, fuel - 1);
  }

  lemma FromCommit(c: Config, l: Local, j: Job, r: Remote, number: int, fuel: nat)
    requires Bound(c, j) && BaseStands(j, r) && RefKey(j) !in r.refs && number > 0 && fuel >= 5
    requires Key(j.intent.repositoryName, j.prepared.treeSha) in r.objects
    requires AllSendable(c, l.changes) && c.forge.treeSha(l.baseTree, Entries(l.changes)) == j.prepared.treeSha
    ensures Solo(c, l, j, r, AtCommit, number, fuel).1
         == Ending(c, j, r.pulls, number, Spells(c, l, j) && CommitFree(j, r))
  {
    hide Open, Solo, PullsFine, AllSendable;
    SoloStep(c, l, j, r, AtCommit, number, fuel);
    var next := Request(c, l, j, r, AtCommit, number);
    if Spells(c, l, j) {
      SoloStep(c, l, j, next.0, AtNewCommit, number, fuel - 1);
      if CommitFree(j, r) {
        FromPostRef(c, l, j, next.0, number, fuel - 2);
      } else {
        SoloEnd(c, l, j, next.0, Stopped, number, fuel - 2);
      }
    } else {
      SoloEnd(c, l, j, next.0, Stopped, number, fuel - 1);
    }
  }

  lemma EntriesStep(changes: seq<Change>, n: nat)
    requires n < |changes| && forall i | 0 <= i <= n :: !changes[i].Unsupported?
    ensures Entries(changes[..n + 1]) == Entries(changes[..n]) + [EntryOf(changes[n])]
  {
    assert changes[..n + 1][..n] == changes[..n];
  }

  lemma {:induction false} FromObjects(c: Config, l: Local, j: Job, r: Remote, n: nat, number: int, fuel: nat)
    requires Bound(c, j) && BaseStands(j, r) && RefKey(j) !in r.refs && number > 0
    requires n <= |l.changes| && fuel >= |l.changes| - n + 6
    requires AllSendable(c, l.changes[..n]) && Known(r, j.intent.repositoryName, Entries(l.changes[..n]))
    ensures Solo(c, l, j, r, AtObjects(n, Entries(l.changes[..n])), number, fuel).1
         == Ending(c, j, r.pulls, number, Spells(c, l, j) && CommitFree(j, r))
    decreases |l.changes| - n
  {
    hide Open, PullsFine, Solo, Bound;
    BoundRepository(c, j);
    var entries := Entries(l.changes[..n]);
    SoloStep(c, l, j, r, AtObjects(n, entries), number, fuel);
    var next := Request(c, l, j, r, AtObjects(n, entries), number);
    if n < |l.changes| {
      if Sendable(c, l.changes[n]) {
        assert forall i | 0 <= i <= n :: l.changes[..n + 1][i] == l.changes[i] && (i < n ==>
          l.changes[..n][i] == l.changes[i]);
        EntriesStep(l.changes, n);
        FromObjects(c, l, j, next.0, n + 1, number, fuel - 1);
      } else {
        SoloEnd(c, l, j, next.0, Stopped, number, fuel - 1);
      }
    } else {
      assert l.changes[..n] == l.changes;
      if next.1 == AtCommit {
        FromCommit(c, l, j, next.0, number, fuel - 1);
      } else {
        SoloEnd(c, l, j, next.0, Stopped, number, fuel - 1);
      }
    }
  }

  lemma BoundRepository(c: Config, j: Job)
    requires Bound(c, j)
    ensures j.intent.repositoryName in c.baseBranches
  {
  }

  // From whatever earlier attempts left, an undisturbed attempt ends with the receipt of
  // the one pull request exactly when Completes holds, and otherwise stops.
  lemma AttemptDecides(c: Config, l: Local, j: Job, r: Remote, number: int)
    requires number > 0 && j.intent.repositoryName in c.baseBranches
    ensures Attempt(c, l, j, r, number).1 == Ending(c, j, r.pulls, number, Completes(c, l, j, r))
  {
    hide Open, PullsFine, Solo, Spells;
    var fuel := |l.changes| + 8;
    if Bound(c, j) {
      var start := StartPoint(c, l, j);
      if start == Stopped {
        SoloEnd(c, l, j, r, start, number, fuel);
      } else {
        SoloStep(c, l, j, r, AtBase, number, fuel);
        if BaseStands(j, r) {
          FromRef(c, l, j, r, number, fuel - 1);
        } else {
          SoloEnd(c, l, j, r, Stopped, number, fuel - 1);
        }
      }
    }
  }

  lemma FromRef(c: Config, l: Local, j: Job, r: Remote, number: int, fuel: nat)
    requires Bound(c, j) && BaseStands(j, r) && number > 0 && fuel >= |l.changes| + 7
    ensures Solo(c, l, j, r, AtRef, number, fuel).1
         == Ending(c, j, r.pulls, number,
                   if RefKey(j) in r.refs then r.refs[RefKey(j)] == j.prepared.headSha && CommitExact(r, j)
                   else Spells(c, l, j) && CommitFree(j, r))
  {
    hide Open, PullsFine, Solo, Spells, Bound;
    BoundRepository(c, j);
    SoloStep(c, l, j, r, AtRef, number, fuel);
    var next := Request(c, l, j, r, AtRef, number);
    if next.1 == AtKnownCommit {
      SoloStep(c, l, j, r, AtKnownCommit, number, fuel - 1);
      if CommitExact(r, j) {
        FromPulls(c, l, j, r, number, fuel - 2);
      } else {
        SoloEnd(c, l, j, r, Stopped, number, fuel - 2);
      }
    } else if next.1 == Stopped {
      SoloEnd(c, l, j, r, Stopped, number, fuel - 1);
    } else {
      assert l.changes[..0] == [];
      FromObjects(c, l, j, r, 0, number, fuel - 1);
    }
  }

  /******* A base that moved too late *******/

  // The remote fills in the base it sees; if that is another one, the pull request is
  // there and the publisher stops.
  lemma MovedBaseOpens(c: Config, j: Job, r: Remote, number: int)
    requires Bound(c, j) && RefKey(j) in r.refs && Open(c, j, r.pulls) == [] && number > 0
    requires j.intent.repositoryName in r.tips && r.tips[j.intent.repositoryName] != j.intent.baseSha
    ensures var n := PostPull(c, j, r, number);
            && n.1 == Stopped && |n.0.pulls| == |r.pulls| + 1
            && Asked(c, j, n.0.pulls[|r.pulls|]) && n.0.pulls[|r.pulls|].baseSha != j.intent.baseSha
  {
    hide Open;
  }

  lemma {:induction false} OpenHolds(c: Config, j: Job, pulls: seq<Pull>, i: nat)
    requires j.intent.repositoryName in c.baseBranches && i < |pulls| && Asked(c, j, pulls[i])
    ensures pulls[i] in Open(c, j, pulls)
  {
    if i > 0 { OpenHolds(c, j, pulls[1..], i - 1); }
  }

  // Such a pull request stops every later attempt.
  lemma MovedBaseSticks(c: Config, l: Local, j: Job, r: Remote, i: nat, number: int)
    requires j.intent.repositoryName in c.baseBranches && number > 0
    requires i < |r.pulls| && Asked(c, j, r.pulls[i]) && r.pulls[i].baseSha != j.intent.baseSha
    ensures Attempt(c, l, j, r, number).1 == Stopped
  {
    hide Open, Completes, Attempt;
    AttemptDecides(c, l, j, r, number);
    OpenHolds(c, j, r.pulls, i);
  }
}

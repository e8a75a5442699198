// The check gate: one pass over the fetched observations, and what it decides.

module CheckGate {
  import opened Json
  import opened Domain
  import opened Records
  import opened CanonicalForms
  import opened SampleNames
  import opened Ledgers
  import opened Database
  import opened LedgerInvariants
  import opened Services
  import opened Publication

  type Observed = seq<CheckRunObservation>
  type Current = map<Text, CheckRunObservation>

  predicate Named(os: Observed, i: int, name: Text) { 0 <= i < |os| && os[i].checkName == name }

  // One observation against what has been seen so far.
  function Take(current: Current, o: CheckRunObservation, publicationId: Text, headSha: Text): Outcome<Current> {
    if o.publicationId != publicationId || o.headSha != headSha then Err(Validation)
    else if o.checkName in current && current[o.checkName].observedAt == o.observedAt then Err(Validation)
    else if o.checkName !in current || o.observedAt > current[o.checkName].observedAt
    then Ok(current[o.checkName := o])
    else Ok(current)
  }

  function Fold(os: Observed, publicationId: Text, headSha: Text): Outcome<Current> {
    if os == [] then Ok(map[])
    else
      match Fold(os[..|os| - 1], publicationId, headSha)
      case Err(e) => Err(e)
      case Ok(current) => Take(current, os[|os| - 1], publicationId, headSha)
  }

  predicate Green(current: Current, name: Text) {
    && name in current && current[name].status == CHECK_COMPLETED && current[name].conclusion == Some(SUCCESS)
  }

  predicate Verdict(current: Current, required: seq<Text>) {
    forall i | 0 <= i < |required| :: Green(current, required[i])
  }

  // The loop as the service runs it.
  method Collect(os: Observed, publicationId: Text, headSha: Text) returns (out: Outcome<Current>)
    ensures out == Fold(os, publicationId, headSha)
  {
    var current: Current := map[];
    var i := 0;
    while i < |os|
      invariant 0 <= i <= |os|
      invariant Fold(os[..i], publicationId, headSha) == Ok(current)
    {
      var o := os[i];
      assert os[..i + 1][..i] == os[..i];
      if o.publicationId != publicationId || o.headSha != headSha {
        StaysRefused(os, i + 1, publicationId, headSha);
        return Err(Validation);
      }
      if o.checkName in current && current[o.checkName].observedAt == o.observedAt {
        StaysRefused(os, i + 1, publicationId, headSha);
        return Err(Validation);
      }
      if o.checkName !in current || o.observedAt > current[o.checkName].observedAt {
        current := current[o.checkName := o];
      }
      i := i + 1;
    }
    assert os[..|os|] == os;
    out := Ok(current);
  }

  method Decide(current: Current, required: seq<Text>) returns (passed: bool)
    ensures passed == Verdict(current, required)
  {
    passed := true;
    for i := 0 to |required|
      invariant passed == forall k | 0 <= k < i :: Green(current, required[k])
    {
      passed := passed && Green(current, required[i]);
    }
  }

  lemma {:induction false} StaysRefused(os: Observed, n: nat, publicationId: Text, headSha: Text)
    requires n <= |os| && Fold(os[..n], publicationId, headSha) == Err(Validation)
    ensures Fold(os, publicationId, headSha) == Err(Validation)
    decreases |os| - n
  {
    if n == |os| {
      assert os[..n] == os;
    } else {
      assert os[..n + 1][..n] == os[..n];
      StaysRefused(os, n + 1, publicationId, headSha);
    }
  }

  /******* What an accepted fold means *******/

  // The i-th observation is strictly the latest of its name, and so the only one at its time.
  ghost predicate Latest(os: Observed, i: int) {
    0 <= i < |os| && forall k | 0 <= k < |os| && k != i && os[k].checkName == os[i].checkName ::
      os[k].observedAt < os[i].observedAt
  }

  lemma EarlierThan(os: Observed, i: int, j: int)
    requires Latest(os, i) && 0 <= j < |os| && os[j].checkName == os[i].checkName
    ensures i == j || os[j].observedAt < os[i].observedAt
  {
  }

  ghost predicate Entry(current: Current, os: Observed, name: Text, i: int) {
    name in current && Named(os, i, name) && Latest(os, i) && current[name] == os[i]
  }

  // The map holds exactly the names observed, each at its latest observation.
  ghost predicate Summarises(current: Current, os: Observed) {
    && (forall i | 0 <= i < |os| :: os[i].checkName in current)
    && (forall name | name in current :: exists i :: Entry(current, os, name, i))
  }

  lemma EntryFor(current: Current, os: Observed, name: Text) returns (i: int)
    requires Summarises(current, os) && name in current
    ensures Entry(current, os, name, i)
  {
    i :| Entry(current, os, name, i);
  }

  lemma NameIn(current: Current, os: Observed, i: int)
    requires Summarises(current, os) && 0 <= i < |os|
    ensures os[i].checkName in current
  {
  }

  ghost predicate AtMost(os: Observed, name: Text, t: Time) {
    forall k | Named(os, k, name) :: os[k].observedAt <= t
  }

  // The running maximum of the name, at the i-th observation, has that observation's time.
  ghost predicate Ties(os: Observed, i: int, j: int) {
    && 0 <= j < i < |os| && os[j].checkName == os[i].checkName && os[j].observedAt == os[i].observedAt
    && AtMost(os[..i], os[i].checkName, os[i].observedAt)
  }

  ghost predicate Tied(os: Observed, i: int) { exists j :: Ties(os, i, j) }

  ghost predicate NoTies(os: Observed) { forall i :: !Tied(os, i) }

  ghost predicate AllAt(os: Observed, publicationId: Text, headSha: Text) {
    forall i | 0 <= i < |os| :: os[i].publicationId == publicationId && os[i].headSha == headSha
  }

  // The entry of a name other than the new one stays.
  lemma EntryStays(current: Current, n: Current, os: Observed, o: CheckRunObservation, name: Text, i: int)
    requires Entry(current, os, name, i) && name in n && n[name] == current[name]
    requires name == o.checkName ==> o.observedAt < current[name].observedAt
    ensures Entry(n, os + [o], name, i)
  {
  }

  lemma EntryNew(n: Current, os: Observed, o: CheckRunObservation)
    requires o.checkName in n && n[o.checkName] == o
    requires forall k | 0 <= k < |os| && os[k].checkName == o.checkName :: os[k].observedAt < o.observedAt
    ensures Entry(n, os + [o], o.checkName, |os|)
  {
  }

  lemma TakeSummarises(current: Current, os: Observed, o: CheckRunObservation, publicationId: Text, headSha: Text)
    requires Summarises(current, os) && Take(current, o, publicationId, headSha).Ok?
    ensures Summarises(Take(current, o, publicationId, headSha).value, os + [o])
  {
    hide Entry;
    var n := Take(current, o, publicationId, headSha).value;
    forall name | name in n ensures exists i :: Entry(n, os + [o], name, i) {
      if name == o.checkName && n[name] != o {
        var i := EntryFor(current, os, name);
        EntryStays(current, n, os, o, name, i);
      } else if name == o.checkName {
        if name in current {
          var i := EntryFor(current, os, name);
          NewestOf(current, os, o, i);
        }
        EntryNew(n, os, o);
      } else {
        var i := EntryFor(current, os, name);
        EntryStays(current, n, os, o, name, i);
      }
    }
  }

  lemma NewestOf(current: Current, os: Observed, o: CheckRunObservation, i: int)
    requires Entry(current, os, o.checkName, i) && o.observedAt > current[o.checkName].observedAt
    ensures forall k | 0 <= k < |os| && os[k].checkName == o.checkName :: os[k].observedAt < o.observedAt
  {
  }

  lemma NoneSummarises()
    ensures Summarises(map[], [])
  {
  }

  lemma {:induction false} FoldSummarises(os: Observed, publicationId: Text, headSha: Text)
    requires Fold(os, publicationId, headSha).Ok?
    ensures Summarises(Fold(os, publicationId, headSha).value, os)
  {
    if os == [] {
      NoneSummarises();
    } else {
      hide Summarises, Take;
      var n := |os| - 1;
      FoldSummarises(os[..n], publicationId, headSha);
      TakeSummarises(Fold(os[..n], publicationId, headSha).value, os[..n], os[n], publicationId, headSha);
      assert os[..n] + [os[n]] == os;
    }
  }

  lemma TieFound(os: Observed, o: CheckRunObservation, current: Current, i: int)
    requires Entry(current, os, o.checkName, i) && current[o.checkName].observedAt == o.observedAt
    ensures Ties(os + [o], |os|, i)
  {
    assert (os + [o])[..|os|] == os;
    assert AtMost(os, o.checkName, o.observedAt);
  }

  lemma TieMeans(os: Observed, o: CheckRunObservation, current: Current, i: int, j: int)
    requires Entry(current, os, o.checkName, i) && Ties(os + [o], |os|, j)
    ensures current[o.checkName].observedAt == o.observedAt
  {
    assert (os + [o])[..|os|] == os;
    assert os[i].observedAt <= o.observedAt;
    EarlierThan(os, i, j);
  }

  // A refusal at the last observation is a wrong head or a tie with the running maximum.
  lemma TakeRefuses(current: Current, os: Observed, o: CheckRunObservation, publicationId: Text, headSha: Text)
    requires Summarises(current, os)
    ensures Take(current, o, publicationId, headSha).Err? <==>
      o.publicationId != publicationId || o.headSha != headSha || Tied(os + [o], |os|)
  {
    hide Summarises, Entry, Ties;
    if o.checkName in current {
      var i := EntryFor(current, os, o.checkName);
      if current[o.checkName].observedAt == o.observedAt { TieFound(os, o, current, i); }
      if j :| Ties(os + [o], |os|, j) { TieMeans(os, o, current, i, j); }
    } else if j :| Ties(os + [o], |os|, j) {
      TieNamed(os, o, j);
      NameIn(current, os, j);
    }
  }

  lemma TieNamed(os: Observed, o: CheckRunObservation, j: int)
    requires Ties(os + [o], |os|, j)
    ensures 0 <= j < |os| && os[j].checkName == o.checkName
  {
  }

  lemma TiesPrefix(os: Observed, n: nat, i: int, j: int)
    requires n <= |os| && i < n
    ensures Ties(os[..n], i, j) <==> Ties(os, i, j)
  {
    if 0 <= i { assert os[..n][..i] == os[..i]; }
  }

  lemma TiedPrefix(os: Observed, n: nat, i: int)
    requires n <= |os| && i < n
    ensures Tied(os[..n], i) <==> Tied(os, i)
  {
    hide Ties;
    if j :| Ties(os[..n], i, j) { TiesPrefix(os, n, i, j); }
    if j :| Ties(os, i, j) { TiesPrefix(os, n, i, j); }
  }

  lemma NoTiesSplit(os: Observed)
    requires os != []
    ensures NoTies(os) <==> NoTies(os[..|os| - 1]) && !Tied(os, |os| - 1)
  {
    var n := |os| - 1;
    if NoTies(os[..n]) && !Tied(os, n) {
      forall i ensures !Tied(os, i) { if i < n { TiedPrefix(os, n, i); } }
    }
    if NoTies(os) {
      forall i ensures !Tied(os[..n], i) { if i < n { TiedPrefix(os, n, i); } }
    }
  }

  lemma AllAtSplit(os: Observed, publicationId: Text, headSha: Text)
    requires os != []
    ensures AllAt(os, publicationId, headSha) <==>
      AllAt(os[..|os| - 1], publicationId, headSha)
      && os[|os| - 1].publicationId == publicationId && os[|os| - 1].headSha == headSha
  {
    if AllAt(os[..|os| - 1], publicationId, headSha) {
      forall i | 0 <= i < |os| - 1 ensures os[i].publicationId == publicationId && os[i].headSha == headSha {
        assert os[..|os| - 1][i] == os[i];
      }
    }
  }

  // The pass is accepted exactly when every observation is at the head and none ties
  // with the maximum its name had reached before it.
  lemma {:induction false} AcceptedExactly(os: Observed, publicationId: Text, headSha: Text)
    ensures Fold(os, publicationId, headSha).Ok? <==> AllAt(os, publicationId, headSha) && NoTies(os)
  {
    if os != [] {
      hide Summarises, AllAt, NoTies, Tied, Take;
      var n := |os| - 1;
      AcceptedExactly(os[..n], publicationId, headSha);
      NoTiesSplit(os);
      AllAtSplit(os, publicationId, headSha);
      if Fold(os[..n], publicationId, headSha).Ok? {
        FoldSummarises(os[..n], publicationId, headSha);
        TakeRefuses(Fold(os[..n], publicationId, headSha).value, os[..n], os[n], publicationId, headSha);
        assert os[..n] + [os[n]] == os;
      }
    }
  }

  // The name's strictly latest observation is a completed success.
  ghost predicate LatestGreen(os: Observed, name: Text) {
    exists i :: Named(os, i, name) && Latest(os, i)
                && os[i].status == CHECK_COMPLETED && os[i].conclusion == Some(SUCCESS)
  }

  // The gate passes exactly when each required name's latest observation is a completed success.
  lemma GateMeaning(os: Observed, publicationId: Text, headSha: Text, required: seq<Text>)
    requires Fold(os, publicationId, headSha).Ok?
    ensures Verdict(Fold(os, publicationId, headSha).value, required)
       <==> forall r | 0 <= r < |required| :: LatestGreen(os, required[r])
  {
    hide Summarises, Green, LatestGreen, Fold;
    FoldSummarises(os, publicationId, headSha);
    var current := Fold(os, publicationId, headSha).value;
    forall r | 0 <= r < |required| ensures Green(current, required[r]) <==> LatestGreen(os, required[r]) {
      NameMeaning(current, os, required[r]);
    }
  }

  lemma LatestUnique(os: Observed, i: int, j: int, name: Text)
    requires Named(os, i, name) && Named(os, j, name) && Latest(os, i) && Latest(os, j)
    ensures i == j
  {
  }

  lemma NameMeaning(current: Current, os: Observed, name: Text)
    requires Summarises(current, os)
    ensures Green(current, name) <==> LatestGreen(os, name)
  {
    hide Summarises, Latest;
    if name in current {
      var k := EntryFor(current, os, name);
      forall i | Named(os, i, name) && Latest(os, i) ensures i == k { LatestUnique(os, i, k, name); }
    } else if LatestGreen(os, name) {
      var i :| Named(os, i, name);
      NameIn(current, os, i);
    }
  }

  /******* Order *******/

  // Two accepted orders of the same observations are summed up alike, so they decide alike.
  lemma OrderDoesNotDecide(os: Observed, ps: Observed, publicationId: Text, headSha: Text)
    requires multiset(os) == multiset(ps)
    requires Fold(os, publicationId, headSha).Ok? && Fold(ps, publicationId, headSha).Ok?
    ensures Fold(os, publicationId, headSha) == Fold(ps, publicationId, headSha)
  {
    hide Summarises, Fold;
    var c, d := Fold(os, publicationId, headSha).value, Fold(ps, publicationId, headSha).value;
    FoldSummarises(os, publicationId, headSha);
    FoldSummarises(ps, publicationId, headSha);
    forall name | name in c || name in d ensures name in c && name in d && c[name] == d[name] {
      if name in c { Covers(c, d, os, ps, name); } else { Covers(d, c, ps, os, name); }
    }
    assert c == d;
  }

  lemma Elsewhere(os: Observed, ps: Observed, i: int) returns (m: int)
    requires multiset(os) == multiset(ps) && 0 <= i < |os|
    ensures 0 <= m < |ps| && ps[m] == os[i]
  {
    assert os[i] in multiset(ps);
    m :| 0 <= m < |ps| && ps[m] == os[i];
  }

  lemma Covers(c: Current, d: Current, os: Observed, ps: Observed, name: Text)
    requires Summarises(c, os) && Summarises(d, ps) && multiset(os) == multiset(ps) && name in c
    ensures name in d && d[name] == c[name]
  {
    hide Summarises;
    var i := EntryFor(c, os, name);
    var m := Elsewhere(os, ps, i);
    NameIn(d, ps, m);
    var j := EntryFor(d, ps, name);
    var n := Elsewhere(ps, os, j);
    EarlierThan(os, i, n);
    EarlierThan(ps, j, m);
  }

  lemma FoldAdd(os: Observed, o: CheckRunObservation, publicationId: Text, headSha: Text)
    ensures Fold(os + [o], publicationId, headSha)
         == if Fold(os, publicationId, headSha).Err? then Fold(os, publicationId, headSha)
            else Take(Fold(os, publicationId, headSha).value, o, publicationId, headSha)
  {
    assert (os + [o])[..|os|] == os;
  }

  // Acceptance itself depends on the order: a duplicate below the maximum is seen only
  // before the maximum.
  lemma OrderDecidesAcceptance() returns (os: Observed, ps: Observed)
    ensures multiset(os) == multiset(ps) && forall o | o in os :: o.Accepted()
    ensures Fold(os, T, ZeroSha()).Err? && Fold(ps, T, ZeroSha()).Ok?
  {
    hide Fold;
    var id := T;
    var early := CheckRunObservation(id, ZeroSha(), R, QUEUED, None, 1);
    var late := early.(observedAt := 2);
    os, ps := [] + [early] + [early] + [late], [] + [late] + [early] + [early];
    FoldNone(id, ZeroSha());
    FoldAdd([], early, id, ZeroSha());
    FoldAdd([] + [early], early, id, ZeroSha());
    FoldAdd([] + [early] + [early], late, id, ZeroSha());
    FoldAdd([], late, id, ZeroSha());
    FoldAdd([] + [late], early, id, ZeroSha());
    FoldAdd([] + [late] + [early], early, id, ZeroSha());
    NamesAccepted();
  }

  lemma FoldNone(publicationId: Text, headSha: Text)
    ensures Fold([], publicationId, headSha) == Ok(map[])
  {
  }

  /******* The two transactions *******/

  // The verdict and the database after the call, given the database each transaction found.
  function Check(first: Db, second: Db, publicationId: Text, effectId: Text, os: Observed, required: seq<Text>)
        : Step<CheckGateResult>
  {
    match ValidatedState(first, publicationId, effectId)
    case Err(e) => Step(second, Err(e))
    case Ok((record, effect)) =>
      var head := record.preparedHead.value.headSha;
      match Fold(os, publicationId, head)
      case Err(e) => Step(second, Err(e))
      case Ok(current) =>
        var s := RecordChecks(second, publicationId, effectId, head, effect.intent.Canonical(), os);
        if s.out.Err? then Step(second, Err(s.out.error))
        else Step(s.db, Ok(CheckGateResult(publicationId, head, required, Verdict(current, required))))
  }

  // Whatever ran between the two transactions, the publication and effect they validate
  // are the same: the guard against a change in between cannot fire.
  lemma NothingDrifts(first: Db, second: Db, publicationId: Text, effectId: Text)
    requires Inv(first) && Good(first, second)
    requires ValidatedState(first, publicationId, effectId).Ok?
    ensures ValidatedState(second, publicationId, effectId)
         == if second.fuse.engaged then Err(Validation) else ValidatedState(first, publicationId, effectId)
  {
    hide Inv;
    assert Later(first.publications[publicationId], second.publications[publicationId]);
  }

  /******* The append loop *******/

  // The same check at the same time, with another text.
  ghost predicate Contradicts(o: CheckRunObservation, p: CheckRunObservation) {
    KeyOf(o) == KeyOf(p) && o.Canonical() != p.Canonical()
  }

  // The i-th observation contradicts the one stored at its key.
  ghost predicate ClashesStored(m: Observations, os: Observed, i: int)
    requires 0 <= i < |os|
  {
    KeyOf(os[i]) in m && m[KeyOf(os[i])].Canonical() != os[i].Canonical()
  }

  // The i-th observation contradicts one fetched before it.
  ghost predicate ClashesFetched(os: Observed, i: int)
    requires 0 <= i < |os|
  {
    exists j | 0 <= j < i :: Contradicts(os[j], os[i])
  }

  ghost predicate NoClash(m: Observations, os: Observed) {
    forall i | 0 <= i < |os| :: !ClashesStored(m, os, i) && !ClashesFetched(os, i)
  }

  ghost predicate AllHeads(p: Publications, os: Observed) {
    forall i | 0 <= i < |os| :: HeadIs(p, os[i].publicationId, os[i].headSha)
  }

  // What the first append leaves for the others to clash with.
  lemma ClashRest(m: Observations, p: Publications, os: Observed, i: nat)
    requires 0 < i < |os| && HeadIs(p, os[0].publicationId, os[0].headSha) && !ClashesStored(m, os, 0)
    ensures var n, rest := ObservationAppend(m, p, os[0]).m, os[1..];
            ClashesStored(n, rest, i - 1) || ClashesFetched(rest, i - 1) <==>
              ClashesStored(m, os, i) || ClashesFetched(os, i)
  {
    hide CheckRunObservation.Canonical;
    var rest := os[1..];
    if j :| 0 <= j < i && Contradicts(os[j], os[i]) {
      if j > 0 { assert Contradicts(rest[j - 1], rest[i - 1]); }
    }
    if j :| 0 <= j < i - 1 && Contradicts(rest[j], rest[i - 1]) {
      assert Contradicts(os[j + 1], os[i]);
    }
    if ClashesStored(ObservationAppend(m, p, os[0]).m, rest, i - 1) && !ClashesStored(m, os, i) {
      assert Contradicts(os[0], os[i]);
    }
  }

  lemma NoClashRest(m: Observations, p: Publications, os: Observed)
    requires os != [] && AllHeads(p, os) && !ClashesStored(m, os, 0)
    ensures NoClash(m, os) <==> NoClash(ObservationAppend(m, p, os[0]).m, os[1..])
  {
    hide CheckRunObservation.Canonical, ClashesStored, ClashesFetched, ObservationAppend;
    var n := ObservationAppend(m, p, os[0]).m;
    assert !ClashesFetched(os, 0) by { FirstIsFree(os); }
    forall i | 0 < i < |os|
      ensures ClashesStored(n, os[1..], i - 1) || ClashesFetched(os[1..], i - 1)
         <==> ClashesStored(m, os, i) || ClashesFetched(os, i)
    {
      ClashRest(m, p, os, i);
    }
    if NoClash(n, os[1..]) {
      forall i | 0 <= i < |os| ensures !ClashesStored(m, os, i) && !ClashesFetched(os, i) {
        if i > 0 { assert !ClashesStored(n, os[1..], i - 1) && !ClashesFetched(os[1..], i - 1); }
      }
    }
    if NoClash(m, os) {
      forall i | 0 <= i < |os[1..]| ensures !ClashesStored(n, os[1..], i) && !ClashesFetched(os[1..], i) {
        assert !ClashesStored(m, os, i + 1) && !ClashesFetched(os, i + 1);
      }
    }
  }

  lemma FirstIsFree(os: Observed)
    requires os != []
    ensures !ClashesFetched(os, 0)
  {
  }

  // For observations of known heads the loop gets through exactly when none of them
  // contradicts a stored one or one that came before it.
  lemma {:induction false} AppendsExactly(db: Db, os: Observed)
    requires AllHeads(db.publications, os)
    ensures AppendObservations(db, os).out.Ok? <==> NoClash(db.observations, os)
    decreases |os|
  {
    hide CheckRunObservation.Canonical, ClashesFetched;
    if os != [] {
      var a := db.AppendObservation(os[0]);
      if ClashesStored(db.observations, os, 0) {
        assert a.out.Err?;
      } else {
        assert AllHeads(a.db.publications, os[1..]);
        AppendsExactly(a.db, os[1..]);
        NoClashRest(db.observations, db.publications, os);
      }
    }
  }

  lemma {:induction false} FoldedAtHead(os: Observed, publicationId: Text, headSha: Text)
    requires Fold(os, publicationId, headSha).Ok?
    ensures AllAt(os, publicationId, headSha)
  {
    AcceptedExactly(os, publicationId, headSha);
  }

  lemma HeadStays(first: Db, second: Db, publicationId: Text, effectId: Text, os: Observed)
    requires Good(first, second) && ValidatedState(first, publicationId, effectId).Ok?
    requires AllAt(os, publicationId, first.publications[publicationId].preparedHead.value.headSha)
    ensures AllHeads(second.publications, os)
  {
    hide Inv;
    assert Later(first.publications[publicationId], second.publications[publicationId]);
  }

  // Once the fold has accepted the fetched observations, the second transaction is refused
  // exactly for the fuse, or for an observation that contradicts a stored one or one
  // fetched before it.
  lemma OnlyFuseOrConflict(first: Db, second: Db, publicationId: Text, effectId: Text, os: Observed,
                           required: seq<Text>)
    requires Inv(first) && Good(first, second) && ValidatedState(first, publicationId, effectId).Ok?
    requires Fold(os, publicationId, first.publications[publicationId].preparedHead.value.headSha).Ok?
    ensures Check(first, second, publicationId, effectId, os, required).out.Ok?
       <==> !second.fuse.engaged && NoClash(second.observations, os)
  {
    hide Inv, Extends, Fold, AppendObservations, NoClash, AllHeads, AllAt;
    NothingDrifts(first, second, publicationId, effectId);
    FoldedAtHead(os, publicationId, first.publications[publicationId].preparedHead.value.headSha);
    HeadStays(first, second, publicationId, effectId, os);
    AppendsExactly(second, os);
  }

  // Two observations of one check at one time, below its latest.
  function LateDuplicates(publicationId: Text, headSha: Text): Observed {
    var o := CheckRunObservation(publicationId, headSha, R, QUEUED, None, 1);
    [] + [o.(observedAt := 2)] + [o] + [o.(status := IN_PROGRESS)]
  }

  lemma DuplicatesFold(publicationId: Text, headSha: Text)
    ensures Fold(LateDuplicates(publicationId, headSha), publicationId, headSha).Ok?
  {
    hide Fold;
    var o := CheckRunObservation(publicationId, headSha, R, QUEUED, None, 1);
    FoldNone(publicationId, headSha);
    FoldAdd([], o.(observedAt := 2), publicationId, headSha);
    FoldAdd([] + [o.(observedAt := 2)], o, publicationId, headSha);
    FoldAdd([] + [o.(observedAt := 2)] + [o], o.(status := IN_PROGRESS), publicationId, headSha);
  }

  // For every published head there are observations that the fold accepts and the ledger
  // refuses whatever it holds.
  lemma FetchedConflict(first: Db, second: Db, p: PublicationRecord, e: PublicationEffectRecord, h: PreparedHead,
                        required: seq<Text>)
    requires Inv(first) && Good(first, second) && p.preparedHead == Some(h)
    requires ValidatedState(first, p.intent.publicationId, e.intent.effectId) == Ok((p, e))
    ensures var os := LateDuplicates(p.intent.publicationId, h.headSha);
            && (forall i | 0 <= i < |os| :: os[i].Accepted())
            && Fold(os, p.intent.publicationId, h.headSha).Ok? && ClashesFetched(os, 2)
            && Check(first, second, p.intent.publicationId, e.intent.effectId, os, required).out.Err?
  {
    hide Inv, Extends, Fold, Check, CheckRunObservation.Canonical, Identifier, Sha, SuccessfullyVerified, ReconciledTo;
    var id := p.intent.publicationId;
    var os := LateDuplicates(id, h.headSha);
    DuplicatesFold(id, h.headSha);
    HeadNamed(first, id);
    NamesAccepted();
    ObservationsDetermined(os[1], os[2]);
    assert Contradicts(os[1], os[2]);
    OnlyFuseOrConflict(first, second, id, e.intent.effectId, os, required);
  }

  lemma HeadNamed(db: Db, id: Text)
    requires Inv(db) && id in db.publications && db.publications[id].preparedHead.Some?
    ensures Identifier(id) && Sha(db.publications[id].preparedHead.value.headSha, 40)
  {
    hide EventsOk, SourcesOk, WorkspacesOk, ApprovalsOk, EffectsOk, ObservationsOk, Identifier, Sha;
    assert PublicationOk(db.artifacts, db.sessions, db.results, id, db.publications[id]);
  }

  // The verdict is a function of the fetched observations alone: what was stored before
  // does not change it.
  lemma StoredObservationsAreIgnored(first: Db, second: Db, other: Observations, publicationId: Text, effectId: Text,
                                     os: Observed, required: seq<Text>)
    requires Check(first, second, publicationId, effectId, os, required).out.Ok?
    requires Check(first.(observations := other), second.(observations := other), publicationId, effectId, os,
                   required).out.Ok?
    ensures Check(first, second, publicationId, effectId, os, required).out
         == Check(first.(observations := other), second.(observations := other), publicationId, effectId, os,
                  required).out
  {
    hide Fold, AppendObservations;
  }
}

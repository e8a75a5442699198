// Records that differ and have one canonical text: which texts have a second spelling in
// UTF-16, and which worker results and runner requests therefore have a twin.

module Twins {
  import opened Json
  import opened JsonInjective
  import opened Domain
  import opened Records
  import opened CanonicalForms
  import opened Ledgers
  import opened SampleNames
  import SqlStores

  /******* Texts *******/

  predicate IsHigh(c: CodePoint) { 0xD800 <= c <= 0xDBFF }

  predicate IsLow(c: CodePoint) { 0xDC00 <= c <= 0xDFFF }

  predicate PairAt(s: Text, i: int) { 0 <= i < |s| - 1 && IsHigh(s[i]) && IsLow(s[i + 1]) }

  // Two lone surrogates in a row that spell one code point.
  predicate Paired(s: Text) { exists i | 0 <= i < |s| :: PairAt(s, i) }

  // A code point outside the basic plane.
  predicate Astral(s: Text) { exists i | 0 <= i < |s| :: s[i] >= 0x10000 }

  predicate Ambiguous(s: Text) { Paired(s) || Astral(s) }

  ghost predicate SameSpelling(s: Text, t: Text) { s != t && Utf16(s) == Utf16(t) }

  function Joined(h: CodePoint, l: CodePoint): CodePoint
    requires IsHigh(h) && IsLow(l)
  {
    0x10000 + (h - 0xD800) * 0x400 + (l - 0xDC00)
  }

  lemma JoinedSplits(h: CodePoint, l: CodePoint)
    requires IsHigh(h) && IsLow(l)
    ensures Utf16([Joined(h, l)]) == [h, l] == Utf16([h, l])
  {
    assert [Joined(h, l)][1..] == [] && [h, l][1..] == [l] && [l][1..] == [];
    assert Utf16([l]) == [l];
  }

  lemma Spliced(p: Text, a: Text, b: Text, q: Text)
    requires Utf16(a) == Utf16(b)
    ensures Utf16(p + a + q) == Utf16(p + b + q)
  {
    Utf16Concat(p + a, q);
    Utf16Concat(p + b, q);
    Utf16Concat(p, a);
    Utf16Concat(p, b);
  }

  // A pair of surrogates may be joined.
  lemma Shortened(s: Text) returns (t: Text)
    requires Paired(s)
    ensures SameSpelling(s, t) && |t| == |s| - 1 && t != []
  {
    var i :| 0 <= i < |s| && PairAt(s, i);
    var c := Joined(s[i], s[i + 1]);
    JoinedSplits(s[i], s[i + 1]);
    t := s[..i] + [c] + s[i + 2..];
    assert s == s[..i] + [s[i], s[i + 1]] + s[i + 2..];
    Spliced(s[..i], [c], [s[i], s[i + 1]], s[i + 2..]);
  }

  // A code point outside the basic plane may be split.
  lemma Lengthened(s: Text) returns (t: Text)
    requires Astral(s)
    ensures SameSpelling(s, t) && |t| == |s| + 1
  {
    var i :| 0 <= i < |s| && s[i] >= 0x10000;
    var pair: Text := [High(s[i]), Low(s[i])];
    JoinedSplits(High(s[i]), Low(s[i]));
    t := s[..i] + pair + s[i + 1..];
    assert s == s[..i] + [s[i]] + s[i + 1..];
    assert Utf16([s[i]]) == pair by { assert [s[i]][1..] == []; }
    Spliced(s[..i], pair, [s[i]], s[i + 1..]);
  }

  lemma UnitsFirst(s: Text)
    requires s != []
    ensures |Utf16(s)| >= 1 && Utf16(s)[0] == if s[0] < 0x10000 then s[0] else High(s[0])
    ensures if s[0] < 0x10000 then Utf16(s)[1..] == Utf16(s[1..])
            else |Utf16(s)| >= 2 && Utf16(s)[1] == Low(s[0]) && Utf16(s)[2..] == Utf16(s[1..])
  {
  }

  lemma UnpairedTail(s: Text)
    requires s != [] && !Paired(s)
    ensures !Paired(s[1..])
  {
    if Paired(s[1..]) {
      var i :| 0 <= i < |s[1..]| && PairAt(s[1..], i);
      assert PairAt(s, i + 1);
    }
  }

  // A text without pairs is its own shortest spelling.
  lemma {:induction false} Shortest(s: Text, t: Text)
    requires !Paired(s) && Utf16(s) == Utf16(t)
    ensures s == t || |t| > |s|
    decreases |t|
  {
    if s != [] && t != [] {
      UnpairedTail(s);
      UnitsFirst(s);
      UnitsFirst(t);
      if (s[0] >= 0x10000) == (t[0] >= 0x10000) {
        Shortest(s[1..], t[1..]);
      } else if s[0] >= 0x10000 {
        UnitsFirst(t[1..]);
        assert t[1] == Low(s[0]) && Utf16(t[2..]) == Utf16(s[1..]) by {
          assert t[1..][0] == t[1] && t[1..][1..] == t[2..];
        }
        Shortest(s[1..], t[2..]);
      } else {
        UnitsFirst(s[1..]);
        assert PairAt(s, 0);
        assert false;
      }
    } else if s == [] && t != [] {
      UnitsFirst(t);
    }
  }

  lemma {:induction false} BasicUnits(s: Text)
    requires !Astral(s)
    ensures Utf16(s) == s
  {
    if s != [] {
      assert s[0] < 0x10000;
      assert forall i | 0 <= i < |s[1..]| :: s[1..][i] == s[i + 1];
      BasicUnits(s[1..]);
    }
  }

  lemma {:induction false} AstralShrinks(s: Text)
    ensures |Utf16(s)| >= |s| && (Astral(s) ==> |Utf16(s)| > |s|)
  {
    if s != [] {
      AstralShrinks(s[1..]);
      if Astral(s) && s[0] < 0x10000 {
        var i :| 0 <= i < |s| && s[i] >= 0x10000;
        assert s[1..][i - 1] == s[i];
      }
    }
  }

  lemma OneSpelling(s: Text, t: Text)
    requires !Ambiguous(s)
    ensures !SameSpelling(s, t)
  {
    if Utf16(s) == Utf16(t) {
      Shortest(s, t);
      BasicUnits(s);
      AstralShrinks(t);
    }
  }

  // Which texts another text spells, and with how many code points.
  lemma SpellingsOf(s: Text, n: nat)
    requires |s| <= n
    ensures (exists t :: SameSpelling(s, t) && |t| <= n && t != []) <==> Paired(s) || (Astral(s) && |s| < n)
  {
    hide Paired, Astral;
    if Paired(s) {
      var t := Shortened(s);
    } else if Astral(s) {
      if |s| < n { var t := Lengthened(s); }
      forall t | SameSpelling(s, t) ensures |t| > |s| { Shortest(s, t); }
    } else {
      forall t ensures !SameSpelling(s, t) { OneSpelling(s, t); }
    }
  }

  lemma AnySpelling(s: Text)
    ensures (exists t :: SameSpelling(s, t) && t != []) <==> Ambiguous(s)
  {
    hide Paired, Astral;
    if t :| SameSpelling(s, t) && t != [] {
      SpellingsOf(s, |s| + |t|);
    }
    if Ambiguous(s) {
      SpellingsOf(s, |s| + 1);
      var t :| SameSpelling(s, t) && |t| <= |s| + 1 && t != [];
    }
  }

  lemma PlainIsUnpaired(s: Text)
    requires Plain(s)
    ensures !Paired(s)
  {
  }

  /******* Worker results *******/

  predicate PlainResult(r: WorkerResult) {
    Plain(r.resultId) && Plain(r.sessionId) && Plain(r.taskId) && Plain(r.worker.workerId) && Plain(r.summary)
  }

  // Between results without surrogate code points, replay accepts exactly the same result.
  lemma PlainResultsDetermined(a: WorkerResult, b: WorkerResult)
    requires PlainResult(a) && PlainResult(b)
    ensures a.Canonical() == b.Canonical() <==> a == b
  {
    ResultsDetermined(a, b);
    if ResultUnits(a) == ResultUnits(b) {
      PlainField(a.resultId, b.resultId);
      PlainField(a.sessionId, b.sessionId);
      PlainField(a.taskId, b.taskId);
      PlainField(a.worker.workerId, b.worker.workerId);
      PlainField(a.summary, b.summary);
    }
  }

  ghost predicate ResultTwin(a: WorkerResult, b: WorkerResult) {
    a.Accepted() && b.Accepted() && a != b && a.Canonical() == b.Canonical()
  }

  predicate TwinnedResult(a: WorkerResult) {
    || Ambiguous(a.resultId) || Ambiguous(a.sessionId) || Ambiguous(a.taskId) || Ambiguous(a.worker.workerId)
    || Paired(a.summary) || (Astral(a.summary) && |a.summary| < 512)
  }

  // An accepted result shares its text with another one exactly when one of its strings
  // has a second spelling; a summary's must still fit in 512 code points.
  lemma ResultTwins(a: WorkerResult)
    requires a.Accepted()
    ensures (exists b :: ResultTwin(a, b)) <==> TwinnedResult(a)
  {
    hide Ambiguous, Paired, Astral, SameSpelling, WorkerResult.Canonical;
    if TwinnedResult(a) { var b := TwinOfResult(a); }
    if b :| ResultTwin(a, b) { TwinnedBy(a, b); }
  }

  lemma TwinnedBy(a: WorkerResult, b: WorkerResult)
    requires ResultTwin(a, b)
    ensures TwinnedResult(a)
  {
    hide Ambiguous, Paired, Astral, WorkerResult.Canonical;
    ResultsDetermined(a, b);
    AnySpelling(a.resultId);
    AnySpelling(a.sessionId);
    AnySpelling(a.taskId);
    AnySpelling(a.worker.workerId);
    SpellingsOf(a.summary, 512);
    assert a.resultId == b.resultId || SameSpelling(a.resultId, b.resultId);
    assert a.sessionId == b.sessionId || SameSpelling(a.sessionId, b.sessionId);
    assert a.taskId == b.taskId || SameSpelling(a.taskId, b.taskId);
    assert a.worker.workerId == b.worker.workerId || SameSpelling(a.worker.workerId, b.worker.workerId);
    assert a.summary == b.summary || SameSpelling(a.summary, b.summary);
  }

  lemma TwinOfResult(a: WorkerResult) returns (b: WorkerResult)
    requires a.Accepted() && TwinnedResult(a)
    ensures ResultTwin(a, b)
  {
    hide Utf16, Ambiguous, Paired, Astral, WorkerResult.Canonical;
    AnySpelling(a.resultId);
    AnySpelling(a.sessionId);
    AnySpelling(a.taskId);
    AnySpelling(a.worker.workerId);
    SpellingsOf(a.summary, 512);
    if Ambiguous(a.resultId) {
      var t :| SameSpelling(a.resultId, t) && t != [];
      b := a.(resultId := t);
    } else if Ambiguous(a.sessionId) {
      var t :| SameSpelling(a.sessionId, t) && t != [];
      b := a.(sessionId := t);
    } else if Ambiguous(a.taskId) {
      var t :| SameSpelling(a.taskId, t) && t != [];
      b := a.(taskId := t);
    } else if Ambiguous(a.worker.workerId) {
      var t :| SameSpelling(a.worker.workerId, t) && t != [];
      b := a.(worker := a.worker.(workerId := t));
    } else {
      var t :| SameSpelling(a.summary, t) && |t| <= 512 && t != [];
      b := a.(summary := t);
    }
    ResultsDetermined(a, b);
  }

  // U+1F600 as one code point and as two lone surrogates.
  const SMILE: Text := [0x1F600]
  const PIECES: Text := [0xD83D, 0xDE00]

  lemma SmileIsPieces()
    ensures SameSpelling(SMILE, PIECES)
  {
    SurrogatePairCollision();
    EncodeInjective(Str(SMILE), Str(PIECES));
  }

  lemma ResultsCollide() returns (a: WorkerResult, b: WorkerResult)
    ensures ResultTwin(a, b) && a.summary == SMILE && b == a.(summary := PIECES)
  {
    a := WorkerResult(Lit("r"), Lit("s"), Lit("t"), WorkerIdentity(Lit("w"), IMPLEMENTER), PREFLIGHT, SMILE, 0, 0);
    b := a.(summary := PIECES);
    SmileIsPieces();
    ResultsDetermined(a, b);
  }

  /******* Runner requests *******/

  ghost predicate Constructed(r: RunnerSessionRequest) {
    r.Accepted() && forall i | 0 <= i < |r.inputArtifacts| :: ArtifactAccepted(r.inputArtifacts[i])
  }

  predicate PlainRequest(r: RunnerSessionRequest) {
    && Plain(r.sessionId) && Plain(r.taskId) && Plain(r.correlationId)
    && forall i | 0 <= i < |r.inputArtifacts| :: Plain(r.inputArtifacts[i].mediaType)
  }

  lemma ArtifactSpelling(a: ArtifactRef, b: ArtifactRef)
    requires ArtifactAccepted(a) && ArtifactAccepted(b) && UnitsOf(a) == UnitsOf(b)
    ensures b == a.(mediaType := b.mediaType) && Utf16(a.mediaType) == Utf16(b.mediaType)
  {
    ShaField(a.digest, b.digest, 64);
    PlainField(a.logicalName, b.logicalName);
  }

  lemma ArtifactsSpelling(s: seq<ArtifactRef>, t: seq<ArtifactRef>, i: nat)
    requires AllUnits(s) == AllUnits(t) && i < |s|
    ensures |s| == |t| && UnitsOf(s[i]) == UnitsOf(t[i])
  {
    assert |AllUnits(s)| == |s| && |AllUnits(t)| == |t|;
    assert AllUnits(s)[i] == AllUnits(t)[i];
  }

  lemma PlainRequestsDetermined(a: RunnerSessionRequest, b: RunnerSessionRequest)
    requires Constructed(a) && Constructed(b) && PlainRequest(a) && PlainRequest(b)
    ensures a.Canonical() == b.Canonical() <==> a == b
  {
    hide RunnerSessionRequest.Canonical, ArtifactAccepted, Plain;
    RequestsDetermined(a, b);
    if RequestUnits(a) == RequestUnits(b) {
      PlainField(a.sessionId, b.sessionId);
      PlainField(a.taskId, b.taskId);
      PlainField(a.correlationId, b.correlationId);
      assert |AllUnits(a.inputArtifacts)| == |a.inputArtifacts| && |AllUnits(b.inputArtifacts)| == |b.inputArtifacts|;
      forall i | 0 <= i < |a.inputArtifacts| ensures a.inputArtifacts[i] == b.inputArtifacts[i] {
        ArtifactsSpelling(a.inputArtifacts, b.inputArtifacts, i);
        ArtifactSpelling(a.inputArtifacts[i], b.inputArtifacts[i]);
        PlainField(a.inputArtifacts[i].mediaType, b.inputArtifacts[i].mediaType);
      }
    }
  }

  ghost predicate RequestTwin(a: RunnerSessionRequest, b: RunnerSessionRequest) {
    Constructed(a) && Constructed(b) && a != b && a.Canonical() == b.Canonical()
  }

  predicate TwinnedRequest(a: RunnerSessionRequest) {
    || Ambiguous(a.sessionId) || Ambiguous(a.taskId) || Ambiguous(a.correlationId)
    || exists i | 0 <= i < |a.inputArtifacts| :: Ambiguous(a.inputArtifacts[i].mediaType)
  }

  // An accepted request shares its text with another one exactly when its session, task or
  // correlation id or a media type of an input has a second spelling.
  lemma RequestTwins(a: RunnerSessionRequest)
    requires Constructed(a)
    ensures (exists b :: RequestTwin(a, b)) <==> TwinnedRequest(a)
  {
    hide Ambiguous, RunnerSessionRequest.Canonical, Constructed;
    if TwinnedRequest(a) { var b := TwinOfRequest(a); }
    if b :| RequestTwin(a, b) { RequestTwinnedBy(a, b); }
  }

  lemma RequestTwinnedBy(a: RunnerSessionRequest, b: RunnerSessionRequest)
    requires RequestTwin(a, b)
    ensures TwinnedRequest(a)
  {
    hide Ambiguous, RunnerSessionRequest.Canonical, ArtifactAccepted;
    RequestsDetermined(a, b);
    AnySpelling(a.sessionId);
    AnySpelling(a.taskId);
    AnySpelling(a.correlationId);
    assert a.sessionId == b.sessionId || SameSpelling(a.sessionId, b.sessionId);
    assert a.taskId == b.taskId || SameSpelling(a.taskId, b.taskId);
    assert a.correlationId == b.correlationId || SameSpelling(a.correlationId, b.correlationId);
    if a.inputArtifacts != b.inputArtifacts {
      assert |AllUnits(a.inputArtifacts)| == |a.inputArtifacts| && |AllUnits(b.inputArtifacts)| == |b.inputArtifacts|;
      var i :| 0 <= i < |a.inputArtifacts| && a.inputArtifacts[i] != b.inputArtifacts[i];
      ArtifactsSpelling(a.inputArtifacts, b.inputArtifacts, i);
      ArtifactSpelling(a.inputArtifacts[i], b.inputArtifacts[i]);
      AnySpelling(a.inputArtifacts[i].mediaType);
      assert SameSpelling(a.inputArtifacts[i].mediaType,
                          b.inputArtifacts[i].mediaType) && b.inputArtifacts[i].mediaType != [] by {
        assert ArtifactAccepted(b.inputArtifacts[i]);
        NamedMedia(b.inputArtifacts[i]);
      }
    }
  }

  lemma NamedMedia(a: ArtifactRef)
    requires ArtifactAccepted(a)
    ensures a.mediaType != []
  {
  }

  lemma TwinOfRequest(a: RunnerSessionRequest) returns (b: RunnerSessionRequest)
    requires Constructed(a) && TwinnedRequest(a)
    ensures RequestTwin(a, b)
  {
    hide Ambiguous, RunnerSessionRequest.Canonical;
    AnySpelling(a.sessionId);
    AnySpelling(a.taskId);
    AnySpelling(a.correlationId);
    if Ambiguous(a.sessionId) {
      var t :| SameSpelling(a.sessionId, t) && t != [];
      b := a.(sessionId := t);
    } else if Ambiguous(a.taskId) {
      var t :| SameSpelling(a.taskId, t) && t != [];
      b := a.(taskId := t);
    } else if Ambiguous(a.correlationId) {
      var t :| SameSpelling(a.correlationId, t) && t != [];
      b := a.(correlationId := t);
    } else {
      var i :| 0 <= i < |a.inputArtifacts| && Ambiguous(a.inputArtifacts[i].mediaType);
      AnySpelling(a.inputArtifacts[i].mediaType);
      var t :| SameSpelling(a.inputArtifacts[i].mediaType, t) && t != [];
      b := a.(inputArtifacts := a.inputArtifacts[i := a.inputArtifacts[i].(mediaType := t)]);
      assert b.inputArtifacts[i] != a.inputArtifacts[i];
      assert AllUnits(b.inputArtifacts) == AllUnits(a.inputArtifacts);
    }
    RequestsDetermined(a, b);
  }

  lemma RequestsCollide() returns (a: RunnerSessionRequest, b: RunnerSessionRequest)
    ensures RequestTwin(a, b) && a.correlationId == SMILE && b == a.(correlationId := PIECES)
  {
    a := RunnerSessionRequest(Lit("s"), Lit("t"), PLANNER, 0, 0, [], 60, SMILE);
    b := a.(correlationId := PIECES);
    SmileIsPieces();
    RequestsDetermined(a, b);
  }

  /******* Workspace requests *******/

  ghost predicate WorkspaceTwin(a: WorkspaceRequest, b: WorkspaceRequest) {
    a.Accepted() && b.Accepted() && a != b && a.Canonical() == b.Canonical()
  }

  predicate TwinnedWorkspace(a: WorkspaceRequest) {
    || Ambiguous(a.allocationId) || Ambiguous(a.taskId) || Ambiguous(a.correlationId)
    || (a.governanceRevision.Some? && Ambiguous(a.governanceRevision.value))
  }

  lemma RevisionIsPlain(a: WorkspaceRequest)
    requires a.Accepted()
    ensures Plain(a.sourceRevision)
  {
  }

  // An accepted workspace request shares its text with another one exactly when one of its
  // ids or its governance revision has a second spelling.
  lemma WorkspaceTwins(a: WorkspaceRequest)
    requires a.Accepted()
    ensures (exists b :: WorkspaceTwin(a, b)) <==> TwinnedWorkspace(a)
  {
    hide Ambiguous, WorkspaceRequest.Canonical, WorkspaceRequest.Accepted;
    if TwinnedWorkspace(a) { var b := TwinOfWorkspace(a); }
    if b :| WorkspaceTwin(a, b) { WorkspaceTwinnedBy(a, b); }
  }

  lemma WorkspaceTwinnedBy(a: WorkspaceRequest, b: WorkspaceRequest)
    requires WorkspaceTwin(a, b)
    ensures TwinnedWorkspace(a)
  {
    hide Ambiguous, WorkspaceRequest.Canonical, Utf16, Plain;
    WorkspacesDetermined(a, b);
    RevisionIsPlain(a);
    RevisionIsPlain(b);
    PlainField(a.sourceRevision, b.sourceRevision);
    AnySpelling(a.allocationId);
    AnySpelling(a.taskId);
    AnySpelling(a.correlationId);
    assert a.allocationId == b.allocationId || SameSpelling(a.allocationId, b.allocationId);
    assert a.taskId == b.taskId || SameSpelling(a.taskId, b.taskId);
    assert a.correlationId == b.correlationId || SameSpelling(a.correlationId, b.correlationId);
    if a.governanceRevision != b.governanceRevision {
      SpelledTwice(a.governanceRevision.value, b.governanceRevision.value);
    }
  }

  lemma SpelledTwice(s: Text, t: Text)
    requires SameSpelling(s, t)
    ensures Ambiguous(s)
  {
    hide Ambiguous;
    if !Ambiguous(s) { OneSpelling(s, t); }
  }

  lemma TwinOfWorkspace(a: WorkspaceRequest) returns (b: WorkspaceRequest)
    requires a.Accepted() && TwinnedWorkspace(a)
    ensures WorkspaceTwin(a, b)
  {
    hide Ambiguous, WorkspaceRequest.Canonical, Utf16, HexDigit;
    AnySpelling(a.allocationId);
    AnySpelling(a.taskId);
    AnySpelling(a.correlationId);
    if Ambiguous(a.allocationId) {
      var t :| SameSpelling(a.allocationId, t) && t != [];
      b := a.(allocationId := t);
    } else if Ambiguous(a.taskId) {
      var t :| SameSpelling(a.taskId, t) && t != [];
      b := a.(taskId := t);
    } else if Ambiguous(a.correlationId) {
      var t :| SameSpelling(a.correlationId, t) && t != [];
      b := a.(correlationId := t);
    } else {
      AnySpelling(a.governanceRevision.value);
      var t :| SameSpelling(a.governanceRevision.value, t) && t != [];
      b := a.(governanceRevision := Some(t));
    }
    WorkspacesDetermined(a, b);
  }

  lemma WorkspacesCollide() returns (a: WorkspaceRequest, b: WorkspaceRequest)
    ensures WorkspaceTwin(a, b) && a.correlationId == SMILE && b == a.(correlationId := PIECES)
  {
    hide Utf16;
    a := WorkspaceRequest(Lit("a"), Lit("t"), PLANNER, PLANNING, ZeroSha(), 0, 0, SMILE, None);
    b := a.(correlationId := PIECES);
    SmileIsPieces();
    WorkspacesDetermined(a, b);
  }

  /******* Candidates and outcomes *******/

  // The same source with its objective in two spellings.
  lemma CandidatesCollide() returns (a: IssueCandidate, b: IssueCandidate)
    ensures a.Accepted() && b.Accepted() && a != b && a.Canonical() == b.Canonical()
    ensures a.spec.objective == SMILE && b == a.(spec := a.spec.(objective := PIECES))
  {
    hide Utf16, IssueCandidate.Canonical;
    var spec := IssueTaskSpec(SMILE, [Lit("c")], ZeroSha(), R0);
    a := IssueCandidate(Lit("p"), Lit("k"), Lit("r#1"), Lit("e"), Lit("a"), Lit("l"), 0, spec);
    b := a.(spec := spec.(objective := PIECES));
    assert '#' as int in a.sourceReference by { assert a.sourceReference[1] == '#' as int; }
    SmileIsPieces();
    CandidatesDetermined(a, b);
  }

  // A session's outcome reported again in the other spelling: SQL takes it for the stored
  // one, memory for another.
  lemma OutcomesCollide() returns (m: Sessions, o: RunnerSessionOutcome)
    ensures o.Accepted() && o.sessionId in m && m[o.sessionId].request.Accepted()
    ensures m[o.sessionId].outcome == Some(o.(summary := SMILE)) && o.summary == PIECES
    ensures SqlStores.SqlOutcome(m, o).out.Ok? && SessionSetOutcome(m, o).out.Err?
  {
    hide Utf16;
    var first := RunnerSessionOutcome(Lit("s"), SUCCEEDED, SMILE);
    o := first.(summary := PIECES);
    var request := RunnerSessionRequest(Lit("s"), Lit("t"), PLANNER, 0, 0, [], 60, Lit("c"));
    m := map[Lit("s") := RunnerSessionRecord(request, SUCCEEDED, Some(first))];
    SmileIsPieces();
    SqlStores.OutcomeField(first, o);
  }
}

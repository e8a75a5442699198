// What the canonical text of a record determines: which records an idempotent replay
// takes for identical.

module CanonicalForms {
  import opened Json
  import opened JsonInjective
  import opened Domain
  import opened Records

  /******* Objects with the same keys *******/

  lemma {:induction false} NarrowMember(ms: seq<Member>, i: nat)
    requires i < |ms|
    ensures |NarrowMembers(ms)| == |ms|
    ensures NarrowMembers(ms)[i] == Member(Utf16(ms[i].key), Narrow(ms[i].value))
  {
    if |ms| > 1 { NarrowMember(ms[1..], if i > 0 then i - 1 else 0); }
    if i > 0 { assert NarrowMembers(ms)[i] == NarrowMembers(ms[1..])[i - 1]; }
  }

  lemma {:induction false} NarrowItem(js: seq<Json>, i: nat)
    requires i < |js|
    ensures |NarrowItems(js)| == |js| && NarrowItems(js)[i] == Narrow(js[i])
  {
    if |js| > 1 { NarrowItem(js[1..], if i > 0 then i - 1 else 0); }
    if i > 0 { assert NarrowItems(js)[i] == NarrowItems(js[1..])[i - 1]; }
  }

  ghost predicate SameKeys(ms: seq<Member>, ns: seq<Member>) {
    |ms| == |ns| && forall i | 0 <= i < |ms| :: ms[i].key == ns[i].key
  }

  ghost predicate Agree(ms: seq<Member>, ns: seq<Member>)
    requires |ms| == |ns|
  {
    forall i | 0 <= i < |ms| :: Narrow(ms[i].value) == Narrow(ns[i].value)
  }

  lemma SameText(ms: seq<Member>, ns: seq<Member>)
    requires SameKeys(ms, ns)
    ensures Encode(Obj(ms)) == Encode(Obj(ns)) <==> Agree(ms, ns)
  {
    EncodeInjective(Obj(ms), Obj(ns));
    forall i: nat | i < |ms|
      ensures |NarrowMembers(ms)| == |ms| && |NarrowMembers(ns)| == |ms|
      ensures NarrowMembers(ms)[i] == Member(Utf16(ms[i].key), Narrow(ms[i].value))
      ensures NarrowMembers(ns)[i] == Member(Utf16(ns[i].key), Narrow(ns[i].value))
    {
      NarrowMember(ms, i);
      NarrowMember(ns, i);
    }
    if Agree(ms, ns) {
      assert NarrowMembers(ms) == NarrowMembers(ns);
    }
  }

  /******* Fields *******/

  lemma PlainField(s: Text, t: Text)
    requires Plain(s) && Plain(t)
    ensures Utf16(s) == Utf16(t) <==> s == t
  {
    if Utf16(s) == Utf16(t) { Utf16Injective(s, t); }
  }

  lemma IdentifierField(s: Text, t: Text)
    requires Identifier(s) && Identifier(t)
    ensures Utf16(s) == Utf16(t) <==> s == t
  {
    PlainField(s, t);
  }

  lemma ShaField(s: Text, t: Text, n: nat)
    requires Sha(s, n) && Sha(t, n)
    ensures Utf16(s) == Utf16(t) <==> s == t
  {
    PlainField(s, t);
  }

  lemma RepositoryField(s: Text, t: Text)
    requires RepositoryName(s) && RepositoryName(t)
    ensures Utf16(s) == Utf16(t) <==> s == t
  {
    RepositoryPlain(s);
    RepositoryPlain(t);
    PlainField(s, t);
  }

  lemma RepositoryPlain(t: Text)
    requires RepositoryName(t)
    ensures Plain(t)
  {
    var i :| 0 <= i < |t| && t[i] == '/' as int && RepositoryPart(t[..i]) && RepositoryPart(t[i + 1..]);
    forall j | 0 <= j < |t| ensures t[j] < 0xD800 {
      if j < i { assert t[..i][j] == t[j]; }
      if j > i { assert t[i + 1..][j - i - 1] == t[j]; }
    }
  }

  lemma RefField(p: Text, s: Text, q: Text, t: Text)
    requires Identifier(p) && Identifier(q) && KnownRef(p, s) && KnownRef(q, t)
    ensures Utf16(s) == Utf16(t) <==> s == t
  {
    PlainField(s, t);
  }

  lemma RoleField(r: Role, s: Role)
    ensures Utf16(RoleName(r)) == Utf16(RoleName(s)) <==> r == s
  {
    PlainField(RoleName(r), RoleName(s));
    assert |RoleName(r)| == |RoleName(s)| ==> r == s;
  }

  lemma StatusField(s: TaskStatus, t: TaskStatus)
    ensures Utf16(StatusName(s)) == Utf16(StatusName(t)) <==> s == t
  {
    PlainField(StatusName(s), StatusName(t));
    if StatusName(s) == StatusName(t) { StatusNames(s, t); }
  }

  lemma StatusNames(s: TaskStatus, t: TaskStatus)
    requires StatusName(s) == StatusName(t)
    ensures s == t
  {
    assert StatusName(s)[0] == StatusName(t)[0] && StatusName(s)[1] == StatusName(t)[1];
    assert StatusName(s)[2] == StatusName(t)[2];
  }

  lemma TimeField(t: Time, u: Time)
    ensures Utf16(IsoFormat(t)) == Utf16(IsoFormat(u)) <==> t == u
  {
    DecimalPlain(t);
    DecimalPlain(u);
    PlainField(IsoFormat(t), IsoFormat(u));
    if IsoFormat(t) == IsoFormat(u) {
      assert Decimal(t) == Decimal(u) by { LitInjective(Decimal(t), Decimal(u)); }
      assert Decimal(t) + "" == Decimal(t) && Decimal(u) + "" == Decimal(u);
      DecimalPrefix(t, u, "", "");
    }
  }

  lemma LitInjective(s: string, t: string)
    requires Lit(s) == Lit(t)
    ensures s == t
  {
    assert |Lit(s)| == |s| && |Lit(t)| == |t|;
    forall i | 0 <= i < |s| ensures s[i] == t[i] {
      assert Lit(s)[i] == s[i] as int && Lit(t)[i] == t[i] as int;
    }
  }

  lemma DecimalPlain(t: Time)
    ensures Plain(IsoFormat(t))
  {
    var d := Decimal(t);
    DigitsAreDigits(if t < 0 then -t else t);
    forall i | 0 <= i < |d| ensures d[i] as int < 0xD800 {
      assert d[i] == '-' || IsDigit(d[i]);
    }
  }

  /******* Publication intents *******/

  lemma IntentKeys(a: PublicationIntent, b: PublicationIntent)
    ensures SameKeys(a.Members(), b.Members())
  {
  }

  lemma IntentFields(a: PublicationIntent, b: PublicationIntent)
    requires SameKeys(a.Members(), b.Members()) && Agree(a.Members(), b.Members())
    ensures Utf16(a.baseSha) == Utf16(b.baseSha)
    ensures Utf16(a.correlationId) == Utf16(b.correlationId)
    ensures a.expectedSequence == b.expectedSequence
    ensures a.expectedTaskVersion == b.expectedTaskVersion
    ensures Utf16(a.governanceRevision) == Utf16(b.governanceRevision)
    ensures Utf16(a.patchDigest) == Utf16(b.patchDigest)
    ensures Utf16(a.publicationId) == Utf16(b.publicationId)
    ensures Utf16(a.repositoryName) == Utf16(b.repositoryName)
    ensures Utf16(a.taskId) == Utf16(b.taskId)
    ensures Utf16(a.workerResultId) == Utf16(b.workerResultId)
  {
    var ms, ns := a.Members(), b.Members();
    assert Narrow(ms[0].value) == Narrow(ns[0].value);
    assert Narrow(ms[1].value) == Narrow(ns[1].value);
    assert Narrow(ms[2].value) == Narrow(ns[2].value);
    assert Narrow(ms[3].value) == Narrow(ns[3].value);
    assert Narrow(ms[4].value) == Narrow(ns[4].value);
    assert Narrow(ms[5].value) == Narrow(ns[5].value);
    assert Narrow(ms[6].value) == Narrow(ns[6].value);
    assert Narrow(ms[7].value) == Narrow(ns[7].value);
    assert Narrow(ms[9].value) == Narrow(ns[9].value);
    assert Narrow(ms[10].value) == Narrow(ns[10].value);
  }

  lemma IntentsDetermined(a: PublicationIntent, b: PublicationIntent)
    requires a.Accepted() && b.Accepted()
    ensures a.Canonical() == b.Canonical() <==> a == b
  {
    IntentKeys(a, b);
    SameText(a.Members(), b.Members());
    if a.Canonical() == b.Canonical() {
      IntentFields(a, b);
      ShaField(a.baseSha, b.baseSha, 40);
      ShaField(a.patchDigest, b.patchDigest, 64);
      IdentifierField(a.correlationId, b.correlationId);
      IdentifierField(a.governanceRevision, b.governanceRevision);
      IdentifierField(a.publicationId, b.publicationId);
      RepositoryField(a.repositoryName, b.repositoryName);
      IdentifierField(a.taskId, b.taskId);
      IdentifierField(a.workerResultId, b.workerResultId);
    }
  }

  /******* Prepared heads *******/

  lemma HeadKeys(a: PreparedHead, b: PreparedHead)
    ensures SameKeys(a.Members(), b.Members())
  {
  }

  lemma HeadFields(a: PreparedHead, b: PreparedHead)
    requires SameKeys(a.Members(), b.Members()) && Agree(a.Members(), b.Members())
    ensures Utf16(a.baseSha) == Utf16(b.baseSha)
    ensures Utf16(a.deterministicRef) == Utf16(b.deterministicRef)
    ensures Utf16(a.headSha) == Utf16(b.headSha)
    ensures Utf16(a.patchDigest) == Utf16(b.patchDigest)
    ensures Utf16(a.publicationId) == Utf16(b.publicationId)
    ensures Utf16(a.treeSha) == Utf16(b.treeSha)
  {
    var ms, ns := a.Members(), b.Members();
    assert Narrow(ms[0].value) == Narrow(ns[0].value);
    assert Narrow(ms[1].value) == Narrow(ns[1].value);
    assert Narrow(ms[2].value) == Narrow(ns[2].value);
    assert Narrow(ms[3].value) == Narrow(ns[3].value);
    assert Narrow(ms[4].value) == Narrow(ns[4].value);
    assert Narrow(ms[6].value) == Narrow(ns[6].value);
  }

  lemma HeadsDetermined(a: PreparedHead, b: PreparedHead)
    requires a.Accepted() && b.Accepted()
    ensures a.Canonical() == b.Canonical() <==> a == b
  {
    HeadKeys(a, b);
    SameText(a.Members(), b.Members());
    if a.Canonical() == b.Canonical() {
      HeadFields(a, b);
      ShaField(a.baseSha, b.baseSha, 40);
      RefField(a.publicationId, a.deterministicRef, b.publicationId, b.deterministicRef);
      ShaField(a.headSha, b.headSha, 40);
      ShaField(a.patchDigest, b.patchDigest, 64);
      IdentifierField(a.publicationId, b.publicationId);
      ShaField(a.treeSha, b.treeSha, 40);
    }
  }

  /******* Effect intents and receipts *******/

  lemma EffectKeys(a: PublicationEffectIntent, b: PublicationEffectIntent)
    ensures SameKeys(a.Members(), b.Members())
  {
  }

  lemma EffectFields(a: PublicationEffectIntent, b: PublicationEffectIntent)
    requires SameKeys(a.Members(), b.Members()) && Agree(a.Members(), b.Members())
    ensures Utf16(a.deterministicRef) == Utf16(b.deterministicRef)
    ensures Utf16(a.effectId) == Utf16(b.effectId)
    ensures Utf16(a.headSha) == Utf16(b.headSha)
    ensures Utf16(a.publicationId) == Utf16(b.publicationId)
  {
    var ms, ns := a.Members(), b.Members();
    assert Narrow(ms[0].value) == Narrow(ns[0].value);
    assert Narrow(ms[1].value) == Narrow(ns[1].value);
    assert Narrow(ms[2].value) == Narrow(ns[2].value);
    assert Narrow(ms[3].value) == Narrow(ns[3].value);
  }

  lemma EffectsDetermined(a: PublicationEffectIntent, b: PublicationEffectIntent)
    requires a.Accepted() && b.Accepted()
    ensures a.Canonical() == b.Canonical() <==> a == b
  {
    EffectKeys(a, b);
    SameText(a.Members(), b.Members());
    if a.Canonical() == b.Canonical() {
      EffectFields(a, b);
      RefField(a.publicationId, a.deterministicRef, b.publicationId, b.deterministicRef);
      IdentifierField(a.effectId, b.effectId);
      ShaField(a.headSha, b.headSha, 40);
      IdentifierField(a.publicationId, b.publicationId);
    }
  }

  lemma PullKeys(a: PullRequestReceipt, b: PullRequestReceipt)
    ensures SameKeys(a.Members(), b.Members())
  {
  }

  lemma PullFields(a: PullRequestReceipt, b: PullRequestReceipt)
    requires SameKeys(a.Members(), b.Members()) && Agree(a.Members(), b.Members())
    ensures Utf16(a.baseSha) == Utf16(b.baseSha)
    ensures Utf16(a.headSha) == Utf16(b.headSha)
    ensures Utf16(a.publicationId) == Utf16(b.publicationId)
    ensures a.number == b.number
    ensures Utf16(a.treeSha) == Utf16(b.treeSha)
  {
    var ms, ns := a.Members(), b.Members();
    assert Narrow(ms[0].value) == Narrow(ns[0].value);
    assert Narrow(ms[1].value) == Narrow(ns[1].value);
    assert Narrow(ms[2].value) == Narrow(ns[2].value);
    assert Narrow(ms[3].value) == Narrow(ns[3].value);
    assert Narrow(ms[5].value) == Narrow(ns[5].value);
  }

  lemma PullsDetermined(a: PullRequestReceipt, b: PullRequestReceipt)
    requires a.Accepted() && b.Accepted()
    ensures Narrow(Obj(a.Members())) == Narrow(Obj(b.Members())) <==> a == b
  {
    PullKeys(a, b);
    EncodeInjective(Obj(a.Members()), Obj(b.Members()));
    SameText(a.Members(), b.Members());
    if Agree(a.Members(), b.Members()) {
      PullFields(a, b);
      ShaField(a.baseSha, b.baseSha, 40);
      ShaField(a.headSha, b.headSha, 40);
      IdentifierField(a.publicationId, b.publicationId);
      ShaField(a.treeSha, b.treeSha, 40);
    }
  }

  lemma ReceiptKeys(a: PublicationReceipt, b: PublicationReceipt)
    ensures SameKeys(a.Members(), b.Members())
  {
  }

  lemma ReceiptFields(a: PublicationReceipt, b: PublicationReceipt)
    requires SameKeys(a.Members(), b.Members()) && Agree(a.Members(), b.Members())
    ensures Utf16(a.effectId) == Utf16(b.effectId)
    ensures Utf16(a.publicationId) == Utf16(b.publicationId)
    ensures Narrow(if a.pullRequest.Some? then Obj(a.pullRequest.value.Members()) else Null)
         == Narrow(if b.pullRequest.Some? then Obj(b.pullRequest.value.Members()) else Null)
  {
    var ms, ns := a.Members(), b.Members();
    assert Narrow(ms[0].value) == Narrow(ns[0].value);
    assert Narrow(ms[1].value) == Narrow(ns[1].value);
    assert Narrow(ms[2].value) == Narrow(ns[2].value);
  }

  lemma ReceiptsDetermined(a: PublicationReceipt, b: PublicationReceipt)
    requires a.Accepted() && b.Accepted()
    ensures a.Canonical() == b.Canonical() <==> a == b
  {
    ReceiptKeys(a, b);
    SameText(a.Members(), b.Members());
    if a.Canonical() == b.Canonical() {
      ReceiptFields(a, b);
      IdentifierField(a.effectId, b.effectId);
      IdentifierField(a.publicationId, b.publicationId);
      if a.pullRequest.Some? && b.pullRequest.Some? {
        PullsDetermined(a.pullRequest.value, b.pullRequest.value);
      }
    }
  }

  /******* Review decisions *******/

  lemma DecisionKeys(a: PublicationReviewDecision, b: PublicationReviewDecision)
    ensures SameKeys(a.Members(), b.Members())
  {
  }

  lemma DecisionFields(a: PublicationReviewDecision, b: PublicationReviewDecision)
    requires SameKeys(a.Members(), b.Members()) && Agree(a.Members(), b.Members())
    ensures Utf16(a.approvalArtifact.digest) == Utf16(b.approvalArtifact.digest)
    ensures Utf16(a.approvalId) == Utf16(b.approvalId)
    ensures Utf16(a.baseSha) == Utf16(b.baseSha)
    ensures Utf16(IsoFormat(a.decidedAt)) == Utf16(IsoFormat(b.decidedAt))
    ensures Utf16(DecisionName(a.decision)) == Utf16(DecisionName(b.decision))
    ensures Utf16(a.headSha) == Utf16(b.headSha)
    ensures Utf16(a.patchDigest) == Utf16(b.patchDigest)
    ensures Utf16(a.publicationId) == Utf16(b.publicationId)
    ensures Utf16(a.resultId) == Utf16(b.resultId)
    ensures Utf16(a.reviewerId) == Utf16(b.reviewerId)
    ensures Utf16(a.sessionId) == Utf16(b.sessionId)
    ensures Utf16(a.taskId) == Utf16(b.taskId)
    ensures Utf16(a.treeSha) == Utf16(b.treeSha)
  {
    var ms, ns := a.Members(), b.Members();
    assert Narrow(ms[0].value) == Narrow(ns[0].value);
    assert Narrow(ms[1].value) == Narrow(ns[1].value);
    assert Narrow(ms[2].value) == Narrow(ns[2].value);
    assert Narrow(ms[3].value) == Narrow(ns[3].value);
    assert Narrow(ms[4].value) == Narrow(ns[4].value);
    assert Narrow(ms[5].value) == Narrow(ns[5].value);
    assert Narrow(ms[6].value) == Narrow(ns[6].value);
    assert Narrow(ms[7].value) == Narrow(ns[7].value);
    assert Narrow(ms[8].value) == Narrow(ns[8].value);
    assert Narrow(ms[9].value) == Narrow(ns[9].value);
    assert Narrow(ms[11].value) == Narrow(ns[11].value);
    assert Narrow(ms[12].value) == Narrow(ns[12].value);
    assert Narrow(ms[13].value) == Narrow(ns[13].value);
  }

  lemma DecisionField(d: ReviewDecision, e: ReviewDecision)
    ensures Utf16(DecisionName(d)) == Utf16(DecisionName(e)) <==> d == e
  {
    PlainField(DecisionName(d), DecisionName(e));
    assert DecisionName(d)[0] == DecisionName(e)[0] ==> d == e;
  }

  // The decision with its approval artifact reduced to the digest.
  function ByDigest(d: PublicationReviewDecision): PublicationReviewDecision {
    d.(approvalArtifact := ArtifactRef(d.approvalArtifact.digest, [], []))
  }

  lemma SameByDigest(a: PublicationReviewDecision, b: PublicationReviewDecision)
    requires ByDigest(a) == ByDigest(b)
    ensures a.Canonical() == b.Canonical()
  {
    assert a.Members() == ByDigest(a).Members();
    assert b.Members() == ByDigest(b).Members();
  }

  // Decisions are determined up to the logical name and media type of the artifact.
  lemma DecisionsDetermined(a: PublicationReviewDecision, b: PublicationReviewDecision)
    requires a.Accepted() && b.Accepted()
    ensures a.Canonical() == b.Canonical() <==> ByDigest(a) == ByDigest(b)
  {
    if ByDigest(a) == ByDigest(b) { SameByDigest(a, b); }
    if a.Canonical() == b.Canonical() {
      DecisionKeys(a, b);
      SameText(a.Members(), b.Members());
      DecisionFields(a, b);
      DecisionIds(a, b);
      DecisionShas(a, b);
      TimeField(a.decidedAt, b.decidedAt);
      DecisionField(a.decision, b.decision);
    }
  }

  lemma DecisionIds(a: PublicationReviewDecision, b: PublicationReviewDecision)
    requires a.Accepted() && b.Accepted()
    requires Utf16(a.approvalId) == Utf16(b.approvalId) && Utf16(a.publicationId) == Utf16(b.publicationId)
    requires Utf16(a.resultId) == Utf16(b.resultId) && Utf16(a.reviewerId) == Utf16(b.reviewerId)
    requires Utf16(a.sessionId) == Utf16(b.sessionId) && Utf16(a.taskId) == Utf16(b.taskId)
    ensures a.approvalId == b.approvalId && a.publicationId == b.publicationId && a.resultId == b.resultId
    ensures a.reviewerId == b.reviewerId && a.sessionId == b.sessionId && a.taskId == b.taskId
  {
    IdentifierField(a.approvalId, b.approvalId);
    IdentifierField(a.publicationId, b.publicationId);
    IdentifierField(a.resultId, b.resultId);
    IdentifierField(a.reviewerId, b.reviewerId);
    IdentifierField(a.sessionId, b.sessionId);
    IdentifierField(a.taskId, b.taskId);
  }

  lemma DecisionShas(a: PublicationReviewDecision, b: PublicationReviewDecision)
    requires a.Accepted() && b.Accepted()
    requires Utf16(a.approvalArtifact.digest) == Utf16(b.approvalArtifact.digest)
    requires Utf16(a.patchDigest) == Utf16(b.patchDigest) && Utf16(a.baseSha) == Utf16(b.baseSha)
    requires Utf16(a.headSha) == Utf16(b.headSha) && Utf16(a.treeSha) == Utf16(b.treeSha)
    ensures a.approvalArtifact.digest == b.approvalArtifact.digest && a.patchDigest == b.patchDigest
    ensures a.baseSha == b.baseSha && a.headSha == b.headSha && a.treeSha == b.treeSha
  {
    ShaField(a.approvalArtifact.digest, b.approvalArtifact.digest, 64);
    ShaField(a.patchDigest, b.patchDigest, 64);
    ShaField(a.baseSha, b.baseSha, 40);
    ShaField(a.headSha, b.headSha, 40);
    ShaField(a.treeSha, b.treeSha, 40);
  }

  /******* Runner requests and worker results *******/

  function UnitsOf(a: ArtifactRef): ArtifactRef {
    ArtifactRef(Utf16(a.digest), Utf16(a.logicalName), Utf16(a.mediaType))
  }

  function AllUnits(s: seq<ArtifactRef>): seq<ArtifactRef> {
    seq(|s|, i requires 0 <= i < |s| => UnitsOf(s[i]))
  }

  // The request as the JSON escaper sees it, string by string in UTF-16.
  function RequestUnits(r: RunnerSessionRequest): RunnerSessionRequest {
    r.(sessionId := Utf16(r.sessionId), taskId := Utf16(r.taskId), correlationId := Utf16(r.correlationId),
       inputArtifacts := AllUnits(r.inputArtifacts))
  }

  function ResultUnits(r: WorkerResult): WorkerResult {
    r.(resultId := Utf16(r.resultId), sessionId := Utf16(r.sessionId), taskId := Utf16(r.taskId),
       summary := Utf16(r.summary), worker := r.worker.(workerId := Utf16(r.worker.workerId)))
  }

  lemma ResultKeys(a: WorkerResult, b: WorkerResult)
    ensures SameKeys(a.Members(), b.Members())
  {
  }

  lemma ResultFields(a: WorkerResult, b: WorkerResult)
    requires SameKeys(a.Members(), b.Members()) && Agree(a.Members(), b.Members())
    ensures a.expectedSequence == b.expectedSequence
    ensures a.expectedTaskVersion == b.expectedTaskVersion
    ensures Utf16(a.resultId) == Utf16(b.resultId)
    ensures Utf16(RoleName(a.worker.role)) == Utf16(RoleName(b.worker.role))
    ensures Utf16(a.sessionId) == Utf16(b.sessionId)
    ensures Utf16(a.summary) == Utf16(b.summary)
    ensures Utf16(StatusName(a.target)) == Utf16(StatusName(b.target))
    ensures Utf16(a.taskId) == Utf16(b.taskId)
    ensures Utf16(a.worker.workerId) == Utf16(b.worker.workerId)
  {
    var ms, ns := a.Members(), b.Members();
    assert Narrow(ms[0].value) == Narrow(ns[0].value);
    assert Narrow(ms[1].value) == Narrow(ns[1].value);
    assert Narrow(ms[2].value) == Narrow(ns[2].value);
    assert Narrow(ms[3].value) == Narrow(ns[3].value);
    assert Narrow(ms[5].value) == Narrow(ns[5].value);
    assert Narrow(ms[6].value) == Narrow(ns[6].value);
    assert Narrow(ms[7].value) == Narrow(ns[7].value);
    assert Narrow(ms[8].value) == Narrow(ns[8].value);
    assert Narrow(ms[9].value) == Narrow(ns[9].value);
  }

  lemma ResultsAgree(a: WorkerResult, b: WorkerResult)
    requires ResultUnits(a) == ResultUnits(b) && SameKeys(a.Members(), b.Members())
    ensures Agree(a.Members(), b.Members())
  {
  }

  // Worker results are determined up to the UTF-16 spelling of their strings.
  lemma ResultsDetermined(a: WorkerResult, b: WorkerResult)
    ensures a.Canonical() == b.Canonical() <==> ResultUnits(a) == ResultUnits(b)
  {
    ResultKeys(a, b);
    SameText(a.Members(), b.Members());
    if a.Canonical() == b.Canonical() {
      ResultFields(a, b);
      RoleField(a.worker.role, b.worker.role);
      StatusField(a.target, b.target);
    }
    if ResultUnits(a) == ResultUnits(b) { ResultsAgree(a, b); }
  }

  lemma RequestKeys(a: RunnerSessionRequest, b: RunnerSessionRequest)
    ensures SameKeys(a.Members(), b.Members())
  {
  }

  lemma RequestFields(a: RunnerSessionRequest, b: RunnerSessionRequest)
    requires SameKeys(a.Members(), b.Members()) && Agree(a.Members(), b.Members())
    ensures Utf16(a.correlationId) == Utf16(b.correlationId)
    ensures a.expectedSequence == b.expectedSequence
    ensures a.expectedTaskVersion == b.expectedTaskVersion
    ensures NarrowItems(ArtifactList(a.inputArtifacts)) == NarrowItems(ArtifactList(b.inputArtifacts))
    ensures Utf16(RoleName(a.role)) == Utf16(RoleName(b.role))
    ensures Utf16(a.sessionId) == Utf16(b.sessionId)
    ensures Utf16(a.taskId) == Utf16(b.taskId)
    ensures a.timeoutSeconds == b.timeoutSeconds
  {
    var ms, ns := a.Members(), b.Members();
    assert Narrow(ms[0].value) == Narrow(ns[0].value);
    assert Narrow(ms[1].value) == Narrow(ns[1].value);
    assert Narrow(ms[2].value) == Narrow(ns[2].value);
    assert Narrow(ms[3].value) == Narrow(ns[3].value);
    assert Narrow(ms[4].value) == Narrow(ns[4].value);
    assert Narrow(ms[6].value) == Narrow(ns[6].value);
    assert Narrow(ms[7].value) == Narrow(ns[7].value);
    assert Narrow(ms[8].value) == Narrow(ns[8].value);
  }

  lemma {:induction false} Utf16Concat(s: Text, t: Text)
    ensures Utf16(s + t) == Utf16(s) + Utf16(t)
  {
    if s == [] {
      assert s + t == t;
    } else {
      assert (s + t)[1..] == s[1..] + t;
      Utf16Concat(s[1..], t);
    }
  }

  lemma PrefixField(p: Text, s: Text, t: Text)
    ensures Utf16(p + s) == Utf16(p + t) <==> Utf16(s) == Utf16(t)
  {
    Utf16Concat(p, s);
    Utf16Concat(p, t);
    if Utf16(p) + Utf16(s) == Utf16(p) + Utf16(t) {
      assert (Utf16(p) + Utf16(s))[|Utf16(p)|..] == Utf16(s);
      assert (Utf16(p) + Utf16(t))[|Utf16(p)|..] == Utf16(t);
    }
  }

  lemma ArtifactField(a: ArtifactRef, b: ArtifactRef)
    ensures Narrow(ArtifactJson(a)) == Narrow(ArtifactJson(b)) <==> UnitsOf(a) == UnitsOf(b)
  {
    var ms, ns := ArtifactMembers(a), ArtifactMembers(b);
    EncodeInjective(Obj(ms), Obj(ns));
    SameText(ms, ns);
    PrefixField(Lit("sha256:"), a.digest, b.digest);
    if Agree(ms, ns) {
      assert Narrow(ms[0].value) == Narrow(ns[0].value);
      assert Narrow(ms[1].value) == Narrow(ns[1].value);
      assert Narrow(ms[2].value) == Narrow(ns[2].value);
    }
  }

  lemma ArtifactsField(s: seq<ArtifactRef>, t: seq<ArtifactRef>)
    ensures NarrowItems(ArtifactList(s)) == NarrowItems(ArtifactList(t)) <==> AllUnits(s) == AllUnits(t)
  {
    var js, ks := ArtifactList(s), ArtifactList(t);
    NarrowLength(js);
    NarrowLength(ks);
    forall i: nat | i < |s| && i < |t|
      ensures NarrowItems(js)[i] == NarrowItems(ks)[i] <==> AllUnits(s)[i] == AllUnits(t)[i]
    {
      NarrowItem(js, i);
      NarrowItem(ks, i);
      ArtifactField(s[i], t[i]);
    }
    if AllUnits(s) == AllUnits(t) {
      assert |AllUnits(s)| == |s| && |AllUnits(t)| == |t|;
      assert NarrowItems(js) == NarrowItems(ks);
    }
  }

  lemma NarrowLength(js: seq<Json>)
    ensures |NarrowItems(js)| == |js|
  {
    if js != [] { NarrowItem(js, 0); }
  }

  lemma RequestsAgree(a: RunnerSessionRequest, b: RunnerSessionRequest)
    requires RequestUnits(a) == RequestUnits(b) && SameKeys(a.Members(), b.Members())
    ensures Agree(a.Members(), b.Members())
  {
    ArtifactsField(a.inputArtifacts, b.inputArtifacts);
    var ms, ns := a.Members(), b.Members();
  }

  // Runner requests are determined up to the UTF-16 spelling of their strings.
  lemma RequestsDetermined(a: RunnerSessionRequest, b: RunnerSessionRequest)
    ensures a.Canonical() == b.Canonical() <==> RequestUnits(a) == RequestUnits(b)
  {
    RequestKeys(a, b);
    SameText(a.Members(), b.Members());
    if a.Canonical() == b.Canonical() {
      RequestFields(a, b);
      RoleField(a.role, b.role);
      ArtifactsField(a.inputArtifacts, b.inputArtifacts);
    }
    if RequestUnits(a) == RequestUnits(b) { RequestsAgree(a, b); }
  }

  /******* Check observations *******/

  lemma ObservationKeys(a: CheckRunObservation, b: CheckRunObservation)
    ensures SameKeys(a.Members(), b.Members())
  {
  }

  function ConclusionJson(c: Option<CheckRunConclusion>): Json {
    if c.Some? then Str(ConclusionName(c.value)) else Null
  }

  lemma ObservationFields(a: CheckRunObservation, b: CheckRunObservation)
    requires SameKeys(a.Members(), b.Members()) && Agree(a.Members(), b.Members())
    ensures Utf16(a.checkName) == Utf16(b.checkName)
    ensures Narrow(ConclusionJson(a.conclusion)) == Narrow(ConclusionJson(b.conclusion))
    ensures Utf16(a.headSha) == Utf16(b.headSha)
    ensures Utf16(IsoFormat(a.observedAt)) == Utf16(IsoFormat(b.observedAt))
    ensures Utf16(a.publicationId) == Utf16(b.publicationId)
    ensures Utf16(CheckStatusName(a.status)) == Utf16(CheckStatusName(b.status))
  {
    var ms, ns := a.Members(), b.Members();
    assert Narrow(ms[0].value) == Narrow(ns[0].value);
    assert Narrow(ms[1].value) == Narrow(ns[1].value);
    assert Narrow(ms[2].value) == Narrow(ns[2].value);
    assert Narrow(ms[3].value) == Narrow(ns[3].value);
    assert Narrow(ms[4].value) == Narrow(ns[4].value);
    assert Narrow(ms[6].value) == Narrow(ns[6].value);
  }

  lemma CheckStatusField(s: CheckRunStatus, t: CheckRunStatus)
    ensures Utf16(CheckStatusName(s)) == Utf16(CheckStatusName(t)) <==> s == t
  {
    PlainField(CheckStatusName(s), CheckStatusName(t));
    assert CheckStatusName(s)[0] == CheckStatusName(t)[0] ==> s == t;
  }

  lemma ConclusionField(c: Option<CheckRunConclusion>, d: Option<CheckRunConclusion>)
    ensures Narrow(ConclusionJson(c)) == Narrow(ConclusionJson(d)) <==> c == d
  {
    if c.Some? && d.Some? {
      PlainField(ConclusionName(c.value), ConclusionName(d.value));
      if ConclusionName(c.value) == ConclusionName(d.value) { ConclusionNames(c.value, d.value); }
    }
  }

  lemma ConclusionNames(c: CheckRunConclusion, d: CheckRunConclusion)
    requires ConclusionName(c) == ConclusionName(d)
    ensures c == d
  {
    assert ConclusionName(c)[0] == ConclusionName(d)[0] && ConclusionName(c)[1] == ConclusionName(d)[1];
  }

  lemma ObservationsDetermined(a: CheckRunObservation, b: CheckRunObservation)
    requires a.Accepted() && b.Accepted()
    ensures a.Canonical() == b.Canonical() <==> a == b
  {
    ObservationKeys(a, b);
    SameText(a.Members(), b.Members());
    if a.Canonical() == b.Canonical() {
      ObservationFields(a, b);
      IdentifierField(a.checkName, b.checkName);
      ConclusionField(a.conclusion, b.conclusion);
      ShaField(a.headSha, b.headSha, 40);
      TimeField(a.observedAt, b.observedAt);
      IdentifierField(a.publicationId, b.publicationId);
      CheckStatusField(a.status, b.status);
    }
  }

  /******* Workspace requests *******/

  function OptionalUnits(t: Option<Text>): Option<Text> { if t.Some? then Some(Utf16(t.value)) else None }

  function WorkspaceUnits(r: WorkspaceRequest): WorkspaceRequest {
    r.(allocationId := Utf16(r.allocationId), taskId := Utf16(r.taskId), sourceRevision := Utf16(r.sourceRevision),
       correlationId := Utf16(r.correlationId), governanceRevision := OptionalUnits(r.governanceRevision))
  }

  lemma WorkspaceKeys(a: WorkspaceRequest, b: WorkspaceRequest)
    ensures SameKeys(a.Members(), b.Members())
  {
  }

  lemma WorkspaceFields(a: WorkspaceRequest, b: WorkspaceRequest)
    requires SameKeys(a.Members(), b.Members()) && Agree(a.Members(), b.Members())
    ensures Utf16(a.allocationId) == Utf16(b.allocationId)
    ensures Utf16(a.correlationId) == Utf16(b.correlationId)
    ensures a.expectedSequence == b.expectedSequence
    ensures a.expectedTaskVersion == b.expectedTaskVersion
    ensures Narrow(OptionalText(a.governanceRevision)) == Narrow(OptionalText(b.governanceRevision))
    ensures Utf16(PurposeName(a.purpose)) == Utf16(PurposeName(b.purpose))
    ensures Utf16(RoleName(a.role)) == Utf16(RoleName(b.role))
    ensures Utf16(a.sourceRevision) == Utf16(b.sourceRevision)
    ensures Utf16(a.taskId) == Utf16(b.taskId)
  {
    var ms, ns := a.Members(), b.Members();
    assert Narrow(ms[0].value) == Narrow(ns[0].value);
    assert Narrow(ms[1].value) == Narrow(ns[1].value);
    assert Narrow(ms[2].value) == Narrow(ns[2].value);
    assert Narrow(ms[3].value) == Narrow(ns[3].value);
    assert Narrow(ms[4].value) == Narrow(ns[4].value);
    assert Narrow(ms[5].value) == Narrow(ns[5].value);
    assert Narrow(ms[6].value) == Narrow(ns[6].value);
    assert Narrow(ms[8].value) == Narrow(ns[8].value);
    assert Narrow(ms[9].value) == Narrow(ns[9].value);
  }

  lemma PurposeField(p: WorkspacePurpose, q: WorkspacePurpose)
    ensures Utf16(PurposeName(p)) == Utf16(PurposeName(q)) <==> p == q
  {
    PlainField(PurposeName(p), PurposeName(q));
    assert |PurposeName(p)| == |PurposeName(q)| && PurposeName(p)[1] == PurposeName(q)[1] ==> p == q;
  }

  lemma WorkspacesAgree(a: WorkspaceRequest, b: WorkspaceRequest)
    requires WorkspaceUnits(a) == WorkspaceUnits(b) && SameKeys(a.Members(), b.Members())
    ensures Agree(a.Members(), b.Members())
  {
    assert Narrow(OptionalText(a.governanceRevision)) == Narrow(OptionalText(b.governanceRevision));
  }

  // Workspace requests are determined up to the UTF-16 spelling of their strings.
  lemma WorkspacesDetermined(a: WorkspaceRequest, b: WorkspaceRequest)
    ensures a.Canonical() == b.Canonical() <==> WorkspaceUnits(a) == WorkspaceUnits(b)
  {
    hide Utf16;
    WorkspaceKeys(a, b);
    SameText(a.Members(), b.Members());
    if a.Canonical() == b.Canonical() {
      WorkspaceFields(a, b);
      RoleField(a.role, b.role);
      PurposeField(a.purpose, b.purpose);
    }
    if WorkspaceUnits(a) == WorkspaceUnits(b) { WorkspacesAgree(a, b); }
  }

  /******* Intake requests and issue candidates *******/

  lemma ObjectField(ms: seq<Member>, ns: seq<Member>)
    requires SameKeys(ms, ns)
    ensures Narrow(Obj(ms)) == Narrow(Obj(ns)) <==> Agree(ms, ns)
  {
    EncodeInjective(Obj(ms), Obj(ns));
    SameText(ms, ns);
  }

  lemma RiskField(r: RiskClass, s: RiskClass)
    ensures Utf16(RiskName(r)) == Utf16(RiskName(s)) <==> r == s
  {
    PlainField(RiskName(r), RiskName(s));
    assert RiskName(r)[1] == RiskName(s)[1] ==> r == s;
  }

  function IntakeUnits(r: IntakeRequest): IntakeRequest {
    r.(requestId := Utf16(r.requestId), sourceKind := Utf16(r.sourceKind), sourceReference := Utf16(r.sourceReference),
       repositoryName := Utf16(r.repositoryName), repositoryRevision := Utf16(r.repositoryRevision),
       governanceRevision := OptionalUnits(r.governanceRevision))
  }

  lemma IntakeKeys(a: IntakeRequest, b: IntakeRequest)
    ensures SameKeys(a.Members(), b.Members()) && SameKeys(a.RepositoryMembers(), b.RepositoryMembers())
    ensures SameKeys(a.RiskMembers(), b.RiskMembers()) && SameKeys(a.SourceMembers(), b.SourceMembers())
  {
  }

  lemma RepositoryAgree(a: IntakeRequest, b: IntakeRequest)
    requires |a.RepositoryMembers()| == |b.RepositoryMembers()|
    ensures Agree(a.RepositoryMembers(), b.RepositoryMembers())
       <==> Utf16(a.repositoryName) == Utf16(b.repositoryName)
            && Utf16(a.repositoryRevision) == Utf16(b.repositoryRevision)
  {
    hide Utf16;
    var ms, ns := a.RepositoryMembers(), b.RepositoryMembers();
    if Agree(ms, ns) {
      assert Narrow(ms[0].value) == Narrow(ns[0].value);
      assert Narrow(ms[1].value) == Narrow(ns[1].value);
    }
  }

  lemma SourceAgree(a: IntakeRequest, b: IntakeRequest)
    requires |a.SourceMembers()| == |b.SourceMembers()|
    ensures Agree(a.SourceMembers(), b.SourceMembers())
       <==> Utf16(a.sourceKind) == Utf16(b.sourceKind) && Utf16(a.sourceReference) == Utf16(b.sourceReference)
  {
    hide Utf16;
    var ms, ns := a.SourceMembers(), b.SourceMembers();
    if Agree(ms, ns) {
      assert Narrow(ms[0].value) == Narrow(ns[0].value);
      assert Narrow(ms[1].value) == Narrow(ns[1].value);
    }
  }

  lemma RiskAgree(a: IntakeRequest, b: IntakeRequest)
    requires |a.RiskMembers()| == |b.RiskMembers()|
    ensures Agree(a.RiskMembers(), b.RiskMembers())
       <==> a.effectiveRisk == b.effectiveRisk && a.proposedRisk == b.proposedRisk
            && a.validatedRisk == b.validatedRisk
            && OptionalUnits(a.governanceRevision) == OptionalUnits(b.governanceRevision)
  {
    hide Utf16, RiskName;
    var ms, ns := a.RiskMembers(), b.RiskMembers();
    RiskField(a.effectiveRisk, b.effectiveRisk);
    RiskField(a.proposedRisk, b.proposedRisk);
    RiskField(a.validatedRisk, b.validatedRisk);
    if Agree(ms, ns) {
      assert Narrow(ms[0].value) == Narrow(ns[0].value);
      assert Narrow(ms[1].value) == Narrow(ns[1].value);
      assert Narrow(ms[2].value) == Narrow(ns[2].value);
      assert Narrow(ms[3].value) == Narrow(ns[3].value);
    }
  }

  lemma IntakeAgree(a: IntakeRequest, b: IntakeRequest)
    requires |a.Members()| == |b.Members()|
    ensures Agree(a.Members(), b.Members())
       <==> && a.enqueue == b.enqueue && a.priority == b.priority && Utf16(a.requestId) == Utf16(b.requestId)
            && Narrow(Obj(a.RepositoryMembers())) == Narrow(Obj(b.RepositoryMembers()))
            && Narrow(Obj(a.RiskMembers())) == Narrow(Obj(b.RiskMembers()))
            && Narrow(Obj(a.SourceMembers())) == Narrow(Obj(b.SourceMembers()))
  {
    hide Utf16, IntakeRequest.RepositoryMembers, IntakeRequest.RiskMembers, IntakeRequest.SourceMembers;
    var ms, ns := a.Members(), b.Members();
    if Agree(ms, ns) {
      assert Narrow(ms[0].value) == Narrow(ns[0].value);
      assert Narrow(ms[1].value) == Narrow(ns[1].value);
      assert Narrow(ms[2].value) == Narrow(ns[2].value);
      assert Narrow(ms[3].value) == Narrow(ns[3].value);
      assert Narrow(ms[4].value) == Narrow(ns[4].value);
      assert Narrow(ms[6].value) == Narrow(ns[6].value);
    }
  }

  // Intake requests are determined up to the UTF-16 spelling of their strings.
  lemma IntakesDetermined(a: IntakeRequest, b: IntakeRequest)
    ensures a.Canonical() == b.Canonical() <==> IntakeUnits(a) == IntakeUnits(b)
  {
    hide Utf16, Agree, Narrow, IntakeRequest.RepositoryMembers, IntakeRequest.RiskMembers, IntakeRequest.SourceMembers;
    IntakeKeys(a, b);
    SameText(a.Members(), b.Members());
    IntakeAgree(a, b);
    ObjectField(a.RepositoryMembers(), b.RepositoryMembers());
    ObjectField(a.RiskMembers(), b.RiskMembers());
    ObjectField(a.SourceMembers(), b.SourceMembers());
    RepositoryAgree(a, b);
    RiskAgree(a, b);
    SourceAgree(a, b);
  }

  function TextUnits(s: seq<Text>): seq<Text> { seq(|s|, i requires 0 <= i < |s| => Utf16(s[i])) }

  function SpecUnits(s: IssueTaskSpec): IssueTaskSpec {
    IssueTaskSpec(Utf16(s.objective), TextUnits(s.acceptanceCriteria), Utf16(s.revision), s.risk)
  }

  function CandidateUnits(c: IssueCandidate): IssueCandidate {
    IssueCandidate(Utf16(c.provider), Utf16(c.sourceKey), Utf16(c.sourceReference), Utf16(c.triggerEventId),
                   Utf16(c.triggerActor), Utf16(c.triggerLabel), c.occurredAt, SpecUnits(c.spec))
  }

  lemma TextsField(s: seq<Text>, t: seq<Text>)
    ensures NarrowItems(TextList(s)) == NarrowItems(TextList(t)) <==> TextUnits(s) == TextUnits(t)
  {
    hide Utf16;
    var js, ks := TextList(s), TextList(t);
    NarrowLength(js);
    NarrowLength(ks);
    forall i: nat | i < |s| && i < |t|
      ensures NarrowItems(js)[i] == NarrowItems(ks)[i] <==> TextUnits(s)[i] == TextUnits(t)[i]
    {
      NarrowItem(js, i);
      NarrowItem(ks, i);
    }
    assert |TextUnits(s)| == |s| && |TextUnits(t)| == |t|;
    if TextUnits(s) == TextUnits(t) { assert NarrowItems(js) == NarrowItems(ks); }
  }

  lemma SpecField(a: IssueTaskSpec, b: IssueTaskSpec)
    ensures Narrow(a.Document()) == Narrow(b.Document()) <==> SpecUnits(a) == SpecUnits(b)
  {
    hide Utf16, RiskName;
    var ms, ns := a.Members(), b.Members();
    assert SameKeys(ms, ns);
    ObjectField(ms, ns);
    TextsField(a.acceptanceCriteria, b.acceptanceCriteria);
    RiskField(a.risk, b.risk);
    if Agree(ms, ns) {
      assert Narrow(ms[0].value) == Narrow(ns[0].value);
      assert Narrow(ms[1].value) == Narrow(ns[1].value);
      assert Narrow(ms[2].value) == Narrow(ns[2].value);
      assert Narrow(ms[3].value) == Narrow(ns[3].value);
    }
  }

  lemma CandidateKeys(a: IssueCandidate, b: IssueCandidate)
    ensures SameKeys(a.Members(), b.Members())
  {
  }

  lemma CandidateAgree(a: IssueCandidate, b: IssueCandidate)
    requires |a.Members()| == |b.Members()|
    ensures Agree(a.Members(), b.Members())
       <==> && Utf16(IsoFormat(a.occurredAt)) == Utf16(IsoFormat(b.occurredAt))
            && Utf16(a.provider) == Utf16(b.provider) && Utf16(a.sourceKey) == Utf16(b.sourceKey)
            && Utf16(a.sourceReference) == Utf16(b.sourceReference)
            && Narrow(a.spec.Document()) == Narrow(b.spec.Document())
            && Utf16(a.triggerActor) == Utf16(b.triggerActor)
            && Utf16(a.triggerEventId) == Utf16(b.triggerEventId)
            && Utf16(a.triggerLabel) == Utf16(b.triggerLabel)
  {
    hide Utf16, IssueTaskSpec.Document, IsoFormat;
    var ms, ns := a.Members(), b.Members();
    if Agree(ms, ns) {
      assert Narrow(ms[0].value) == Narrow(ns[0].value);
      assert Narrow(ms[1].value) == Narrow(ns[1].value);
      assert Narrow(ms[3].value) == Narrow(ns[3].value);
      assert Narrow(ms[4].value) == Narrow(ns[4].value);
      assert Narrow(ms[5].value) == Narrow(ns[5].value);
      assert Narrow(ms[6].value) == Narrow(ns[6].value);
      assert Narrow(ms[7].value) == Narrow(ns[7].value);
      assert Narrow(ms[8].value) == Narrow(ns[8].value);
    }
  }

  // Issue candidates are determined up to the UTF-16 spelling of their strings, the
  // objective, criteria, revision and risk of the issue included.
  lemma CandidatesDetermined(a: IssueCandidate, b: IssueCandidate)
    ensures a.Canonical() == b.Canonical() <==> CandidateUnits(a) == CandidateUnits(b)
  {
    hide Utf16, Agree, Narrow, IssueTaskSpec.Document, IsoFormat, SpecUnits;
    CandidateKeys(a, b);
    SameText(a.Members(), b.Members());
    CandidateAgree(a, b);
    TimeField(a.occurredAt, b.occurredAt);
    SpecField(a.spec, b.spec);
  }
}

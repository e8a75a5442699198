// What the ledgers of any reachable database prove about a published head.

module Provenance {
  import opened Json
  import opened Domain
  import opened Records
  import opened Ledgers
  import opened Database
  import opened LedgerInvariants
  import opened Publication

  /******* The weak guard of the effect store is the strong guard of publish *******/

  lemma ApprovalsAreExact(a: Artifacts, s: Sessions, r: Results, ps: Publications, d: Approvals, id: Text, head: Text)
    requires ApprovalsOk(a, s, r, ps, d) && HeadIs(ps, id, head) && HasApproval(d, id, head)
    ensures ExactlyApproved(d, id, ps[id])
  {
    var k :| k in d && d[k].publicationId == id && d[k].headSha == head && d[k].decision == APPROVED;
    assert ApprovalOk(a, s, r, ps, d[k]);
  }

  // Whenever the ledgers are consistent, an approval that matches on publication, head
  // and decision matches on task, patch, base and tree as well.
  lemma TwoFieldMatchIsExact(db: Db, id: Text)
    requires Inv(db) && id in db.publications && db.publications[id].preparedHead.Some?
    ensures HasApproval(db.approvals, id, db.publications[id].preparedHead.value.headSha)
       <==> ExactlyApproved(db.approvals, id, db.publications[id])
  {
    var head := db.publications[id].preparedHead.value.headSha;
    if HasApproval(db.approvals, id, head) {
      ApprovalsAreExact(db.artifacts, db.sessions, db.results, db.publications, db.approvals, id, head);
    }
  }

  /******* Provenance of receipts *******/

  // The verifier passed exactly the prepared head.
  ghost predicate VerifiedAt(p: PublicationRecord, headSha: Text) {
    && p.state == VERIFIED
    && p.preparedHead.Some? && p.preparedHead.value.headSha == headSha
    && p.preparedHead.value.patchDigest == p.intent.patchDigest
    && p.preparedHead.value.baseSha == p.intent.baseSha
    && p.verification.Some?
    && p.verification.value.status == VERIFY_SUCCEEDED
    && p.verification.value.resultCode == CODE_PASSED
    && p.verification.value.headSha == headSha
  }

  // An approval of exactly this head by the result of a successful patch-review session.
  ghost predicate ApprovedBy(db: Db, p: PublicationRecord, k: Text) {
    && k in db.approvals
    && p.preparedHead.Some?
    && db.approvals[k].publicationId == p.intent.publicationId
    && db.approvals[k].decision == APPROVED
    && ExactHead(p, db.approvals[k])
    && db.approvals[k].resultId in db.results
    && ReviewerMatches(db.sessions, db.results, db.approvals[k])
  }

  ghost predicate Provenance(db: Db, e: PublicationEffectRecord) {
    && e.intent.publicationId in db.publications
    && var p := db.publications[e.intent.publicationId];
    && VerifiedAt(p, e.intent.headSha)
    && p.preparedHead.value.deterministicRef == e.intent.deterministicRef
    && (exists k :: ApprovedBy(db, p, k))
    && ImplementerOwns(db.artifacts, db.sessions, db.results, p.intent)
    && ReceiptOk(p, e)
  }

  lemma EffectVerified(a: Artifacts, s: Sessions, r: Results, ps: Publications, d: Approvals,
                       e: PublicationEffectRecord)
    requires PublicationsOk(a, s, r, ps) && EffectOk(ps, d, e)
    ensures VerifiedAt(ps[e.intent.publicationId], e.intent.headSha)
    ensures ImplementerOwns(a, s, r, ps[e.intent.publicationId].intent)
    ensures ps[e.intent.publicationId].intent.publicationId == e.intent.publicationId
  {
    assert PublicationOk(a, s, r, e.intent.publicationId, ps[e.intent.publicationId]);
  }

  lemma Approver(db: Db, id: Text)
    requires id in db.publications && db.publications[id].intent.publicationId == id
    requires ApprovalsOk(db.artifacts, db.sessions, db.results, db.publications, db.approvals)
    requires db.publications[id].preparedHead.Some? && ExactlyApproved(db.approvals, id, db.publications[id])
    ensures exists k :: ApprovedBy(db, db.publications[id], k)
  {
    var p := db.publications[id];
    var k :| k in db.approvals && db.approvals[k].publicationId == id && db.approvals[k].decision == APPROVED
             && ExactHead(p, db.approvals[k]);
    assert ApprovalOk(db.artifacts, db.sessions, db.results, db.publications, db.approvals[k]);
    assert ApprovedBy(db, p, k);
  }

  // Every stored effect, and so every stored receipt: the publication passed verification
  // at the effect's head, with an exact approval and a successful implementer behind it,
  // and the receipt shows its base, tree and head.
  lemma EffectsHaveProvenance(db: Db, effectId: Text)
    requires Inv(db) && effectId in db.effects
    ensures Provenance(db, db.effects[effectId])
  {
    var e := db.effects[effectId];
    var id := e.intent.publicationId;
    assert EffectOk(db.publications, db.approvals, e);
    EffectVerified(db.artifacts, db.sessions, db.results, db.publications, db.approvals, e);
    ApprovalsAreExact(db.artifacts, db.sessions, db.results, db.publications, db.approvals, id, e.intent.headSha);
    Approver(db, id);
  }

  lemma RunInv(ops: seq<StoreOp>)
    requires AllConstructible(ops)
    ensures Inv(Run(EMPTY, ops))
  {
    EmptyInv();
    RunGood(EMPTY, ops);
  }

  // So it is after any run of the stores, whatever raised along the way.
  lemma ReceiptsHaveProvenance(ops: seq<StoreOp>, effectId: Text)
    requires AllConstructible(ops) && effectId in Run(EMPTY, ops).effects
    ensures Provenance(Run(EMPTY, ops), Run(EMPTY, ops).effects[effectId])
  {
    RunInv(ops);
    EffectsHaveProvenance(Run(EMPTY, ops), effectId);
  }

  /******* A failed verification is final *******/

  ghost predicate Unpublishable(db: Db, id: Text) {
    && (forall k | k in db.approvals :: db.approvals[k].publicationId != id)
    && (forall k | k in db.effects :: db.effects[k].intent.publicationId != id)
    && (forall k | k in db.effects && db.effects[k].receipt.Some? :: db.effects[k].receipt.value.publicationId != id)
  }

  ghost predicate VerificationFailed(db: Db, id: Text) {
    && id in db.publications
    && db.publications[id].verification.Some?
    && db.publications[id].verification.value.status == VERIFY_FAILED
  }

  lemma FailedIsUnpublishable(db: Db, id: Text)
    requires ApprovalsOk(db.artifacts, db.sessions, db.results, db.publications, db.approvals)
    requires EffectsOk(db.publications, db.approvals, db.effects) && VerificationFailed(db, id)
    ensures Unpublishable(db, id)
  {
    forall k | k in db.approvals ensures db.approvals[k].publicationId != id {
      assert ApprovalOk(db.artifacts, db.sessions, db.results, db.publications, db.approvals[k]);
    }
    forall k | k in db.effects
      ensures db.effects[k].intent.publicationId != id
      ensures db.effects[k].receipt.Some? ==> db.effects[k].receipt.value.publicationId != id
    {
      assert EffectOk(db.publications, db.approvals, db.effects[k]);
    }
  }

  lemma FailedStaysFailed(db: Db, db': Db, id: Text)
    requires Inv(db) && Good(db, db') && VerificationFailed(db, id)
    ensures id in db'.publications && db'.publications[id] == db.publications[id]
    ensures db.publications[id].state == VERIFIED && Unpublishable(db', id)
  {
    assert Later(db.publications[id], db'.publications[id]);
    assert PublicationOk(db.artifacts, db.sessions, db.results, id, db.publications[id]);
    FailedIsUnpublishable(db', id);
  }

  // The state is called VERIFIED all the same, but nothing later gives the publication
  // an approval, an effect or a receipt.
  lemma FailedVerificationIsFinal(db: Db, ops: seq<StoreOp>, id: Text)
    requires Inv(db) && AllConstructible(ops) && VerificationFailed(db, id)
    ensures var db' := Run(db, ops);
            && id in db'.publications && db'.publications[id] == db.publications[id]
            && db'.publications[id].state == VERIFIED && Unpublishable(db', id)
  {
    RunGood(db, ops);
    FailedStaysFailed(db, Run(db, ops), id);
  }

  /******* Ledger monotonicity *******/

  lemma PublicationAdvances(db: Db, db': Db, id: Text)
    requires Inv(db) && Good(db, db') && id in db.publications
    ensures Shape(db.publications[id])
    ensures id in db'.publications && Later(db.publications[id], db'.publications[id])
  {
    assert PublicationOk(db.artifacts, db.sessions, db.results, id, db.publications[id]);
  }

  // Over any run a publication is RESERVED/0, PREPARED/1 or VERIFIED/2 with exactly the
  // parts that belong to that stage, moves only forward, and keeps every part it has.
  lemma PublicationsOnlyAdvance(ops: seq<StoreOp>, more: seq<StoreOp>, id: Text)
    requires AllConstructible(ops) && AllConstructible(more) && id in Run(EMPTY, ops).publications
    ensures var db := Run(EMPTY, ops);
            var db' := Run(db, more);
            && Shape(db.publications[id])
            && id in db'.publications && Later(db.publications[id], db'.publications[id])
  {
    RunInv(ops);
    RunGood(Run(EMPTY, ops), more);
    PublicationAdvances(Run(EMPTY, ops), Run(Run(EMPTY, ops), more), id);
  }

  ghost predicate EffectKept(db: Db, db': Db, j: Text)
    requires j in db.effects
  {
    && j in db'.effects && db'.effects[j].intent == db.effects[j].intent
    && (db.effects[j].receipt.Some? ==> db'.effects[j] == db.effects[j])
    && (forall k | k in db'.effects && db'.effects[k].intent.publicationId == db.effects[j].intent.publicationId ::
          k == j)
  }

  lemma EffectIsWriteOnce(db: Db, db': Db, j: Text)
    requires Good(db, db') && j in db.effects
    ensures EffectKept(db, db', j)
  {
    hide TasksOk, EventsOk, SourcesOk, WorkspacesOk, PublicationsOk, ApprovalsOk, ObservationsOk, EffectOk;
    hide TasksGrow, HistoriesGrow, SubMap, SessionsGrow, WorkspacesGrow, PublicationsGrow;
  }

  // A publication has one effect, whose intent never changes and whose receipt is
  // written once.
  lemma EffectsAreWriteOnce(ops: seq<StoreOp>, more: seq<StoreOp>, j: Text)
    requires AllConstructible(ops) && AllConstructible(more) && j in Run(EMPTY, ops).effects
    ensures EffectKept(Run(EMPTY, ops), Run(Run(EMPTY, ops), more), j)
  {
    hide Inv, Apply, Extends;
    RunInv(ops);
    RunGood(Run(EMPTY, ops), more);
    EffectIsWriteOnce(Run(EMPTY, ops), Run(Run(EMPTY, ops), more), j);
  }

  /******* The record constructors never refuse *******/

  lemma PublicationConstructors(a: Artifacts, s: Sessions, r: Results, m: Publications,
                                h: PreparedHead, v: VerificationResult, n: nat)
    requires PublicationsOk(a, s, r, m)
    ensures RecordPrepared(m, h, n).out != Err(Validation)
    ensures RecordVerification(m, v, n).out != Err(Validation)
  {
    if h.publicationId in m { assert PublicationOk(a, s, r, h.publicationId, m[h.publicationId]); }
    if v.publicationId in m { assert PublicationOk(a, s, r, v.publicationId, m[v.publicationId]); }
  }

  lemma EffectConstructor(ps: Publications, d: Approvals, m: Effects, c: PublicationReceipt)
    requires EffectsOk(ps, d, m)
    ensures EffectReconcile(m, ps, c).out == Err(Validation)
       <==> c.effectId !in m || m[c.effectId].intent.publicationId != c.publicationId
  {
  }

  // The checks PublicationRecord and PublicationEffectRecord make of themselves are
  // implied by the guards that precede them, given consistent ledgers.
  lemma ConstructorsNeverRefuse(db: Db, h: PreparedHead, v: VerificationResult, c: PublicationReceipt, n: nat)
    requires Inv(db)
    ensures RecordPrepared(db.publications, h, n).out != Err(Validation)
    ensures RecordVerification(db.publications, v, n).out != Err(Validation)
    ensures EffectReconcile(db.effects, db.publications, c).out == Err(Validation)
       <==> c.effectId !in db.effects || db.effects[c.effectId].intent.publicationId != c.publicationId
  {
    PublicationConstructors(db.artifacts, db.sessions, db.results, db.publications, h, v, n);
    EffectConstructor(db.publications, db.approvals, db.effects, c);
  }
}

// Migration 0009: prepared heads and effects move from refs/meta-loop/ to
// refs/heads/meta-loop/, in place, and everything the ledgers prove stays true.

module RefMigration {
  import opened Json
  import opened Domain
  import opened Records
  import opened Ledgers
  import opened Database
  import opened LedgerInvariants
  import opened Publication
  import opened PublicationOutcomes

  /******* The rewrite of one row *******/

  function NewRef(publicationId: Text, ref: Text): Text {
    if ref == LegacyRef(publicationId) then PublicationRef(publicationId) else ref
  }

  function NewPublication(p: PublicationRecord): PublicationRecord {
    if p.preparedHead.None? then p
    else
      var h := p.preparedHead.value;
      p.(preparedHead := Some(h.(deterministicRef := NewRef(p.intent.publicationId, h.deterministicRef))))
  }

  // The row keeps the ref twice, in a column and inside the intent document; the column decides.
  datatype EffectRow = EffectRow(ref: Text, record: PublicationEffectRecord)

  function NewEffectRow(e: EffectRow): EffectRow {
    var id := e.record.intent.publicationId;
    if e.ref != LegacyRef(id) then e
    else
      EffectRow(PublicationRef(id), e.record.(intent := e.record.intent.(deterministicRef := PublicationRef(id))))
  }

  type EffectRows = map<Text, EffectRow>

  function NewPublications(m: Publications): Publications { map k | k in m :: NewPublication(m[k]) }

  function NewEffectRows(m: EffectRows): EffectRows { map k | k in m :: NewEffectRow(m[k]) }

  /******* The tables, with their constraints and trigger *******/

  // CHECK of migration 0008, dropped here, and the one added here.
  predicate OldCheck(publicationId: Text, ref: Text) { ref == LegacyRef(publicationId) }

  predicate NewCheck(publicationId: Text, ref: Text) { KnownRef(publicationId, ref) }

  datatype Check = NoCheck | LegacyOnly | EitherForm

  predicate Passes(c: Check, publicationId: Text, ref: Text) {
    match c
    case NoCheck => true
    case LegacyOnly => OldCheck(publicationId, ref)
    case EitherForm => NewCheck(publicationId, ref)
  }

  predicate PublicationsPass(c: Check, m: Publications) {
    forall k | k in m && m[k].preparedHead.Some? ::
      Passes(c, m[k].intent.publicationId, m[k].preparedHead.value.deterministicRef)
  }

  predicate EffectsPass(c: Check, m: EffectRows) {
    forall k | k in m :: Passes(c, m[k].record.intent.publicationId, m[k].ref)
  }

  // What the immutability trigger lets an update of the effects change: nothing of the intent.
  predicate IntentsKept(m: EffectRows, n: EffectRows) {
    forall k | k in m && k in n :: n[k].ref == m[k].ref && n[k].record.intent == m[k].record.intent
  }

  class Tables {
    var publications: Publications
    var effects: EffectRows
    var publicationCheck: Check
    var effectCheck: Check
    var immutable: bool

    constructor (p: Publications, e: EffectRows)
      ensures publications == p && effects == e
      ensures publicationCheck == LegacyOnly && effectCheck == LegacyOnly && immutable
    {
      publications, effects := p, e;
      publicationCheck, effectCheck, immutable := LegacyOnly, LegacyOnly, true;
    }

    method DropGuards()
      modifies this
      ensures publicationCheck == NoCheck && effectCheck == NoCheck && !immutable
      ensures publications == old(publications) && effects == old(effects)
    {
      publicationCheck := NoCheck;
      effectCheck := NoCheck;
      immutable := false;
    }

    // A statement the constraints or the trigger refuse changes nothing.
    method UpdatePublications() returns (ok: bool)
      modifies this`publications
      ensures ok == PublicationsPass(publicationCheck, NewPublications(old(publications)))
      ensures publications == if ok then NewPublications(old(publications)) else old(publications)
    {
      ok := PublicationsPass(publicationCheck, NewPublications(publications));
      if ok { publications := NewPublications(publications); }
    }

    method UpdateEffects() returns (ok: bool)
      modifies this`effects
      ensures ok == (EffectsPass(effectCheck, NewEffectRows(old(effects)))
                     && (immutable ==> IntentsKept(old(effects), NewEffectRows(old(effects)))))
      ensures effects == if ok then NewEffectRows(old(effects)) else old(effects)
    {
      var n := NewEffectRows(effects);
      ok := EffectsPass(effectCheck, n) && (immutable ==> IntentsKept(effects, n));
      if ok { effects := n; }
    }

    method RestoreGuards() returns (ok: bool)
      modifies this`publicationCheck, this`effectCheck, this`immutable
      ensures ok == (PublicationsPass(EitherForm, publications) && EffectsPass(EitherForm, effects))
      ensures ok ==> publicationCheck == EitherForm && effectCheck == EitherForm && immutable
    {
      immutable := true;
      ok := PublicationsPass(EitherForm, publications);
      if ok {
        publicationCheck := EitherForm;
        ok := EffectsPass(EitherForm, effects);
        if ok { effectCheck := EitherForm; }
      }
    }

    // On any tables with refs in one of the two forms the migration goes through and
    // leaves every prepared publication and every effect in the new form.
    method Migrate() returns (ok: bool)
      requires PublicationsPass(EitherForm, publications) && EffectsPass(EitherForm, effects)
      modifies this
      ensures ok && publicationCheck == EitherForm && effectCheck == EitherForm && immutable
      ensures publications == NewPublications(old(publications)) && effects == NewEffectRows(old(effects))
      ensures forall k | k in publications && publications[k].preparedHead.Some? ::
                publications[k].preparedHead.value.deterministicRef
                == PublicationRef(publications[k].intent.publicationId)
      ensures forall k | k in effects :: effects[k].ref == PublicationRef(effects[k].record.intent.publicationId)
    {
      DropGuards();
      var first := UpdatePublications();
      var second := UpdateEffects();
      assert first && second;
      ok := RestoreGuards();
    }
  }

  // With the trigger in place the update goes through exactly when there is nothing to rewrite.
  lemma TriggerWouldRefuse(m: EffectRows)
    ensures IntentsKept(m, NewEffectRows(m)) <==> forall k | k in m ::
      m[k].ref != LegacyRef(m[k].record.intent.publicationId)
  {
    forall k | k in m && m[k].ref == LegacyRef(m[k].record.intent.publicationId)
      ensures !IntentsKept(m, NewEffectRows(m))
    {
      FormsDiffer(m[k].record.intent.publicationId);
      assert NewEffectRows(m)[k].ref != m[k].ref;
    }
  }

  lemma FormsDiffer(id: Text)
    ensures LegacyRef(id) != PublicationRef(id)
  {
    assert |LegacyRef(id)| == 15 + |id| && |PublicationRef(id)| == 21 + |id|;
  }

  /******* Meaning *******/

  // The rows of a database, the column agreeing with the document, and back.
  function RowsOf(m: Effects): EffectRows { map k | k in m :: EffectRow(m[k].intent.deterministicRef, m[k]) }

  function RecordsOf(m: EffectRows): Effects { map k | k in m :: m[k].record }

  function Migrated(db: Db): Db {
    db.(publications := NewPublications(db.publications), effects := RecordsOf(NewEffectRows(RowsOf(db.effects))))
  }

  function NewEffect(e: PublicationEffectRecord): PublicationEffectRecord {
    e.(intent := e.intent.(deterministicRef := NewRef(e.intent.publicationId, e.intent.deterministicRef)))
  }

  lemma EffectByEffect(m: Effects)
    ensures RecordsOf(NewEffectRows(RowsOf(m))) == map k | k in m :: NewEffect(m[k])
  {
  }

  lemma PublicationMigrates(a: Artifacts, s: Sessions, r: Results, id: Text, p: PublicationRecord)
    requires PublicationOk(a, s, r, id, p)
    ensures PublicationOk(a, s, r, id, NewPublication(p))
  {
    hide ImplementerOwns, Identifier, Sha;
  }

  lemma ApprovalMigrates(a: Artifacts, s: Sessions, r: Results, m: Publications, d: PublicationReviewDecision)
    requires ApprovalOk(a, s, r, m, d)
    ensures ApprovalOk(a, s, r, NewPublications(m), d)
  {
    hide ReviewerMatches;
  }

  // An effect's ref is its publication's prepared ref, before and after.
  lemma EffectMigrates(m: Publications, d: Approvals, e: PublicationEffectRecord)
    requires EffectOk(m, d, e) && m[e.intent.publicationId].intent.publicationId == e.intent.publicationId
    ensures EffectOk(NewPublications(m), d, NewEffect(e))
  {
    hide HasApproval, Identifier, Sha;
  }

  lemma PublicationsMigrate(a: Artifacts, s: Sessions, r: Results, m: Publications)
    requires PublicationsOk(a, s, r, m)
    ensures PublicationsOk(a, s, r, NewPublications(m))
  {
    hide PublicationOk, NewPublication;
    forall k | k in m ensures PublicationOk(a, s, r, k, NewPublication(m[k])) { PublicationMigrates(a, s, r, k, m[k]); }
  }

  lemma ApprovalsMigrate(a: Artifacts, s: Sessions, r: Results, m: Publications, d: Approvals)
    requires ApprovalsOk(a, s, r, m, d)
    ensures ApprovalsOk(a, s, r, NewPublications(m), d)
  {
    hide ApprovalOk, NewPublications;
    forall k | k in d ensures ApprovalOk(a, s, r, NewPublications(m), d[k]) { ApprovalMigrates(a, s, r, m, d[k]); }
  }

  lemma EffectsMigrate(a: Artifacts, s: Sessions, r: Results, m: Publications, d: Approvals, e: Effects)
    requires PublicationsOk(a, s, r, m) && EffectsOk(m, d, e)
    ensures EffectsOk(NewPublications(m), d, RecordsOf(NewEffectRows(RowsOf(e))))
  {
    hide NewPublications, RecordsOf, NewEffectRows, RowsOf, EffectOk;
    EffectByEffect(e);
    forall k | k in e ensures EffectOk(NewPublications(m), d, NewEffect(e[k])) {
      EffectPublication(a, s, r, m, d, e[k]);
      EffectMigrates(m, d, e[k]);
    }
  }

  lemma EffectPublication(a: Artifacts, s: Sessions, r: Results, m: Publications, d: Approvals,
                          e: PublicationEffectRecord)
    requires PublicationsOk(a, s, r, m) && EffectOk(m, d, e)
    ensures e.intent.publicationId in m && m[e.intent.publicationId].intent.publicationId == e.intent.publicationId
  {
    hide HasApproval;
    assert PublicationOk(a, s, r, e.intent.publicationId, m[e.intent.publicationId]);
  }

  lemma ObservationsMigrate(m: Publications, o: Observations)
    requires ObservationsOk(m, o)
    ensures ObservationsOk(NewPublications(m), o)
  {
  }

  // Everything proved of reachable ledgers holds of the migrated ones: provenance, one
  // effect for a publication, matching refs, exact receipts.
  lemma MigrationKeepsLedgers(db: Db)
    requires Inv(db)
    ensures Inv(Migrated(db))
  {
    hide NewPublications, RecordsOf, NewEffectRows, RowsOf, PublicationsOk, ApprovalsOk, EffectsOk, ObservationsOk;
    PublicationsMigrate(db.artifacts, db.sessions, db.results, db.publications);
    ApprovalsMigrate(db.artifacts, db.sessions, db.results, db.publications, db.approvals);
    EffectsMigrate(db.artifacts, db.sessions, db.results, db.publications, db.approvals, db.effects);
    ObservationsMigrate(db.publications, db.observations);
  }

  // Nothing but refs changes: keys, intents, shas, verifications, states, versions,
  // receipts; and a second migration changes nothing at all.
  lemma MigrationChangesOnlyRefs(db: Db)
    ensures var n := Migrated(db);
            && n == db.(publications := n.publications, effects := n.effects)
            && n.publications.Keys == db.publications.Keys && n.effects.Keys == db.effects.Keys
            && (forall k | k in db.publications ::
                  && n.publications[k].(preparedHead := None) == db.publications[k].(preparedHead := None)
                  && (n.publications[k].preparedHead.Some? <==> db.publications[k].preparedHead.Some?)
                  && (db.publications[k].preparedHead.Some? ==>
                        n.publications[k].preparedHead.value.(deterministicRef := [])
                        == db.publications[k].preparedHead.value.(deterministicRef := [])))
            && (forall k | k in db.effects ::
                  n.effects[k].receipt == db.effects[k].receipt
                  && n.effects[k].intent.(deterministicRef := []) == db.effects[k].intent.(deterministicRef := []))
  {
    EffectByEffect(db.effects);
  }

  lemma PublicationsTwice(m: Publications)
    ensures NewPublications(NewPublications(m)) == NewPublications(m)
  {
  }

  lemma EffectsTwice(m: Effects)
    ensures var n := RecordsOf(NewEffectRows(RowsOf(m))); RecordsOf(NewEffectRows(RowsOf(n))) == n
  {
    EffectByEffect(m);
    EffectByEffect(RecordsOf(NewEffectRows(RowsOf(m))));
  }

  lemma MigrationIsIdempotent(db: Db)
    ensures Migrated(Migrated(db)) == Migrated(db)
  {
    hide NewPublications, RecordsOf, NewEffectRows, RowsOf;
    PublicationsTwice(db.publications);
    EffectsTwice(db.effects);
  }

  // Every prepared head ends in the form publish requires, whatever form it had.
  lemma MigratedRefsArePublishable(db: Db, id: Text)
    requires Inv(db) && id in db.publications && db.publications[id].preparedHead.Some?
    ensures Migrated(db).publications[id].preparedHead.value.deterministicRef == PublicationRef(id)
  {
    hide SourcesOk, EventsOk, WorkspacesOk, ApprovalsOk, EffectsOk, ObservationsOk;
    assert PublicationOk(db.artifacts, db.sessions, db.results, id, db.publications[id]);
  }

  // The migration touches nothing that publish asks but the branch.
  lemma SameConditions(db: Db, id: Text, effectId: Text)
    ensures PassedHead(Migrated(db), id) <==> PassedHead(db, id)
    ensures HeadApproved(Migrated(db), id) <==> HeadApproved(db, id)
    ensures EffectFits(Migrated(db), id, effectId) <==> EffectFits(db, id, effectId)
    ensures id in db.publications ==> Migrated(db).publications[id].intent == db.publications[id].intent
  {
    hide EffectFits;
    var n := Migrated(db);
    if HeadApproved(db, id) { ApprovedStill(db, n, id); }
    if HeadApproved(n, id) { ApprovedStill(n, db, id); }
    FitsStill(db, id, effectId);
  }

  lemma FitsStill(db: Db, id: Text, effectId: Text)
    ensures EffectFits(Migrated(db), id, effectId) <==> EffectFits(db, id, effectId)
  {
    hide Identifier;
    EffectByEffect(db.effects);
    var n := Migrated(db).effects;
    assert n.Keys == db.effects.Keys;
    assert forall k | k in db.effects :: n[k].intent.publicationId == db.effects[k].intent.publicationId;
    assert (forall k | k in n :: n[k].intent.publicationId != id)
      <==> forall k | k in db.effects :: db.effects[k].intent.publicationId != id by {
      if forall k | k in n :: n[k].intent.publicationId != id {
        forall k | k in db.effects ensures db.effects[k].intent.publicationId != id { assert k in n; }
      }
    }
  }

  lemma ApprovedStill(a: Db, b: Db, id: Text)
    requires HeadApproved(a, id) && b.approvals == a.approvals && id in b.publications
    requires b.publications[id].intent == a.publications[id].intent && b.publications[id].preparedHead.Some?
    requires var h, k := a.publications[id].preparedHead.value, b.publications[id].preparedHead.value;
             h.baseSha == k.baseSha && h.treeSha == k.treeSha && h.headSha == k.headSha
    ensures HeadApproved(b, id)
  {
    var i, h := a.publications[id].intent, a.publications[id].preparedHead.value;
    var k :| k in a.approvals && a.approvals[k].publicationId == id && a.approvals[k].decision == APPROVED
             && a.approvals[k].taskId == i.taskId && a.approvals[k].patchDigest == i.patchDigest
             && a.approvals[k].baseSha == h.baseSha && a.approvals[k].treeSha == h.treeSha
             && a.approvals[k].headSha == h.headSha;
    assert b.approvals[k].publicationId == id;
  }

  lemma OwnAfter(db: Db, id: Text)
    requires Inv(db)
    ensures id in db.publications && db.publications[id].preparedHead.Some? ==> OwnBranch(Migrated(db), id)
  {
    hide Inv;
    if id in db.publications && db.publications[id].preparedHead.Some? { MigratedRefsArePublishable(db, id); }
  }

  lemma WaitsStill(db: Db, i: PublicationIntent)
    ensures TaskWaits(Migrated(db), i) <==> TaskWaits(db, i)
    ensures Migrated(db).fuse == db.fuse
  {
    hide NewPublications, RecordsOf, NewEffectRows, RowsOf;
  }

  // After the migration publish begins exactly if all it asks but the branch holds before it.
  lemma MigrationFreesPublish(db: Db, id: Text, effectId: Text)
    requires Inv(db)
    ensures Begin(Migrated(db), id, effectId).out.Ok?
       <==> Publishable(db, id) && HeadApproved(db, id) && EffectFits(db, id, effectId)
  {
    hide Inv, Migrated, Begin, PassedHead, HeadApproved, EffectFits, TaskWaits, OwnBranch;
    MigrationKeepsLedgers(db);
    BeginExactly(Migrated(db), id, effectId);
    SameConditions(db, id, effectId);
    OwnAfter(db, id);
    if PassedHead(db, id) {
      PassedParts(db, id);
      PassedParts(Migrated(db), id);
      WaitsStill(db, db.publications[id].intent);
    }
  }

  // Before it, a legacy head is refused.
  lemma LegacyHeadsBecomePublishable(db: Db, id: Text, effectId: Text)
    requires Inv(db) && id in db.publications && db.publications[id].preparedHead.Some?
    requires db.publications[id].preparedHead.value.deterministicRef == LegacyRef(id)
    ensures Begin(db, id, effectId).out == Err(Validation)
    ensures Begin(Migrated(db), id, effectId).out.Ok?
       <==> Publishable(db, id) && HeadApproved(db, id) && EffectFits(db, id, effectId)
  {
    hide Inv, Migrated;
    FormsDiffer(id);
    MigrationFreesPublish(db, id, effectId);
    hide PassedHead, HeadApproved, EffectFits, TaskWaits;
  }
}

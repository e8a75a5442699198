// A run that leaves a publication stuck: its base branch moves between the publisher's
// check of the base and its request for the pull request.

module MovedBase {
  import opened Json
  import opened Domain
  import opened Records
  import opened Ledgers
  import opened Database
  import opened LedgerInvariants
  import opened Publication
  import opened Provenance
  import opened GitHub
  import opened Publisher
  import opened Recovery
  import opened SampleNames
  import opened SamplePublication

  /******* The publisher, the local repository and the remote *******/

  // A forge that gives every object the name the local repository gives it.
  function Naming(): Forge { Forge(t => OneSha(), (t, es) => OneSha(), p => OneSha()) }

  function Publishing(): Config { Config(true, map[][REPOSITORY := T], Naming()) }

  function Checkout(): Local { Local(OneSha(), ZeroSha(), ZeroSha(), [], Some(T)) }

  function Origin(): Remote { Remote(map[][REPOSITORY := ZeroSha()], {}, map[], map[], []) }

  function Effect(): PublicationEffectIntent { EffectIntent(T, T, Head()) }

  function TheJob(): Job { Job(Intent(), Head(), Effect()) }

  function Begun(): Db { Approved(Review()).(effects := map[][T := PublicationEffectRecord(Effect(), None)]) }

  /******* The run *******/

  function Requests(n: nat): seq<Action> {
    if n == 0 then [] else Requests(n - 1) + [RemoteStep(0, 1)]
  }

  // The whole attempt, with the base moved right before its last request.
  function StuckActions(): seq<Action> {
    [BeginPublish(0, T, T, Checkout())] + Requests(7) + [MoveBase(REPOSITORY, OneSha())] + [RemoteStep(0, 1)]
  }

  // The publisher at the point, on the remote.
  function At(r: Remote, p: Point): System {
    System(Begun(), r, map[][0 := Remoting(T, TheJob(), Checkout(), p)])
  }

  lemma RecordReady()
    ensures SuccessfullyVerified(Record()) && TaskReady(ReadyTask(), Intent()) && Effect().Accepted()
    ensures Record().preparedHead == Some(Head()) && Record().intent == Intent()
    ensures Head().deterministicRef == PublicationRef(T) && Intent().taskId == T
  {
    NamesAccepted();
  }

  lemma ApprovalExact()
    ensures Record().preparedHead.Some? && ExactlyApproved(map[][T := Approval(Review())], T, Record())
    ensures HasApproval(map[][T := Approval(Review())], T, OneSha())
  {
    assert T in map[][T := Approval(Review())];
  }

  lemma EffectTaken()
    ensures var e, d := PublicationEffectRecord(Effect(), None), map[][T := Approval(Review())];
            EffectRequest(map[], map[][T := Record()], d, Effect()) == Put(map[][T := e], Ok((e, true)))
  {
    hide HasApproval;
    ApprovalExact();
  }

  lemma BeginReturns()
    ensures Begin(Approved(Review()), T, T) == Step(Begun(), Ok(Proceed(TheJob())))
  {
    hide Supported, EffectRequest, Record, SuccessfullyVerified, TaskReady, PublicationEffectIntent.Accepted,
         ExactlyApproved, Intent, Head, ReadyTask, Approval;
    SupportedSource();
    NoEffects();
    RecordReady();
    ApprovalExact();
    EffectTaken();
  }

  lemma NoEffects()
    ensures Supported().effects == map[]
  {
  }

  function Start(): System { System(Approved(Review()), Origin(), map[]) }

  lemma ActLast(acts: seq<Action>, a: Action)
    ensures RunActions(Publishing(), Start(), acts + [a])
         == Act(Publishing(), RunActions(Publishing(), Start(), acts), a)
  {
    hide Act;
    assert (acts + [a])[..|acts|] == acts;
  }

  lemma BeginsAtBase()
    ensures Act(Publishing(), Start(), BeginPublish(0, T, T, Checkout())) == At(Origin(), AtBase)
  {
    hide Begin, Approved, Begun;
    BeginReturns();
    assert Bound(Publishing(), TheJob()) && LocalIntact(Checkout(), TheJob());
  }

  lemma RequestMade(r: Remote, p: Point, s: Remote, q: Point)
    requires !p.Done? && !p.Stopped? && TheJob().intent.repositoryName in Publishing().baseBranches
    requires Request(Publishing(), Checkout(), TheJob(), r, p, 1) == (s, q)
    ensures AfterRequest(Publishing(), r, T, TheJob(), Checkout(), p, 1)
         == (s, Remoting(T, TheJob(), Checkout(), q))
  {
    hide Request, TheJob, Checkout;
  }

  // One more request.
  lemma Requested(acts: seq<Action>, r: Remote, p: Point, s: Remote, q: Point)
    requires RunActions(Publishing(), Start(), acts) == At(r, p) && !p.Done? && !p.Stopped?
    requires TheJob().intent.repositoryName in Publishing().baseBranches
    requires Request(Publishing(), Checkout(), TheJob(), r, p, 1) == (s, q)
    ensures RunActions(Publishing(), Start(), acts + [RemoteStep(0, 1)]) == At(s, q)
  {
    hide RunActions, Begun, Request, TheJob, Checkout, AfterRequest, Publishing, Start;
    ActLast(acts, RemoteStep(0, 1));
    RequestMade(r, p, s, q);
    assert (map[][0 := Remoting(T, TheJob(), Checkout(), p)])[0 := Remoting(T, TheJob(), Checkout(), q)]
        == map[][0 := Remoting(T, TheJob(), Checkout(), q)];
  }

  /******* What the remote looks like along the way *******/

  function WithObjects(): Remote { Origin().(objects := {} + {Key(REPOSITORY, OneSha())}) }

  function WithCommit(): Remote { WithObjects().(commits := map[][Key(REPOSITORY, OneSha()) := OneSha()]) }

  function WithRef(): Remote { WithCommit().(refs := map[][RefKey(TheJob()) := OneSha()]) }

  function Moved(): Remote { WithRef().(tips := Origin().tips[REPOSITORY := OneSha()]) }

  // Opened against the base the remote sees.
  function Stray(): Pull { Pull(REPOSITORY, 1, OneSha(), T, OneSha(), Branch(T)) }

  function Stuck(): Remote { Moved().(pulls := [] + [Stray()]) }

  lemma RequestsBeforeRef()
    ensures TheJob().intent.repositoryName in Publishing().baseBranches
    ensures var c, l, j := Publishing(), Checkout(), TheJob();
            && Request(c, l, j, Origin(), AtBase, 1) == (Origin(), AtRef)
            && Request(c, l, j, Origin(), AtRef, 1) == (Origin(), AtObjects(0, []))
            && Request(c, l, j, Origin(), AtObjects(0, []), 1) == (WithObjects(), AtCommit)
            && Request(c, l, j, WithObjects(), AtCommit, 1) == (WithCommit(), AtNewCommit)
            && Request(c, l, j, WithCommit(), AtNewCommit, 1) == (WithCommit(), AtPostRef)
  {
  }

  lemma RequestsFromRef()
    ensures TheJob().intent.repositoryName in Publishing().baseBranches
    ensures var c, l, j := Publishing(), Checkout(), TheJob();
            && Request(c, l, j, WithCommit(), AtPostRef, 1) == (WithRef(), AtPulls)
            && Request(c, l, j, WithRef(), AtPulls, 1) == (WithRef(), AtPostPull)
            && Request(c, l, j, Moved(), AtPostPull, 1) == (Stuck(), Stopped)
  {
    NamesAccepted();
  }

  lemma MoveStep(acts: seq<Action>)
    requires RunActions(Publishing(), Start(), acts) == At(WithRef(), AtPostPull)
    ensures RunActions(Publishing(), Start(), acts + [MoveBase(REPOSITORY, OneSha())]) == At(Moved(), AtPostPull)
  {
    hide RunActions, Begun;
    ActLast(acts, MoveBase(REPOSITORY, OneSha()));
  }

  lemma FirstAct()
    ensures RunActions(Publishing(), Start(), [BeginPublish(0, T, T, Checkout())]) == At(Origin(), AtBase)
  {
    hide Act;
    BeginsAtBase();
    ActLast([], BeginPublish(0, T, T, Checkout()));
    assert [] + [BeginPublish(0, T, T, Checkout())] == [BeginPublish(0, T, T, Checkout())];
  }

  lemma RequestsMore(first: seq<Action>, n: nat)
    ensures first + Requests(n + 1) == (first + Requests(n)) + [RemoteStep(0, 1)]
  {
  }

  // Seven requests put the branch in place and find no pull request.
  lemma SevenRequests(first: seq<Action>)
    requires RunActions(Publishing(), Start(), first) == At(Origin(), AtBase)
    ensures RunActions(Publishing(), Start(), first + Requests(7)) == At(WithRef(), AtPostPull)
  {
    hide RunActions, Begun, Request, TheJob, Checkout, Publishing, Start, At, Requests;
    RequestsBeforeRef();
    RequestsFromRef();
    assert first + Requests(0) == first by { NoRequests(); }
    Requested(first + Requests(0), Origin(), AtBase, Origin(), AtRef);
    RequestsMore(first, 0);
    Requested(first + Requests(1), Origin(), AtRef, Origin(), AtObjects(0, []));
    RequestsMore(first, 1);
    Requested(first + Requests(2), Origin(), AtObjects(0, []), WithObjects(), AtCommit);
    RequestsMore(first, 2);
    Requested(first + Requests(3), WithObjects(), AtCommit, WithCommit(), AtNewCommit);
    RequestsMore(first, 3);
    Requested(first + Requests(4), WithCommit(), AtNewCommit, WithCommit(), AtPostRef);
    RequestsMore(first, 4);
    Requested(first + Requests(5), WithCommit(), AtPostRef, WithRef(), AtPulls);
    RequestsMore(first, 5);
    Requested(first + Requests(6), WithRef(), AtPulls, WithRef(), AtPostPull);
    RequestsMore(first, 6);
  }

  lemma NoRequests()
    ensures Requests(0) == []
  {
  }

  lemma {:induction false} RequestsPlausible(n: nat)
    ensures AllPlausible(Requests(n))
  {
    if n > 0 { RequestsPlausible(n - 1); }
  }

  // From a ledger a run of the stores filled and a remote nobody has published to, with a
  // local repository that spells the head and nothing in the publisher's way, the run opens
  // a pull request against a base that is not the publication's, and stops.
  lemma MovedBaseStrands()
    ensures Run(EMPTY, SourceOps() + PublicationOps(Review())) == Start().db && Untouched(Start().remote)
    ensures AllConstructible(SourceOps() + PublicationOps(Review())) && AllPlausible(StuckActions())
    ensures Completes(Publishing(), Checkout(), TheJob(), Start().remote)
    ensures RunActions(Publishing(), Start(), StuckActions()) == At(Stuck(), Stopped)
    ensures Asked(Publishing(), TheJob(), Stray()) && Stray().baseSha != Intent().baseSha
  {
    hide RunActions, Begun, Request, Act, Run, Approved, At, Requests, AllConstructible;
    NamesAccepted();
    ApprovedRun(Review());
    var first := [BeginPublish(0, T, T, Checkout())];
    var acts := first + Requests(7);
    FirstAct();
    SevenRequests(first);
    MoveStep(acts);
    MovedBaseOpens(Publishing(), TheJob(), Moved(), 1);
    RequestsFromRef();
    Requested(acts + [MoveBase(REPOSITORY, OneSha())], Moved(), AtPostPull, Stuck(), Stopped);
    RequestsPlausible(7);
    assert Entries([]) == [];
  }

  // After it, whatever happens, every undisturbed attempt at this publication stops.
  lemma StrandedForever(more: seq<Action>, l: Local, number: int)
    requires AllPlausible(more) && number > 0
    ensures var r := RunActions(Publishing(), Start(), StuckActions() + more).remote;
            Attempt(Publishing(), l, TheJob(), r, number).1 == Stopped
  {
    hide RunActions, Act, Attempt, Run, Approved, SystemOk, AllConstructible, StuckActions, Asked, Inv;
    MovedBaseStrands();
    RunInv(SourceOps() + PublicationOps(Review()));
    FreshOk(Publishing(), Start().db, Start().remote);
    RunGoes(Publishing(), Start(), StuckActions());
    ActsThen(Publishing(), Start(), StuckActions(), more);
    StuckForGood(Publishing(), At(Stuck(), Stopped), more, l, TheJob(), 0, number);
  }

  lemma {:induction false} ActsThen(c: Config, s: System, acts: seq<Action>, more: seq<Action>)
    ensures RunActions(c, s, acts + more) == RunActions(c, RunActions(c, s, acts), more)
  {
    hide Act;
    if more == [] {
      assert acts + more == acts;
    } else {
      var n := |more| - 1;
      ActsThen(c, s, acts, more[..n]);
      assert (acts + more)[..|acts| + n] == acts + more[..n];
    }
  }
}

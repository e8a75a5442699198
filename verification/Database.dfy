// All ledgers together: the state a unit of work commits, the store operations on it
// and their runs.

module Database {
  import opened Json
  import opened Domain
  import opened Records
  import opened Ledgers
  import Queue

  // The database after a call, and what the call returned or raised.
  datatype Step<+T> = Step(db: Db, out: Outcome<T>)

  datatype Db = Db(
    tasks: Tasks,
    events: Events,
    eventIds: EventIds,
    queue: Queue.Rows,
    fuse: FuseState,
    intakes: Intakes,
    sources: Sources,
    control: seq<ControlEvent>,
    artifacts: Artifacts,
    sessions: Sessions,
    results: Results,
    workspaces: Workspaces,
    publications: Publications,
    approvals: Approvals,
    effects: Effects,
    observations: Observations)
  {
    function CreateTask(task: Task): Step<Task> {
      var p := TaskCreate(tasks, task);
      Step(this.(tasks := p.m), p.out)
    }

    function UpdateTask(task: Task, expectedVersion: nat): Step<Task> {
      var p := TaskUpdate(tasks, task, expectedVersion);
      Step(this.(tasks := p.m), p.out)
    }

    function AppendEvent(event: Event, expectedSequence: nat): Step<Event> {
      var p := EventAppend(EventStore(events, eventIds), event, expectedSequence);
      Step(this.(events := p.m.events, eventIds := p.m.ids), p.out)
    }

    function UseQueue<T>(s: Queue.Step<T>): Step<T> {
      Step(this.(queue := s.rows), s.out)
    }

    function SetFuse(state: FuseState): Step<FuseState> {
      Step(this.(fuse := state), Ok(state))
    }

    function CreateIntake(record: IntakeRecord): Step<IntakeRecord> {
      var p := IntakeCreate(intakes, record);
      Step(this.(intakes := p.m), p.out)
    }

    function RecordSource(record: IssueIngestionRecord): Step<(IssueIngestionRecord, bool)> {
      var p := SourceRecordOnce(sources, record);
      Step(this.(sources := p.m), p.out)
    }

    function AppendControl(event: ControlEvent): Step<ControlEvent> {
      Step(this.(control := control + [event]), Ok(event))
    }

    function RegisterArtifact(artifact: CatalogedArtifact): Step<CatalogedArtifact> {
      var p := ArtifactRegister(artifacts, artifact);
      Step(this.(artifacts := p.m), p.out)
    }

    function RecordSession(request: RunnerSessionRequest): Step<RunnerSessionReceipt> {
      var p := SessionRecordOnce(sessions, request);
      Step(this.(sessions := p.m), p.out)
    }

    function SetOutcome(outcome: RunnerSessionOutcome): Step<RunnerSessionRecord> {
      var p := SessionSetOutcome(sessions, outcome);
      Step(this.(sessions := p.m), p.out)
    }

    function RecordResult(result: WorkerResult): Step<bool> {
      var p := ResultRecordOnce(results, result);
      Step(this.(results := p.m), p.out)
    }

    function RecordWorkspace(record: WorkspaceRecord): Step<(WorkspaceRecord, bool)> {
      var p := WorkspaceRecordOnce(workspaces, record);
      Step(this.(workspaces := p.m), p.out)
    }

    function ReleaseWorkspace(allocationId: Text): Step<WorkspaceRecord> {
      var p := WorkspaceRelease(workspaces, allocationId);
      Step(this.(workspaces := p.m), p.out)
    }

    function Reserve(intent: PublicationIntent): Step<(PublicationRecord, bool)> {
      var p := PublicationReserve(publications, tasks, events, artifacts, results, sessions, intent);
      Step(this.(publications := p.m), p.out)
    }

    function Prepare(prepared: PreparedHead, expectedVersion: nat): Step<PublicationRecord> {
      var p := RecordPrepared(publications, prepared, expectedVersion);
      Step(this.(publications := p.m), p.out)
    }

    function Verify(verification: VerificationResult, expectedVersion: nat): Step<PublicationRecord> {
      var p := RecordVerification(publications, verification, expectedVersion);
      Step(this.(publications := p.m), p.out)
    }

    function AppendApproval(decision: PublicationReviewDecision): Step<(PublicationReviewDecision, bool)> {
      var p := ApprovalAppend(approvals, publications, artifacts, sessions, results, decision);
      Step(this.(approvals := p.m), p.out)
    }

    function RequestEffect(intent: PublicationEffectIntent): Step<(PublicationEffectRecord, bool)> {
      var p := EffectRequest(effects, publications, approvals, intent);
      Step(this.(effects := p.m), p.out)
    }

    function ReconcileEffect(receipt: PublicationReceipt): Step<PublicationEffectRecord> {
      var p := EffectReconcile(effects, publications, receipt);
      Step(this.(effects := p.m), p.out)
    }

    function AppendObservation(observation: CheckRunObservation): Step<(CheckRunObservation, bool)> {
      var p := ObservationAppend(observations, publications, observation);
      Step(this.(observations := p.m), p.out)
    }
  }

  const EMPTY := Db(map[], map[], map[], [], FuseState(false, 0, None), map[], map[], [], map[], map[], map[],
                    map[], map[], map[], map[], map[])

  /******* Runs of store operations *******/

  datatype StoreOp =
    | CreateTask(task: Task)
    | UpdateTask(task: Task, expectedVersion: nat)
    | AppendEvent(event: Event, expectedSequence: nat)
    | UseQueue(command: Queue.Command)
    | SetFuse(fuse: FuseState)
    | CreateIntake(intake: IntakeRecord)
    | RecordSource(source: IssueIngestionRecord)
    | AppendControl(control: ControlEvent)
    | RegisterArtifact(artifact: CatalogedArtifact)
    | RecordSession(request: RunnerSessionRequest)
    | SetOutcome(outcome: RunnerSessionOutcome)
    | RecordResult(result: WorkerResult)
    | RecordWorkspace(workspace: WorkspaceRecord)
    | ReleaseWorkspace(allocationId: Text)
    | Reserve(intent: PublicationIntent)
    | Prepare(prepared: PreparedHead, expectedVersion: nat)
    | Verify(verification: VerificationResult, expectedVersion: nat)
    | AppendApproval(decision: PublicationReviewDecision)
    | RequestEffect(effect: PublicationEffectIntent)
    | ReconcileEffect(receipt: PublicationReceipt)
    | AppendObservation(observation: CheckRunObservation)

  // The argument passed the checks of its own constructor.
  predicate Constructible(op: StoreOp) {
    match op
    case RecordSession(r) => r.Accepted()
    case SetOutcome(o) => o.Accepted()
    case RecordResult(r) => r.Accepted()
    case Reserve(i) => i.Accepted()
    case Prepare(p, _) => p.Accepted()
    case Verify(v, _) => v.Accepted()
    case AppendApproval(d) => d.Accepted()
    case RequestEffect(e) => e.Accepted()
    case ReconcileEffect(r) => r.Accepted()
    case AppendObservation(o) => o.Accepted()
    case _ => true
  }

  // The database after the operation, whether it returned or raised.
  function Apply(db: Db, op: StoreOp): Db {
    match op
    case CreateTask(t) => db.CreateTask(t).db
    case UpdateTask(t, v) => db.UpdateTask(t, v).db
    case AppendEvent(e, n) => db.AppendEvent(e, n).db
    case UseQueue(c) => db.(queue := Queue.Execute(db.queue, c).0)
    case SetFuse(s) => db.SetFuse(s).db
    case CreateIntake(r) => db.CreateIntake(r).db
    case RecordSource(r) => db.RecordSource(r).db
    case AppendControl(e) => db.AppendControl(e).db
    case RegisterArtifact(a) => db.RegisterArtifact(a).db
    case RecordSession(r) => db.RecordSession(r).db
    case SetOutcome(o) => db.SetOutcome(o).db
    case RecordResult(r) => db.RecordResult(r).db
    case RecordWorkspace(w) => db.RecordWorkspace(w).db
    case ReleaseWorkspace(id) => db.ReleaseWorkspace(id).db
    case Reserve(i) => db.Reserve(i).db
    case Prepare(p, v) => db.Prepare(p, v).db
    case Verify(r, v) => db.Verify(r, v).db
    case AppendApproval(d) => db.AppendApproval(d).db
    case RequestEffect(e) => db.RequestEffect(e).db
    case ReconcileEffect(r) => db.ReconcileEffect(r).db
    case AppendObservation(o) => db.AppendObservation(o).db
  }

  function Run(db: Db, ops: seq<StoreOp>): Db {
    if ops == [] then db else Apply(Run(db, ops[..|ops| - 1]), ops[|ops| - 1])
  }

  ghost predicate AllConstructible(ops: seq<StoreOp>) {
    forall i | 0 <= i < |ops| :: Constructible(ops[i])
  }
}

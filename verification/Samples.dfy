// Concrete records for the runs that show a property to fail, and the state after the
// first call of such a run.

module Samples {
  import opened Json
  import opened Domain
  import opened Records
  import opened Ledgers
  import opened Database
  import opened SampleNames
  import opened Services
  import opened ServiceRuns
  import Queue

  // The n-th draw from the id generator, at second 0.
  function Draw(n: nat): Stamp
    requires n < 10
  {
    Stamp([48 + n], 0)
  }

  /******* One task, enqueued *******/

  const INTAKE := IntakeRequest(T, R, R, REPOSITORY, ZeroSha(), R0, R0, R0, None, true, 0)

  const TASK :=
    Task(T, TaskSource(R, R), RepositoryTarget(REPOSITORY, ZeroSha()), RiskAssessment(R0, R0, R0, None, None), 0,
         RECEIVED, 0, 0, [])

  const ROW := Queue.Row(T, 0, 0, T, None, None, 0)

  function Started(): Db {
    EMPTY.(tasks := map[][T := TASK],
           intakes := map[][T := IntakeRecord(T, INTAKE.Canonical(), T)],
           events := map[][T := [] + [ReceivedEvent(INTAKE, Draw(1))]],
           eventIds := map[][Draw(1).eventId := ReceivedEvent(INTAKE, Draw(1))],
           queue := [] + [ROW])
  }

  lemma StartCall()
    ensures Serve(NEW_WORLD, CallStart(INTAKE, Draw(1))) == World(Started(), map[])
  {
    hide IntakeRequest.Canonical, ReceivedEvent;
    assert IntakeTask(INTAKE, 0) == Ok(TASK);
    assert Start(EMPTY, INTAKE, Draw(1)) == Step(Started(), Ok(TASK)) by { ReceivedFields(); }
  }

  lemma ReceivedFields()
    ensures var e := ReceivedEvent(INTAKE, Draw(1)); e.eventId == [49] && e.taskId == T && e.sequence == 1
  {
  }

  // What later calls read of the first state.
  lemma StartedFields()
    ensures var db := Started();
            && db.tasks == map[T := TASK] && !db.fuse.engaged
            && Sequence(db, T) == 1 && History(db.events, T) == [ReceivedEvent(INTAKE, Draw(1))]
            && db.eventIds.Keys == {[49]} && db.queue == [ROW]
            && db.sessions == map[] && db.results == map[] && db.artifacts == map[] && db.workspaces == map[]
  {
  }
}

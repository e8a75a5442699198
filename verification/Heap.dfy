// The dictionaries and lists of the in-memory adapter as heap objects, and the database
// they stand for.

module Heap {
  import opened Json
  import opened Domain
  import opened Records
  import opened Ledgers
  import opened Database
  import Queue

  // A mutable Python object holding one collection: a dict, a list, or the fuse's cell.
  class Ref<T> {
    var it: T

    constructor (value: T)
      ensures it == value
    {
      it := value;
    }
  }

  type EventList = Ref<seq<Event>>
  type EventLists = map<Text, EventList>

  // The sixteen collections a unit of work binds its stores to.
  datatype Maps = Maps(
    tasks: Ref<Tasks>,
    events: Ref<EventLists>,
    eventIds: Ref<EventIds>,
    queue: Ref<Queue.Rows>,
    fuse: Ref<FuseState>,
    intakes: Ref<Intakes>,
    sources: Ref<Sources>,
    control: Ref<seq<ControlEvent>>,
    artifacts: Ref<Artifacts>,
    sessions: Ref<Sessions>,
    results: Ref<Results>,
    workspaces: Ref<Workspaces>,
    publications: Ref<Publications>,
    approvals: Ref<Approvals>,
    effects: Ref<Effects>,
    observations: Ref<Observations>)
  {
    // The dictionaries themselves, without the event lists.
    ghost function Dicts(): set<object> {
      {tasks, events, eventIds, queue, fuse, intakes, sources, control, artifacts, sessions, results, workspaces,
       publications, approvals, effects, observations}
    }

    ghost function Lists(): set<object>
      reads events
    {
      set k | k in events.it :: events.it[k]
    }

    ghost function All(): set<object>
      reads events
    {
      Dicts() + Lists()
    }

    // Each task has a list of its own, and a dictionary one row for a key.
    ghost predicate Valid()
      reads events, queue
    {
      && (forall j, k | j in events.it && k in events.it && events.it[j] == events.it[k] :: j == k)
      && Queue.Unique(queue.it)
    }

    ghost function Histories(): Events
      reads events, Lists()
    {
      map k | k in events.it :: events.it[k].it
    }

    // The database the collections stand for.
    ghost function View(): Db
      reads Dicts(), Lists()
    {
      Db(tasks.it, Histories(), eventIds.it, queue.it, fuse.it, intakes.it, sources.it, control.it, artifacts.it,
         sessions.it, results.it, workspaces.it, publications.it, approvals.it, effects.it, observations.it)
    }
  }

  lemma OtherLists(maps: Maps, taskId: Text)
    requires maps.Valid() && taskId in maps.events.it
    ensures forall k | k in maps.events.it && k != taskId :: maps.events.it[k] != maps.events.it[taskId]
    ensures maps.events.it[taskId] in maps.Lists()
  {
  }

  lemma ApprovalParts(maps: Maps)
    ensures maps.View().publications == maps.publications.it && maps.View().approvals == maps.approvals.it
    ensures maps.View().artifacts == maps.artifacts.it && maps.View().sessions == maps.sessions.it
    ensures maps.View().results == maps.results.it
  {
  }

  lemma DictsInAll(maps: Maps)
    ensures maps.Dicts() <= maps.All() && maps.Lists() <= maps.All()
  {
  }

  lemma QueueParts(maps: Maps)
    ensures maps.View().queue == maps.queue.it && maps.View().fuse == maps.fuse.it
  {
  }

  lemma EventParts(maps: Maps)
    ensures maps.View().events == maps.Histories() && maps.View().eventIds == maps.eventIds.it
  {
  }

  /******* One collection written, the others left alone *******/

  twostate lemma OnlyTasks(maps: Maps)
    requires unchanged(maps.Dicts() - {maps.tasks}) && maps.Histories() == old(maps.Histories())
    ensures maps.View() == old(maps.View()).(tasks := maps.tasks.it)
    ensures maps.All() == old(maps.All()) && maps.Valid() == old(maps.Valid())
  {
  }

  twostate lemma OnlyQueue(maps: Maps)
    requires unchanged(maps.Dicts() - {maps.queue}) && maps.Histories() == old(maps.Histories())
    ensures maps.View() == old(maps.View()).(queue := maps.queue.it) && maps.All() == old(maps.All())
  {
  }

  twostate lemma OnlyFuse(maps: Maps)
    requires unchanged(maps.Dicts() - {maps.fuse}) && maps.Histories() == old(maps.Histories())
    ensures maps.View() == old(maps.View()).(fuse := maps.fuse.it)
    ensures maps.All() == old(maps.All()) && maps.Valid() == old(maps.Valid())
  {
  }

  twostate lemma OnlyIntakes(maps: Maps)
    requires unchanged(maps.Dicts() - {maps.intakes}) && maps.Histories() == old(maps.Histories())
    ensures maps.View() == old(maps.View()).(intakes := maps.intakes.it)
    ensures maps.All() == old(maps.All()) && maps.Valid() == old(maps.Valid())
  {
  }

  twostate lemma OnlySources(maps: Maps)
    requires unchanged(maps.Dicts() - {maps.sources}) && maps.Histories() == old(maps.Histories())
    ensures maps.View() == old(maps.View()).(sources := maps.sources.it)
    ensures maps.All() == old(maps.All()) && maps.Valid() == old(maps.Valid())
  {
  }

  twostate lemma OnlyControl(maps: Maps)
    requires unchanged(maps.Dicts() - {maps.control}) && maps.Histories() == old(maps.Histories())
    ensures maps.View() == old(maps.View()).(control := maps.control.it)
    ensures maps.All() == old(maps.All()) && maps.Valid() == old(maps.Valid())
  {
  }

  twostate lemma OnlyArtifacts(maps: Maps)
    requires unchanged(maps.Dicts() - {maps.artifacts}) && maps.Histories() == old(maps.Histories())
    ensures maps.View() == old(maps.View()).(artifacts := maps.artifacts.it)
    ensures maps.All() == old(maps.All()) && maps.Valid() == old(maps.Valid())
  {
  }

  twostate lemma OnlySessions(maps: Maps)
    requires unchanged(maps.Dicts() - {maps.sessions}) && maps.Histories() == old(maps.Histories())
    ensures maps.View() == old(maps.View()).(sessions := maps.sessions.it)
    ensures maps.All() == old(maps.All()) && maps.Valid() == old(maps.Valid())
  {
  }

  twostate lemma OnlyResults(maps: Maps)
    requires unchanged(maps.Dicts() - {maps.results}) && maps.Histories() == old(maps.Histories())
    ensures maps.View() == old(maps.View()).(results := maps.results.it)
    ensures maps.All() == old(maps.All()) && maps.Valid() == old(maps.Valid())
  {
  }

  twostate lemma OnlyWorkspaces(maps: Maps)
    requires unchanged(maps.Dicts() - {maps.workspaces}) && maps.Histories() == old(maps.Histories())
    ensures maps.View() == old(maps.View()).(workspaces := maps.workspaces.it)
    ensures maps.All() == old(maps.All()) && maps.Valid() == old(maps.Valid())
  {
  }

  twostate lemma OnlyPublications(maps: Maps)
    requires unchanged(maps.Dicts() - {maps.publications}) && maps.Histories() == old(maps.Histories())
    ensures maps.View() == old(maps.View()).(publications := maps.publications.it)
    ensures maps.All() == old(maps.All()) && maps.Valid() == old(maps.Valid())
  {
  }

  twostate lemma OnlyApprovals(maps: Maps)
    requires unchanged(maps.Dicts() - {maps.approvals}) && maps.Histories() == old(maps.Histories())
    ensures maps.View() == old(maps.View()).(approvals := maps.approvals.it)
    ensures maps.All() == old(maps.All()) && maps.Valid() == old(maps.Valid())
  {
  }

  twostate lemma OnlyEffects(maps: Maps)
    requires unchanged(maps.Dicts() - {maps.effects}) && maps.Histories() == old(maps.Histories())
    ensures maps.View() == old(maps.View()).(effects := maps.effects.it)
    ensures maps.All() == old(maps.All()) && maps.Valid() == old(maps.Valid())
  {
  }

  twostate lemma OnlyObservations(maps: Maps)
    requires unchanged(maps.Dicts() - {maps.observations}) && maps.Histories() == old(maps.Histories())
    ensures maps.View() == old(maps.View()).(observations := maps.observations.it)
    ensures maps.All() == old(maps.All()) && maps.Valid() == old(maps.Valid())
  {
  }

  twostate lemma OnlyEvents(maps: Maps)
    requires unchanged(maps.Dicts() - {maps.events, maps.eventIds})
    ensures maps.View() == old(maps.View()).(events := maps.Histories(), eventIds := maps.eventIds.it)
  {
  }

  lemma HistoryFound(maps: Maps, taskId: Text)
    ensures maps.Histories().Keys == maps.events.it.Keys
    ensures taskId in maps.events.it ==> maps.Histories()[taskId] == maps.events.it[taskId].it
  {
  }

  datatype Place = Place(maps: Maps, taskId: Text)

  // One list written, or made and written; every other list as it was.
  twostate lemma HistoryWritten(at: Place)
    requires at.taskId in at.maps.events.it
    requires at.maps.events.it.Keys == old(at.maps.events.it).Keys + {at.taskId}
    requires forall k | k in old(at.maps.events.it) && k != at.taskId ::
      at.maps.events.it[k] == old(at.maps.events.it)[k] && at.maps.events.it[k].it == old(at.maps.events.it[k].it)
    ensures at.maps.Histories() == old(at.maps.Histories())[at.taskId := at.maps.events.it[at.taskId].it]
  {
  }

  // The lists a dictionary of lists holds after one key was set.
  twostate lemma ListsGrew(at: Place)
    requires old(at.maps.Valid()) && at.taskId in at.maps.events.it && at.maps.queue.it == old(at.maps.queue.it)
    requires at.maps.events.it == old(at.maps.events.it)[at.taskId := at.maps.events.it[at.taskId]]
    requires if at.taskId in old(at.maps.events.it) then at.maps.events.it[at.taskId]
         == old(at.maps.events.it)[at.taskId]
             else fresh(at.maps.events.it[at.taskId])
    ensures at.maps.Valid() && fresh(at.maps.Lists() - old(at.maps.Lists()))
    ensures at.maps.events.it[at.taskId] in old(at.maps.Lists()) || fresh(at.maps.events.it[at.taskId])
  {
  }

  // setdefault on the dictionary of lists.
  twostate lemma ListMade(at: Place)
    requires old(at.maps.Valid()) && at.taskId in at.maps.events.it && unchanged(at.maps.Dicts() - {at.maps.events})
    requires at.maps.events.it == old(at.maps.events.it)[at.taskId := at.maps.events.it[at.taskId]]
    requires if at.taskId in old(at.maps.events.it) then at.maps.events.it[at.taskId]
         == old(at.maps.events.it)[at.taskId]
             else fresh(at.maps.events.it[at.taskId]) && at.maps.events.it[at.taskId].it == []
    requires forall k | k in old(at.maps.events.it) :: at.maps.events.it[k].it == old(at.maps.events.it[k].it)
    ensures at.maps.Valid() && (forall o | o in at.maps.All() :: o in old(at.maps.All()) || fresh(o))
    ensures at.maps.events.it[at.taskId] in old(at.maps.Lists()) || fresh(at.maps.events.it[at.taskId])
    ensures at.maps.events.it[at.taskId].it == History(old(at.maps.View()).events, at.taskId)
    ensures at.maps.View() == old(at.maps.View())
      .(events := old(at.maps.View()).events[at.taskId := History(old(at.maps.View()).events, at.taskId)])
  {
    hide Maps.View, Maps.Histories, Maps.Lists, Maps.Valid;
    EventParts(at.maps);
    ListsGrew(at);
    HistoryWritten(at);
    OnlyEvents(at.maps);
    OldHistory(at);
  }

  twostate lemma OldHistory(at: Place)
    ensures old(at.maps.View()).events.Keys == old(at.maps.events.it).Keys
    ensures at.taskId in old(at.maps.events.it) ==>
      old(at.maps.View()).events[at.taskId] == old(at.maps.events.it[at.taskId].it)
    ensures old(at.maps.View()).events == old(at.maps.Histories())
    ensures old(at.maps.View()).eventIds == old(at.maps.eventIds.it)
  {
  }

  // Nothing of these collections was written.
  twostate lemma Unwritten(maps: Maps)
    requires unchanged(maps.Dicts())
    requires forall k | k in old(maps.events.it) :: maps.events.it[k].it == old(maps.events.it[k].it)
    ensures maps.View() == old(maps.View()) && maps.All() == old(maps.All()) && maps.Valid() == old(maps.Valid())
  {
    assert maps.Histories() == old(maps.Histories());
  }

  twostate lemma OldOnes(maps: Maps)
    ensures forall o | o in old(maps.All()) :: !fresh(o)
  {
  }

  twostate lemma NoneWritten(maps: Maps)
    requires forall o: object | o in old(maps.All()) :: unchanged(o)
    ensures maps.View() == old(maps.View()) && maps.All() == old(maps.All()) && maps.Valid() == old(maps.Valid())
  {
    assert forall o | o in maps.Dicts() :: o in old(maps.All());
    assert forall k | k in old(maps.events.it) :: old(maps.events.it)[k] in old(maps.All());
    Unwritten(maps);
  }
}

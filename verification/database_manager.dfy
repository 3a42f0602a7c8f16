/**
 The single-database manager: creates its one database at most once, by wiring the
 injected facade, and shuts it down on request or when stopped.

 The wiring steps are collaborators whose code is not part of this model; each is an
 event in the manager's log, and any of them may fail, which the caller chooses.
 */
module DatabaseManager {
  import opened Wrappers

  /** The `GraphDatabaseFacade` handed to the manager when it is built. */
  datatype Facade = Facade(id: int)

  /** The wiring steps of `createDatabase`, in the order they run. */
  datatype Step = BuildDataSource | BuildCoreSpi | InitFacade | RegisterDataSource

  /** What the manager has done to its collaborators, in order. */
  datatype Event = Wired(step: Step, name: string) | FacadeShutdown

  datatype CreateError =
    | AlreadyCreated
    | WiringFailed(step: Step)

  /** `database` is null (`None`) until a create succeeds. */
  datatype Manager = Manager(database: Option<Facade>, facade: Facade, log: seq<Event>)

  /** A manager as constructed: nothing created, nothing done. */
  function Build(facade: Facade): (m: Manager)
    ensures m.database.None? && m.facade == facade && m.log == []
  {
    Manager(None, facade, [])
  }

  const WiringOrder: seq<Step> := [BuildDataSource, BuildCoreSpi, InitFacade, RegisterDataSource]

  /** The wiring steps run before `failing` (all of them when nothing fails), as logged for `name`. */
  function WiringEvents(name: string, failing: Option<Step>): (r: seq<Event>)
    ensures failing.None? ==> |r| == |WiringOrder|
    ensures failing.Some? ==> |r| < |WiringOrder| && WiringOrder[|r|] == failing.value
    ensures forall i :: 0 <= i < |r| ==> r[i] == Wired(WiringOrder[i], name)
  {
    var n := if failing.None? then 4 else match failing.value
      case BuildDataSource => 0
      case BuildCoreSpi => 1
      case InitFacade => 2
      case RegisterDataSource => 3;
    seq(n, i requires 0 <= i < n => Wired(WiringOrder[i], name))
  }

  /**
   `createDatabase(name)`: refused once a database is set; otherwise runs the wiring steps,
   and only when every one of them succeeded records the injected facade and returns it.
   `failing` is the wiring step that throws, if any.
   */
  function CreateDatabase(m: Manager, name: string, failing: Option<Step>): (r: (Manager, Result<Facade, CreateError>))
    ensures m.database.Some? ==> r == (m, Err(AlreadyCreated))
    ensures m.database.None? && failing.None? ==> r.1 == Ok(m.facade) && r.0.database == Some(m.facade)
    ensures m.database.None? && failing.Some? ==> r.1 == Err(WiringFailed(failing.value)) && r.0.database.None?
    ensures r.0.facade == m.facade && |m.log| <= |r.0.log| && r.0.log[..|m.log|] == m.log
  {
    if m.database.Some? then (m, Err(AlreadyCreated))
    else
      var wired := m.(log := m.log + WiringEvents(name, failing));
      match failing
      case Some(step) => (wired, Err(WiringFailed(step)))
      case None => (wired.(database := Some(m.facade)), Ok(m.facade))
  }

  /** `getDatabaseFacade(name)`: the database, whatever the name. */
  function GetDatabaseFacade(m: Manager, name: string): (r: Option<Facade>)
    ensures r.Some? <==> m.database.Some?
    ensures r.Some? ==> r.value == m.database.value
  {
    m.database
  }

  /** The private `shutdownDatabase()`: shuts the facade down when there is one; `database` stays set. */
  function Shutdown(m: Manager): (r: Manager)
    ensures r.database == m.database && r.facade == m.facade
    ensures m.database.None? ==> r == m
    ensures m.database.Some? ==> r.log == m.log + [FacadeShutdown]
  {
    if m.database.Some? then m.(log := m.log + [FacadeShutdown]) else m
  }

  /** `shutdownDatabase(name)`: the name is ignored. */
  function ShutdownDatabase(m: Manager, name: string): (r: Manager)
    ensures r.database == m.database && r.facade == m.facade
    ensures m.database.None? ==> r == m
    ensures m.database.Some? ==> r.log == m.log + [FacadeShutdown]
  {
    Shutdown(m)
  }

  /** The `stop()` lifecycle callback. */
  function Stop(m: Manager): (r: Manager)
    ensures r.database == m.database && r.facade == m.facade
    ensures m.database.None? ==> r == m
    ensures m.database.Some? ==> r.log == m.log + [FacadeShutdown]
  {
    Shutdown(m)
  }

  // ---------------------------------------------------------------------------
  // Laws

  /** Shutting down by any name and stopping do the same thing. */
  lemma ShutdownByNameIsStop(m: Manager, name: string)
    ensures ShutdownDatabase(m, name) == Stop(m)
  {
  }

  /** With nothing created, shutting down and stopping change nothing. */
  lemma ShutdownWithoutDatabaseIsNoOp(m: Manager, name: string)
    requires m.database.None?
    ensures ShutdownDatabase(m, name) == m && Stop(m) == m
  {
  }

  /**
   Shutdown is not guarded against repeats: with a database set, every stop or named
   shutdown shuts the facade down once more; before a create they leave the manager as built.
   */
  lemma EveryShutdownReachesFacade(m: Manager, name: string)
    requires m.database.Some?
    ensures Stop(Stop(m)).log == m.log + [FacadeShutdown, FacadeShutdown]
    ensures ShutdownDatabase(Stop(m), name).log == m.log + [FacadeShutdown, FacadeShutdown]
    ensures Stop(Build(m.facade)) == Build(m.facade)
  {
  }

  /** The lookup ignores its name: absent before creation, the injected facade after it. */
  lemma LookupIgnoresName(m: Manager, name: string, other: string, created: string)
    ensures GetDatabaseFacade(m, name) == GetDatabaseFacade(m, other)
    ensures GetDatabaseFacade(Build(m.facade), name).None?
    ensures m.database.None? ==> GetDatabaseFacade(CreateDatabase(m, created, None).0, name) == Some(m.facade)
  {
  }

  /** A created database is created once: every later create fails, whatever the name. */
  lemma CreateOnce(m: Manager, name: string, again: string, failing: Option<Step>)
    requires m.database.None?
    ensures var (m', r) := CreateDatabase(m, name, None);
      && r == Ok(m.facade)
      && CreateDatabase(m', again, failing) == (m', Err(AlreadyCreated))
  {
  }

  /** Shutdown does not clear the database: lookups still find it and a later create still fails. */
  lemma ShutdownKeepsDatabase(m: Manager, name: string, again: string, failing: Option<Step>)
    requires m.database.Some?
    ensures GetDatabaseFacade(Stop(m), name) == m.database
    ensures CreateDatabase(Stop(m), again, failing).1 == Err(AlreadyCreated)
  {
  }

  /**
   A failed wiring step leaves no database behind, after logging only the steps before
   it; the manager can therefore be asked again and then succeed.
   */
  lemma FailedCreateLeavesNothing(m: Manager, name: string, step: Step)
    requires m.database.None?
    ensures var (m', r) := CreateDatabase(m, name, Some(step));
      && r == Err(WiringFailed(step))
      && GetDatabaseFacade(m', name).None?
      && (forall e :: e in m'.log[|m.log|..] ==> e != Wired(step, name) && e != FacadeShutdown)
      && CreateDatabase(m', name, None).1 == Ok(m.facade)
  {
    var (m', r) := CreateDatabase(m, name, Some(step));
    var w := WiringEvents(name, Some(step));
    assert m'.log[|m.log|..] == w;
  }

  /** A successful create runs every wiring step once, in order, before the facade is recorded. */
  lemma CreateWiresInOrder(m: Manager, name: string)
    requires m.database.None?
    ensures CreateDatabase(m, name, None).0.log == m.log + [
      Wired(BuildDataSource, name), Wired(BuildCoreSpi, name), Wired(InitFacade, name), Wired(RegisterDataSource, name)]
  {
    var w := WiringEvents(name, None);
    assert w == [w[0], w[1], w[2], w[3]];
  }
}

/**
  The objects taken through any run, and what the laws say about their fields afterwards.
 */
module MigrationSimulation {
  import opened Migration
  import opened MigrationViews
  import opened MigrationSafety
  import opened MigrationLaws
  import opened MigrationCauses
  import opened MigrationScenarios
  import opened MigrationCode

  method TakeStep(system: System, l: Label)
    requires system.Distinct()
    modifies system.Parts()
    ensures system.Now() == Next(old(system.Now()), l)
  {
    match l {
      case Arrive(msg) => system.ReceiveMsg(msg);
      case Feed => system.HandOverMsgs();
      case HangUp => system.ClientLeaves();
      case FinishClose => system.ImplementationCloses();
      case AskAppClose => system.CloseTheApp();
      case Run(th) => system.RunLoopOnce(th);
    }
  }

  // Whatever the client, the app and the threads do, one after the other.
  method Simulate(engineHasOwnLoop: bool, labels: seq<Label>) returns (system: System)
    ensures system.Distinct() && fresh(system.Parts())
    ensures system.Now() == Reached(engineHasOwnLoop, labels)
  {
    system := new System(engineHasOwnLoop);
    for i := 0 to |labels|
      invariant system.Distinct() && fresh(system.Parts())
      invariant RunAll(system.Now(), labels[i..]) == Reached(engineHasOwnLoop, labels)
    {
      assert labels[i..] != [] && labels[i..][0] == labels[i] && labels[i..][1..] == labels[i + 1..];
      TakeStep(system, labels[i]);
    }
    assert labels[|labels|..] == [];
  }

  // No message is lost, doubled or overtaken on its way through the objects.
  ghost predicate KeepsMessages(system: System)
    reads system.Parts()
  {
    system.record.arrived
    == Msgs(system.record.log)
       + (InFlight(system.appLoop.tasks) + InFlight(system.engineLoop.tasks) + InFlight(system.externalLoop.tasks)
          + system.implementation.inMsgs)
  }

  // The next event of each loop is run by the thread that owns the connection.
  ghost predicate RunsEventsAtOwner(system: System)
    reads system.Parts()
  {
    forall th ::
      var tasks := system.LoopOf(th).tasks;
      tasks != [] && IsEvent(tasks[0]) ==> system.connection.belongingThread == th
  }

  // What the app would close belongs to the app.
  ghost predicate ClosesItsOwn(system: System)
    reads system.Parts()
  {
    system.connection in system.app.orphanConnections ==>
      system.connection.belongingThread == AppThread && system.connection.attachTo == APP && !system.connection.destroyed
  }

  // An assertion has failed only if the client sent messages of the two kinds.
  ghost predicate FailsWithCause(system: System)
    reads system.Parts()
  {
    system.record.fault ==> exists k: nat :: TripsAt(system.record.arrived, k)
  }

  lemma LawsOfTheObjects(engineHasOwnLoop: bool, labels: seq<Label>, system: System)
    requires system.Now() == Reached(engineHasOwnLoop, labels)
    ensures KeepsMessages(system) && RunsEventsAtOwner(system) && ClosesItsOwn(system) && FailsWithCause(system)
    ensures system.app.engineHasOwnLoop == engineHasOwnLoop
  {
    ConfigurationStays(engineHasOwnLoop, labels);
    MessagesAreConserved(engineHasOwnLoop, labels);
    OrphansBelongToTheApp(engineHasOwnLoop, labels);
    forall th
      ensures var tasks := system.LoopOf(th).tasks;
              tasks != [] && IsEvent(tasks[0]) ==> system.connection.belongingThread == th
    {
      var tasks := system.LoopOf(th).tasks;
      assert tasks == Queue(system.Now(), th);
      if tasks != [] && IsEvent(tasks[0]) {
        EventsRunAtOwner(engineHasOwnLoop, labels, th);
      }
    }
    if system.record.fault {
      var k := FaultNeedsCause(engineHasOwnLoop, labels);
    }
  }

  // The laws on the fields of the objects, after any run.
  method SimulateSafely(engineHasOwnLoop: bool, labels: seq<Label>) returns (system: System)
    ensures KeepsMessages(system) && RunsEventsAtOwner(system) && ClosesItsOwn(system) && FailsWithCause(system)
    ensures system.app.engineHasOwnLoop == engineHasOwnLoop
    ensures system.Now() == Reached(engineHasOwnLoop, labels)
  {
    system := Simulate(engineHasOwnLoop, labels);
    LawsOfTheObjects(engineHasOwnLoop, labels, system);
  }
}

/**
 * Runs of the process-manager dispatcher on concrete events, showing what the
 * code as written does with the default process-id builder and with an id
 * builder that returns the correlation id unchanged.
 */
module ProcessScenarios {
  import opened Wrappers
  import opened ProcessManagers

  const ShipOrder: Command := Command("ShipOrder", map[])

  /** An OrderPlaced event for order `orderId` at checkpoint `token`. */
  function OrderPlaced(orderId: string, token: Checkpoint): EventMessage
  {
    EventMessage("orders-" + orderId, CustomEvent("OrderPlaced", map["OrderId" := orderId]), 1, map[], token)
  }

  function OrderIdOf(m: EventMessage): CorrelationId
  {
    if m.domainEvent.CustomEvent? && "OrderId" in m.domainEvent.fields then m.domainEvent.fields["OrderId"] else ""
  }

  /** A process that answers every event with one ShipOrder command. */
  function ShipOnEveryEvent(seen: seq<EventMessage>, m: EventMessage): seq<Command>
  {
    [ShipOrder]
  }

  function NeverFails(c: Command): bool
  {
    false
  }

  /**
   * Default id builder: OrderPlaced{A, 1} builds a process, dispatches its
   * command and saves checkpoint 1 under "OrderProcess-A". Redelivering the
   * same event misses the cache (probed with "A"), builds a second process
   * that reads checkpoint 1 back from the repository, and is gated there:
   * nothing more is dispatched and the checkpoint stays 1. The second process
   * sees only the redelivered event.
   */
  method RedeliveryWithDefaultIds()
    returns (first: HandleOutcome, second: HandleOutcome, distinctProcesses: bool,
             secondInbox: seq<EventMessage>, dispatched: seq<Command>, saved: map<ProcessId, Checkpoint>)
    ensures first == CheckpointSaved && second == AlreadyCheckpointed
    ensures distinctProcesses
    ensures secondInbox == [OrderPlaced("A", 1)]
    ensures dispatched == [ShipOrder]
    ensures saved == map["OrderProcess-A" := 1]
  {
    var h := new ProcessHandler("OrderProcess", None, ShipOnEveryEvent, NeverFails, 0, map[]);
    var added := h.CorrelateBy(CustomEventType("OrderPlaced"), OrderIdOf);
    assert added;
    var m := OrderPlaced("A", 1);
    assert MessageTypeOf(m) in h.correlations && h.correlations[MessageTypeOf(m)](m) == "A";
    assert h.buildProcessId("A") == DefaultBuildProcessId("OrderProcess", "A") == "OrderProcess-A";
    var e1, e2: Option<CheckpointedProcess>;
    ghost var i, pb, pending: seq;
    first, e1, i, pb, pending := h.Handle(m);
    assert h.activeProcesses.Keys == {"OrderProcess-A"};
    assert h.savedCheckpoints == map["OrderProcess-A" := 1];
    second, e2, i, pb, pending := h.Handle(m);
    distinctProcesses := e1.value.process != e2.value.process;
    secondInbox := e2.value.process.inbox;
    dispatched := h.dispatchedCommands;
    saved := h.savedCheckpoints;
  }

  /**
   * Identity id builder: the probe hits, and the cached checkpoint is the one
   * read when the process was built. After OrderPlaced{B, 5} is handled and
   * checkpoint 5 saved, OrderPlaced{B, 3} still passes the gate against the
   * cached 0, dispatches again, and overwrites the saved checkpoint with 3.
   */
  method StaleCachedCheckpoint()
    returns (first: HandleOutcome, second: HandleOutcome, sameProcess: bool,
             dispatched: seq<Command>, saved: map<ProcessId, Checkpoint>)
    ensures first == CheckpointSaved && second == CheckpointSaved
    ensures sameProcess
    ensures dispatched == [ShipOrder, ShipOrder]
    ensures saved == map["B" := 3]
  {
    var h := new ProcessHandler("OrderProcess", Some(c => c), ShipOnEveryEvent, NeverFails, 0, map[]);
    var added := h.CorrelateBy(CustomEventType("OrderPlaced"), OrderIdOf);
    assert added;
    var m5, m3 := OrderPlaced("B", 5), OrderPlaced("B", 3);
    assert h.correlations[MessageTypeOf(m5)](m5) == "B";
    var e1, e2: Option<CheckpointedProcess>;
    ghost var i, pb, pending: seq;
    first, e1, i, pb, pending := h.Handle(m5);
    assert e1.value.checkpoint == 0 && first == CheckpointSaved;
    assert h.activeProcesses == map["B" := e1.value];
    assert h.correlations[MessageTypeOf(m3)](m3) == "B";
    second, e2, i, pb, pending := h.Handle(m3);
    sameProcess := e1.value.process == e2.value.process;
    dispatched := h.dispatchedCommands;
    saved := h.savedCheckpoints;
  }

  /**
   * Default id builder: the probe hits only when an event's correlation id is
   * another process's id. After OrderPlaced{A, 1}, an OrderPlaced whose order id
   * is "OrderProcess-A" is delivered to the process built for "A", which
   * dispatches again and saves checkpoint 2 under "OrderProcess-A".
   */
  method ProbeHitsForeignProcess()
    returns (second: HandleOutcome, sameProcess: bool, reachedCorrelation: CorrelationId,
             dispatched: seq<Command>, saved: map<ProcessId, Checkpoint>)
    ensures second == CheckpointSaved
    ensures sameProcess && reachedCorrelation == "A"
    ensures dispatched == [ShipOrder, ShipOrder]
    ensures saved == map["OrderProcess-A" := 2]
  {
    var h := new ProcessHandler("OrderProcess", None, ShipOnEveryEvent, NeverFails, 0, map[]);
    var added := h.CorrelateBy(CustomEventType("OrderPlaced"), OrderIdOf);
    assert added;
    var m1, m2 := OrderPlaced("A", 1), OrderPlaced("OrderProcess-A", 2);
    assert h.correlations[MessageTypeOf(m1)](m1) == "A";
    assert h.buildProcessId("A") == DefaultBuildProcessId("OrderProcess", "A") == "OrderProcess-A";
    var first: HandleOutcome;
    var e1, e2: Option<CheckpointedProcess>;
    ghost var i, pb, pending: seq;
    first, e1, i, pb, pending := h.Handle(m1);
    assert e1.value.checkpoint == 0 && first == CheckpointSaved;
    assert h.activeProcesses == map["OrderProcess-A" := e1.value];
    assert h.correlations[MessageTypeOf(m2)](m2) == "OrderProcess-A";
    second, e2, i, pb, pending := h.Handle(m2);
    sameProcess := e1.value.process == e2.value.process;
    reachedCorrelation := e2.value.process.correlationId;
    dispatched := h.dispatchedCommands;
    saved := h.savedCheckpoints;
  }

  /** A message type nobody correlated: no handler, and handling it changes nothing. */
  method UnroutedEventIsIgnored() returns (handlers: seq<Handler>, outcome: HandleOutcome, dispatched: seq<Command>)
    ensures handlers == [] && outcome == NotRouted && dispatched == []
  {
    var h := new ProcessHandler("OrderProcess", None, ShipOnEveryEvent, NeverFails, 0, map[]);
    var m := OrderPlaced("C", 1);
    handlers := h.ResolveAll(MessageTypeOf(m));
    var e: Option<CheckpointedProcess>;
    ghost var i, pb, pending: seq;
    outcome, e, i, pb, pending := h.Handle(m);
    dispatched := h.dispatchedCommands;
  }
}

/**
 * The process-manager dispatcher of Cedar (ProcessHandler<TProcess, TCheckpoint>
 * and its inner ProcessManagerDispatcher).
 *
 * Events are routed to long-lived processes by a correlation id that a
 * per-message-type extractor computes. Each routed event goes into the
 * process's inbox; then, unless the cached checkpoint already covers the
 * event's checkpoint token, the process's pending commands are dispatched and
 * the token is saved to the checkpoint repository.
 *
 * The collaborators are modelled by the state they expose to the dispatcher:
 * the checkpoint repository by `savedCheckpoints` (GetCheckpoint,
 * SaveCheckpointToken) and `completedProcesses` (MarkProcessCompleted), the
 * command dispatcher by `dispatchedCommands` and by `commandFails`, which says
 * which dispatches fail, and the process factory by `decide`, the behaviour of
 * the processes it builds. Checkpoints and checkpoint tokens are integers,
 * compared by their usual order.
 */
module ProcessManagers {
  import opened Wrappers

  type CorrelationId = string
  type ProcessId = string
  type Checkpoint = int

  /** The domain-event types; ProcessCompleted and CheckpointReached are Cedar's own. */
  datatype EventType = ProcessCompletedType | CheckpointReachedType | CustomEventType(name: string)

  /** A message type: EventMessage<TEvent> for some domain-event type, or any other class. */
  datatype MessageType = EventMessageOf(eventType: EventType) | OtherMessage(name: string)

  datatype DomainEvent =
    | ProcessCompleted(processId: ProcessId, correlationId: CorrelationId)
    | CheckpointReached(correlationId: CorrelationId, token: Checkpoint)
    | CustomEvent(typeName: string, fields: map<string, string>)

  /** Cedar's EventMessage record (src/Cedar/Handlers/EventMessage.cs). */
  datatype EventMessage = EventMessage(
    streamId: string,
    domainEvent: DomainEvent,
    version: int,
    headers: map<string, string>,
    checkpointToken: Checkpoint)

  function EventTypeOf(e: DomainEvent): EventType
  {
    match e
    case ProcessCompleted(_, _) => ProcessCompletedType
    case CheckpointReached(_, _) => CheckpointReachedType
    case CustomEvent(name, _) => CustomEventType(name)
  }

  /** The runtime type of a message: EventMessage<type of its domain event>. */
  function MessageTypeOf(m: EventMessage): MessageType
  {
    EventMessageOf(EventTypeOf(m.domainEvent))
  }

  datatype Command = Command(name: string, fields: map<string, string>)

  /** A pipe delegate, known only by its identity. */
  datatype PipeDelegate = PipeDelegate(name: string)

  /** A handler registration `module.For<TMessage>()`, with the pipes added so far. */
  datatype HandlerPipeline = HandlerPipeline(messageType: MessageType, pipes: seq<PipeDelegate>)

  /** The single handler ResolveAll yields for a message type. */
  datatype Handler = DispatchHandler(messageType: MessageType)

  /** A correlation-id extractor registered by CorrelateBy. */
  type Extractor = EventMessage -> CorrelationId

  /** What a process decides to command, given the events it has seen and a new event. */
  type Decide = (seq<EventMessage>, EventMessage) -> seq<Command>

  /** DefaultBuildProcessManagerId: "<TProcess name>-" + correlationId. */
  function DefaultBuildProcessId(processTypeName: string, correlationId: CorrelationId): (id: ProcessId)
    ensures |id| == |processTypeName| + 1 + |correlationId|
    ensures id[..|processTypeName|] == processTypeName && id[|processTypeName|] == '-'
    ensures id[|processTypeName| + 1..] == correlationId
    ensures id != correlationId
  {
    processTypeName + "-" + correlationId
  }

  /** The extractor the constructor registers for ProcessCompleted and CheckpointReached. */
  function BuiltInCorrelationId(m: EventMessage): CorrelationId
  {
    match m.domainEvent
    case ProcessCompleted(_, c) => c
    case CheckpointReached(c, _) => c
    case CustomEvent(_, _) => ""  // never applied: both registrations are for Cedar's own events
  }

  /** Adding a pipe to a handler registration. */
  function WithPipe(builder: HandlerPipeline, pipe: PipeDelegate): HandlerPipeline
  {
    builder.(pipes := builder.pipes + [pipe])
  }

  /**
   * BuildHandler's `_pipes.Aggregate(module.For<TMessage>(), (b, p) => b.Pipe(p))`:
   * a left fold, so the pipes end up in registration order.
   */
  function PipeThrough(builder: HandlerPipeline, pipes: seq<PipeDelegate>): (r: HandlerPipeline)
    ensures r.messageType == builder.messageType
    ensures r.pipes == builder.pipes + pipes
    decreases |pipes|
  {
    if pipes == [] then builder
    else
      var r := PipeThrough(WithPipe(builder, pipes[0]), pipes[1..]);
      assert builder.pipes + [pipes[0]] + pipes[1..] == builder.pipes + pipes;
      r
  }

  /** True when no command in `commands` fails to dispatch. */
  predicate AllDispatchesSucceed(commands: seq<Command>, fails: Command -> bool)
  {
    forall i :: 0 <= i < |commands| ==> !fails(commands[i])
  }

  /** What happens to a routed event once its process holds it. */
  datatype HandleOutcome =
    | NotRouted            // no extractor registered for the message type
    | AlreadyCheckpointed  // the cached checkpoint covers the event's token
    | NoCommands           // the process had nothing to send
    | DispatchFailed       // some command dispatch failed; the exception propagates
    | CheckpointSaved      // every command was dispatched and the token saved

  /**
   * The decision the handler takes after delivering the event: the checkpoint
   * gate, then the command fan-out, then the save.
   */
  function RoundOutcome(cached: Checkpoint, token: Checkpoint, pending: seq<Command>, fails: Command -> bool): (r: HandleOutcome)
    ensures r == AlreadyCheckpointed <==> cached >= token
    ensures r == CheckpointSaved <==> cached < token && pending != [] && AllDispatchesSucceed(pending, fails)
    ensures r == CheckpointSaved ==> token > cached
    ensures r != NotRouted
  {
    if cached >= token then AlreadyCheckpointed
    else if pending == [] then NoCommands
    else if !AllDispatchesSucceed(pending, fails) then DispatchFailed
    else CheckpointSaved
  }

  /** A process instance built by the process factory. */
  class Process {
    const id: ProcessId
    const correlationId: CorrelationId
    const decide: Decide
    var inbox: seq<EventMessage>
    var commands: seq<Command>
    var disposed: bool

    constructor (id: ProcessId, correlationId: CorrelationId, decide: Decide)
      ensures this.id == id && this.correlationId == correlationId && this.decide == decide
      ensures inbox == [] && commands == [] && !disposed
    {
      this.id := id;
      this.correlationId := correlationId;
      this.decide := decide;
      inbox := [];
      commands := [];
      disposed := false;
    }

    /** Inbox.OnNext: the process observes the event and may queue commands. */
    method Deliver(m: EventMessage)
      modifies this`inbox, this`commands
      ensures inbox == old(inbox) + [m]
      ensures commands == old(commands) + decide(old(inbox), m)
    {
      commands := commands + decide(inbox, m);
      inbox := inbox + [m];
    }

    /** Commands.ToList(): reading the pending commands drains them. */
    method TakeCommands() returns (taken: seq<Command>)
      modifies this`commands
      ensures taken == old(commands) && commands == []
    {
      taken := commands;
      commands := [];
    }

    method Dispose()
      modifies this`disposed
      ensures disposed
    {
      disposed := true;
    }
  }

  /** CheckpointedProcess: a process with the checkpoint read when it was built; both readonly. */
  datatype CheckpointedProcess = CheckpointedProcess(process: Process, checkpoint: Checkpoint)

  class ProcessHandler {
    const processTypeName: string
    const buildProcessId: CorrelationId -> ProcessId
    const decide: Decide
    const commandFails: Command -> bool
    /** What GetCheckpoint returns for a process that has no saved checkpoint. */
    const emptyCheckpoint: Checkpoint

    var correlations: map<MessageType, Extractor>         // _byCorrelationId
    var pipes: seq<PipeDelegate>                            // _pipes
    var activeProcesses: map<string, CheckpointedProcess>  // _activeProcesses
    var savedCheckpoints: map<ProcessId, Checkpoint>       // checkpoint repository
    var completedProcesses: seq<ProcessId>                 // MarkProcessCompleted calls
    var dispatchedCommands: seq<Command>                   // DispatchCommand calls
    /** Every process built so far; each carries a completion subscription. */
    ghost var subscribed: set<Process>

    ghost predicate Valid()
      reads this
    {
      && (forall t :: t in correlations ==> t.EventMessageOf?)
      && (forall k :: k in activeProcesses ==> activeProcesses[k].process in subscribed)
      // an entry is keyed by its process's id, built from the process's correlation id
      && (forall k :: k in activeProcesses ==>
            && activeProcesses[k].process.id == k
            && k == buildProcessId(activeProcesses[k].process.correlationId))
    }

    /** GetCheckpoint of the checkpoint repository. */
    function StoredCheckpoint(id: ProcessId): Checkpoint
      reads this
    {
      if id in savedCheckpoints then savedCheckpoints[id] else emptyCheckpoint
    }

    /**
     * ProcessHandler.For / the constructor: the id builder defaults to
     * DefaultBuildProcessManagerId, and ProcessCompleted and CheckpointReached
     * are correlated before anything else.
     */
    constructor (processTypeName: string, buildProcessId: Option<CorrelationId -> ProcessId>, decide: Decide,
                 commandFails: Command -> bool, emptyCheckpoint: Checkpoint, savedCheckpoints: map<ProcessId, Checkpoint>)
      ensures Valid()
      ensures this.processTypeName == processTypeName && this.decide == decide
      ensures this.commandFails == commandFails && this.emptyCheckpoint == emptyCheckpoint
      ensures buildProcessId.Some? ==> this.buildProcessId == buildProcessId.value
      ensures buildProcessId.None? ==>
        forall c :: this.buildProcessId(c) == DefaultBuildProcessId(processTypeName, c)
      ensures correlations.Keys == {EventMessageOf(ProcessCompletedType), EventMessageOf(CheckpointReachedType)}
      ensures forall t :: t in correlations ==> correlations[t] == BuiltInCorrelationId
      ensures pipes == [] && activeProcesses == map[] && subscribed == {}
      ensures this.savedCheckpoints == savedCheckpoints
      ensures completedProcesses == [] && dispatchedCommands == []
    {
      this.processTypeName := processTypeName;
      var defaultBuild: CorrelationId -> ProcessId := c => DefaultBuildProcessId(processTypeName, c);
      var build: CorrelationId -> ProcessId := if buildProcessId.Some? then buildProcessId.value else defaultBuild;
      this.buildProcessId := build;
      this.decide := decide;
      this.commandFails := commandFails;
      this.emptyCheckpoint := emptyCheckpoint;
      var builtIn: Extractor := BuiltInCorrelationId;
      var initial: map<MessageType, Extractor> :=
        map[EventMessageOf(ProcessCompletedType) := builtIn, EventMessageOf(CheckpointReachedType) := builtIn];
      correlations := initial;
      pipes := [];
      activeProcesses := map[];
      this.savedCheckpoints := savedCheckpoints;
      completedProcesses := [];
      dispatchedCommands := [];
      subscribed := {};
    }

    /** CorrelateBy<TEvent>: Dictionary.Add, which throws (and adds nothing) for a registered type. */
    method CorrelateBy(eventType: EventType, extract: Extractor) returns (added: bool)
      requires Valid()
      modifies this`correlations
      ensures Valid()
      ensures added <==> EventMessageOf(eventType) !in old(correlations)
      ensures correlations ==
        if added then old(correlations)[EventMessageOf(eventType) := extract] else old(correlations)
    {
      var key := EventMessageOf(eventType);
      added := key !in correlations;
      if added {
        correlations := correlations[key := extract];
      }
    }

    /** Pipe: appends to the pipe list. */
    method Pipe(pipe: PipeDelegate)
      modifies this`pipes
      ensures pipes == old(pipes) + [pipe]
    {
      pipes := pipes + [pipe];
    }

    /** ResolveAll<TMessage>: one handler for a correlated EventMessage type, none otherwise. */
    function ResolveAll(t: MessageType): (handlers: seq<Handler>)
      reads this
      ensures |handlers| <= 1
      ensures |handlers| == 1 <==> t.EventMessageOf? && t in correlations
      ensures forall h :: h in handlers ==> h == DispatchHandler(t)
    {
      if !t.EventMessageOf? || t !in correlations then [] else [DispatchHandler(t)]
    }

    /**
     * BuildHandlerResolver: one handler registration per correlated message type,
     * each wrapped by every pipe in registration order.
     */
    function BuildHandlerResolver(): (modules: map<MessageType, HandlerPipeline>)
      reads this
      ensures modules.Keys == correlations.Keys
      ensures forall t :: t in modules ==> modules[t].messageType == t && modules[t].pipes == pipes
    {
      map t | t in correlations :: PipeThrough(HandlerPipeline(t, []), pipes)
    }

    /**
     * GetProcess: probe the cache by correlation id; on a miss build a process
     * with id buildProcessId(correlationId), read its checkpoint, subscribe to
     * its completion and TryAdd it under its process id. A failed TryAdd is
     * ignored and the fresh process is still returned.
     */
    method GetProcess(correlationId: CorrelationId) returns (entry: CheckpointedProcess)
      requires Valid()
      modifies this`activeProcesses, this`subscribed
      ensures Valid()
      ensures correlationId in old(activeProcesses) ==>
        && entry == old(activeProcesses)[correlationId]
        && activeProcesses == old(activeProcesses) && subscribed == old(subscribed)
      ensures correlationId !in old(activeProcesses) ==>
        && fresh(entry.process)
        && entry.process.id == buildProcessId(correlationId)
        && entry.process.correlationId == correlationId && entry.process.decide == decide
        && entry.process.inbox == [] && entry.process.commands == [] && !entry.process.disposed
        && entry.checkpoint == StoredCheckpoint(entry.process.id)
        && subscribed == old(subscribed) + {entry.process}
        && activeProcesses ==
             if entry.process.id in old(activeProcesses) then old(activeProcesses)
             else old(activeProcesses)[entry.process.id := entry]
    {
      if correlationId in activeProcesses {
        entry := activeProcesses[correlationId];
        return;
      }
      var process := new Process(buildProcessId(correlationId), correlationId, decide);
      var checkpoint := StoredCheckpoint(process.id);
      subscribed := subscribed + {process};
      entry := CheckpointedProcess(process, checkpoint);
      if process.id !in activeProcesses {
        activeProcesses := activeProcesses[process.id := entry];
      }
    }

    /** Task.WhenAll over the commands: every command is dispatched; the round fails if any one does. */
    method DispatchAll(commands: seq<Command>) returns (ok: bool)
      modifies this`dispatchedCommands
      ensures dispatchedCommands == old(dispatchedCommands) + commands
      ensures ok <==> AllDispatchesSucceed(commands, commandFails)
    {
      ok := true;
      var i := 0;
      while i < |commands|
        invariant 0 <= i <= |commands|
        invariant dispatchedCommands == old(dispatchedCommands) + commands[..i]
        invariant ok <==> AllDispatchesSucceed(commands[..i], commandFails)
      {
        dispatchedCommands := dispatchedCommands + [commands[i]];
        ok := ok && !commandFails(commands[i]);
        assert commands[..i + 1] == commands[..i] + [commands[i]];
        i := i + 1;
      }
      assert commands[..i] == commands;
    }

    /**
     * The handler ResolveAll yields, applied to one message. `entry` is the
     * cache entry used, `inboxBefore`/`pendingBefore` the process's inbox and
     * commands before the event, and `pending` its commands after delivery.
     */
    method Handle(m: EventMessage)
      returns (outcome: HandleOutcome, entry: Option<CheckpointedProcess>, ghost inboxBefore: seq<EventMessage>,
               ghost pendingBefore: seq<Command>, ghost pending: seq<Command>)
      requires Valid()
      modifies this, subscribed
      ensures Valid()
      ensures MessageTypeOf(m) !in old(correlations) ==>
        outcome == NotRouted && entry.None? && unchanged(this) && unchanged(old(subscribed))
      ensures MessageTypeOf(m) in old(correlations) ==> entry.Some?
      ensures MessageTypeOf(m) in old(correlations) && entry.Some? ==>
        var c := old(correlations)[MessageTypeOf(m)](m);
        var p := entry.value.process;
        // the cache: probed by correlation id, filled by process id, entries never rewritten
        && (c in old(activeProcesses) ==>
              && entry.value == old(activeProcesses)[c]
              && inboxBefore == old(p.inbox) && pendingBefore == old(p.commands)
              && p.disposed == old(p.disposed)
              && subscribed == old(subscribed) && activeProcesses == old(activeProcesses))
        && (c !in old(activeProcesses) ==>
              && fresh(p)
              && p.id == buildProcessId(c) && p.correlationId == c
              && p.decide == decide
              && entry.value.checkpoint == old(StoredCheckpoint(buildProcessId(c)))
              && inboxBefore == [] && pendingBefore == [] && !p.disposed
              && subscribed == old(subscribed) + {p}
              && activeProcesses == if p.id in old(activeProcesses) then old(activeProcesses)
                                    else old(activeProcesses)[p.id := entry.value])
        // the event always reaches the inbox, before the gate
        && p.inbox == inboxBefore + [m]
        && pending == pendingBefore + p.decide(inboxBefore, m)
        // the gate, the fan-out and the save
        && outcome == RoundOutcome(entry.value.checkpoint, m.checkpointToken, pending, commandFails)
        && (outcome == AlreadyCheckpointed ==>
              p.commands == pending && dispatchedCommands == old(dispatchedCommands))
        && (outcome != AlreadyCheckpointed ==>
              p.commands == [] && dispatchedCommands == old(dispatchedCommands) + pending)
        && savedCheckpoints == (if outcome == CheckpointSaved then old(savedCheckpoints)[p.id := m.checkpointToken]
                                else old(savedCheckpoints))
        && completedProcesses == old(completedProcesses)
        && correlations == old(correlations) && pipes == old(pipes)
        && unchanged(old(subscribed) - {p})
    {
      var t := MessageTypeOf(m);
      if t !in correlations {
        outcome, entry, inboxBefore, pendingBefore, pending := NotRouted, None, [], [], [];
        return;
      }
      var correlationId := correlations[t](m);
      var checkpointed := GetProcess(correlationId);
      entry := Some(checkpointed);
      var process := checkpointed.process;
      inboxBefore, pendingBefore := process.inbox, process.commands;

      process.Deliver(m);
      pending := process.commands;

      if checkpointed.checkpoint >= m.checkpointToken {
        outcome := AlreadyCheckpointed;
        return;
      }

      var commands := process.TakeCommands();
      if commands == [] {
        outcome := NoCommands;
        return;
      }

      var ok := DispatchAll(commands);
      if !ok {
        outcome := DispatchFailed;
        return;
      }

      savedCheckpoints := savedCheckpoints[process.id := m.checkpointToken];
      outcome := CheckpointSaved;
    }

    /**
     * The completion subscription of a process: remove the cache entry keyed by
     * the completed process id, mark the process completed, dispose it.
     */
    method OnProcessCompleted(process: Process, completed: DomainEvent)
      requires Valid() && process in subscribed && completed.ProcessCompleted?
      modifies this`activeProcesses, this`completedProcesses, process`disposed
      ensures Valid()
      ensures activeProcesses == old(activeProcesses) - {completed.processId}
      ensures completedProcesses == old(completedProcesses) + [completed.processId]
      ensures process.disposed
    {
      activeProcesses := activeProcesses - {completed.processId};
      completedProcesses := completedProcesses + [completed.processId];
      process.Dispose();
    }
  }

  /** Every key of the correlation registry is an EventMessage type, so ResolveAll hinges on registration alone. */
  lemma ResolveAllIffCorrelated(h: ProcessHandler, t: MessageType)
    requires h.Valid()
    ensures |h.ResolveAll(t)| == 1 <==> t in h.correlations
    ensures t !in h.correlations ==> h.ResolveAll(t) == []
  {
  }

  /**
   * With the default id builder, probing the cache with a correlation id finds
   * at most the process built for another correlation id, whose process id is
   * the probed one: the process built for `c` is never found by a probe with `c`.
   */
  lemma DefaultProbeNeverFindsOwnProcess(h: ProcessHandler, c: CorrelationId)
    requires h.Valid()
    requires forall x :: h.buildProcessId(x) == DefaultBuildProcessId(h.processTypeName, x)
    requires c in h.activeProcesses
    ensures h.activeProcesses[c].process.correlationId != c
    ensures DefaultBuildProcessId(h.processTypeName, h.activeProcesses[c].process.correlationId) == c
  {
  }
}

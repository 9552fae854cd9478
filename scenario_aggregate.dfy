/**
 * Scenario.ForAggregate: a builder whose Given / When / Then methods fill in
 * fields, and whose Run creates the aggregate, replays the given events,
 * runs the When step and then the Then check, recording the results and
 * whether the scenario passed.
 *
 * The aggregate under test is a value handed from phase to phase: its id, the
 * events replayed into it and the events it has raised but not committed.
 * The factory and the Then predicates are functions that either return a
 * value or throw an exception (a `Failure`). The When action changes the
 * aggregate in place, so it returns the aggregate as it left it together with
 * the exception it threw, if any.
 *
 * As written, Run's Given phase calls the `_afterGiven` hook, and only
 * When(Func<T>) ever sets it; so every other scenario fails in its Given
 * phase with a NullReferenceException turned into a ScenarioException.
 */
module ScenarioAggregate {
  import opened Wrappers
  import opened Testing

  const DefaultAggregateId: string := "testid"
  const WhenNotSetMessage: string := "When not set."
  const ThenAlreadySetMessage: string := "Then already set."
  const ThenNotSetMessage: string := "Then not set."
  const NothingExpectedMessage: string := "No events were expected, yet some events occurred."

  /** The aggregate under test: its id, the events replayed into it, and its uncommitted events. */
  datatype AggregateState = AggregateState(id: string, replayed: seq<Event>, uncommitted: seq<Event>)

  /** Creates the aggregate from its id, or throws. */
  type Factory = string -> Result<AggregateState, Exception>
  /**
   * What a When step leaves behind: the aggregate as the step left it (the
   * step changes it in place, so events raised before a throw stay raised)
   * and the exception the step threw, if any.
   */
  datatype WhenOutcome = WhenOutcome(aggregate: AggregateState, thrown: Option<Exception>)
  /** A When step run against the aggregate. */
  type WhenAction = AggregateState -> WhenOutcome
  /** The hook run after the given events are replayed. */
  type AfterGiven = AggregateState -> AggregateState

  /** The Then-clause of a scenario. */
  datatype ThenStep =
    | ExpectEvents(expected: seq<Event>)                                    // Then(expectedEvents)
    | ExpectNothing                                                         // ThenNothingHappened()
    | ExpectThrow(kind: ExceptionKind, isMatch: Option<Exception -> bool>)  // ThenShouldThrow<TException>(isMatch)

  /** `aggregateId ?? "testid"` */
  function EffectiveAggregateId(aggregateId: Option<string>): (id: string)
    ensures aggregateId.None? ==> id == DefaultAggregateId
    ensures aggregateId.Some? ==> id == aggregateId.value
  {
    if aggregateId.Some? then aggregateId.value else DefaultAggregateId
  }

  /** The events' texts, one after the other. */
  function ShowEvents(events: seq<Event>): string
  {
    if events == [] then "" else events[0].text + ShowEvents(events[1..])
  }

  function EventsMismatchMessage(occurred: seq<Event>, expected: seq<Event>): string
  {
    "The ocurred events (" + ShowEvents(occurred) + ") did not equal the expected events (" + ShowEvents(expected) + ")."
  }

  /** The given events replayed into the aggregate, in order; no Given replays nothing. */
  function Rehydrate(aggregate: AggregateState, given: Option<seq<Event>>): (r: AggregateState)
    ensures r.id == aggregate.id && r.uncommitted == aggregate.uncommitted
    ensures given.None? ==> r.replayed == aggregate.replayed
    ensures given.Some? ==> r.replayed == aggregate.replayed + given.value
  {
    if given.Some? then aggregate.(replayed := aggregate.replayed + given.value) else aggregate
  }

  /** What a Then check leaves in `_results`, and the exception it throws, if any. */
  datatype CheckOutcome = CheckOutcome(results: ResultValue, thrown: Option<Exception>)

  /**
   * Runs the Then check against the aggregate after When, with the results
   * recorded so far. Then and ThenNothingHappened record the uncommitted
   * events; ThenShouldThrow inspects the recorded exception.
   */
  function CheckThen(step: ThenStep, aggregate: AggregateState, results: ResultValue): (c: CheckOutcome)
    ensures step.ExpectEvents? ==> c.results == EventsResult(aggregate.uncommitted)
    ensures step.ExpectEvents? ==> (c.thrown.None? <==> aggregate.uncommitted == step.expected)
    ensures step.ExpectNothing? ==> c.results == EventsResult(aggregate.uncommitted)
    ensures step.ExpectNothing? ==> (c.thrown.None? <==> aggregate.uncommitted == [])
    ensures step.ExpectThrow? ==> c.results == results
    ensures step.ExpectThrow? ==>
      (c.thrown.None? <==> ExceptionMatches(AsException(results), step.kind, MatchOrAny(step.isMatch)))
    ensures c.thrown.Some? ==> c.thrown.value.kind == ScenarioException
  {
    match step
    case ExpectEvents(expected) =>
      var occurred := aggregate.uncommitted;
      CheckOutcome(EventsResult(occurred),
        if occurred == expected then None
        else Some(Exception(ScenarioException, EventsMismatchMessage(occurred, expected))))
    case ExpectNothing =>
      var occurred := aggregate.uncommitted;
      CheckOutcome(EventsResult(occurred),
        if |occurred| > 0 then Some(Exception(ScenarioException, NothingExpectedMessage)) else None)
    case ExpectThrow(kind, isMatch) =>
      CheckOutcome(results,
        if ExceptionMatches(AsException(results), kind, MatchOrAny(isMatch)) then None
        else Some(Exception(ScenarioException, ExceptionMismatchMessage)))
  }

  /** A missing predicate accepts every exception. */
  function MatchOrAny(isMatch: Option<Exception -> bool>): (m: Exception -> bool)
    ensures isMatch.None? ==> forall e :: m(e)
    ensures isMatch.Some? ==> m == isMatch.value
  {
    if isMatch.Some? then isMatch.value else _ => true
  }

  /** The results Run leaves behind, and whether it set `_passed`. */
  datatype RunOutcome = RunOutcome(passed: bool, results: ResultValue)

  /** The aggregate after the Given phase, when the factory succeeds and the hook is set. */
  function AfterGivenPhase(created: AggregateState, given: Option<seq<Event>>, afterGiven: AfterGiven): AggregateState
  {
    afterGiven(Rehydrate(created, given))
  }

  /**
   * Run: create and replay (any exception there becomes a ScenarioException
   * with its message, and Run stops); run When (an exception is recorded as
   * the results, and Run goes on); fail when no Then is set; run the Then
   * check (an exception is recorded as the results); `_passed` is set only
   * when the Then check returns.
   */
  function RunSpec(factory: Factory, aggregateId: string, given: Option<seq<Event>>,
                   afterGiven: Option<AfterGiven>, runWhen: WhenAction, runThen: Option<ThenStep>,
                   prior: ResultValue): (o: RunOutcome)
    ensures factory(aggregateId).Failure? ==>
      o == RunOutcome(false, ExceptionResult(Exception(ScenarioException, factory(aggregateId).error.message)))
    ensures factory(aggregateId).Success? && afterGiven.None? ==>
      o == RunOutcome(false, ExceptionResult(Exception(ScenarioException, NullReferenceMessage)))
    ensures factory(aggregateId).Success? && afterGiven.Some? && runThen.None? ==>
      o == RunOutcome(false, ExceptionResult(Exception(InvalidOperationException, ThenNotSetMessage)))
    ensures o.passed ==> factory(aggregateId).Success? && afterGiven.Some? && runThen.Some?
    ensures factory(aggregateId).Success? && afterGiven.Some? && runThen.Some? ==>
      var replayed := AfterGivenPhase(factory(aggregateId).value, given, afterGiven.value);
      var w := runWhen(replayed);
      var whenResults := if w.thrown.Some? then ExceptionResult(w.thrown.value) else prior;
      var c := CheckThen(runThen.value, w.aggregate, whenResults);
      && (o.passed <==> c.thrown.None?)
      && o.results == (if c.thrown.Some? then ExceptionResult(c.thrown.value) else c.results)
  {
    match factory(aggregateId)
    case Failure(e) => RunOutcome(false, ExceptionResult(Exception(ScenarioException, e.message)))
    case Success(created) =>
      if afterGiven.None? then
        RunOutcome(false, ExceptionResult(Exception(ScenarioException, NullReferenceMessage)))
      else
        var replayed := AfterGivenPhase(created, given, afterGiven.value);
        var w := runWhen(replayed);
        var whenResults := if w.thrown.Some? then ExceptionResult(w.thrown.value) else prior;
        if runThen.None? then
          RunOutcome(false, ExceptionResult(Exception(InvalidOperationException, ThenNotSetMessage)))
        else
          var c := CheckThen(runThen.value, w.aggregate, whenResults);
          if c.thrown.Some? then RunOutcome(false, ExceptionResult(c.thrown.value))
          else RunOutcome(true, c.results)
  }

  /**
   * With the hook set and an expected-events Then, the run is judged on the
   * events the When step left raised, whether or not the step then threw.
   */
  lemma ExpectedEventsJudgeWhatWhenLeft(factory: Factory, aggregateId: string, given: Option<seq<Event>>,
                                        afterGiven: AfterGiven, runWhen: WhenAction, expected: seq<Event>,
                                        prior: ResultValue)
    requires factory(aggregateId).Success?
    ensures var left := runWhen(AfterGivenPhase(factory(aggregateId).value, given, afterGiven)).aggregate;
      var o := RunSpec(factory, aggregateId, given, Some(afterGiven), runWhen, Some(ExpectEvents(expected)), prior);
      && (o.passed <==> left.uncommitted == expected)
      && (o.passed ==> o.results == EventsResult(expected))
  {
  }

  /** Scenario.Aggregate.ScenarioBuilder<T>: the fields the builder methods set and Run reads. */
  class ScenarioBuilder {
    var factory: Factory
    const aggregateId: string
    const name: Option<string>
    var runWhen: WhenAction
    var runThen: Option<ThenStep>
    var afterGiven: Option<AfterGiven>
    var given: Option<seq<Event>>
    var results: ResultValue
    var passed: bool

    /** The When step before any When is set: it throws "When not set.". */
    static function WhenNotSet(aggregate: AggregateState): WhenOutcome
    {
      WhenOutcome(aggregate, Some(Exception(ScenarioException, WhenNotSetMessage)))
    }

    constructor (factory: Factory, aggregateId: string, name: Option<string>)
      ensures this.factory == factory && this.aggregateId == aggregateId && this.name == name
      ensures runWhen == WhenNotSet
      ensures runThen.None? && afterGiven.None? && given.None?
      ensures results == NoResults && !passed
    {
      this.factory := factory;
      this.aggregateId := aggregateId;
      this.name := name;
      var notSet: WhenAction := WhenNotSet;
      runWhen := notSet;
      runThen := None;
      afterGiven := None;
      given := None;
      results := NoResults;
      passed := false;
    }

    method Given(events: seq<Event>)
      modifies this`given
      ensures given == Some(events)
    {
      given := Some(events);
    }

    /** When(Func<T, Task>) and When(Action<T>): the action becomes the When step. */
    method When(action: WhenAction)
      modifies this`runWhen
      ensures runWhen == action
    {
      runWhen := action;
    }

    /**
     * When(Func<T>): the aggregate is whatever `construct` yields, the When
     * step does nothing, and the hook is set to do nothing.
     */
    method WhenConstructed(construct: Result<AggregateState, Exception>)
      modifies this`factory, this`runWhen, this`afterGiven
      ensures forall id :: factory(id) == construct
      ensures forall a :: runWhen(a) == WhenOutcome(a, None)
      ensures afterGiven.Some? && forall a :: afterGiven.value(a) == a
    {
      var constructed: Factory := _ => construct;
      var nothing: WhenAction := a => WhenOutcome(a, None);
      var hook: AfterGiven := a => a;
      factory := constructed;
      runWhen := nothing;
      afterGiven := Some(hook);
    }

    /** GuardThenNotSet: throws InvalidOperationException once a Then-clause is set. */
    function GuardThenNotSet(): (r: Result<(), Exception>)
      reads this
      ensures r.Failure? <==> runThen.Some?
      ensures r.Failure? ==> r.error == Exception(InvalidOperationException, ThenAlreadySetMessage)
    {
      if runThen.Some? then Failure(Exception(InvalidOperationException, ThenAlreadySetMessage)) else Success(())
    }

    /** Sets the Then-clause, unless one is already set. */
    method SetThen(step: ThenStep) returns (r: Result<(), Exception>)
      modifies this`runThen
      ensures r == old(GuardThenNotSet())
      ensures runThen == if r.Success? then Some(step) else old(runThen)
    {
      r := GuardThenNotSet();
      if r.Success? {
        runThen := Some(step);
      }
    }

    method Then(expected: seq<Event>) returns (r: Result<(), Exception>)
      modifies this`runThen
      ensures r == old(GuardThenNotSet())
      ensures runThen == if r.Success? then Some(ExpectEvents(expected)) else old(runThen)
    {
      r := SetThen(ExpectEvents(expected));
    }

    method ThenNothingHappened() returns (r: Result<(), Exception>)
      modifies this`runThen
      ensures r == old(GuardThenNotSet())
      ensures runThen == if r.Success? then Some(ExpectNothing) else old(runThen)
    {
      r := SetThen(ExpectNothing);
    }

    method ThenShouldThrow(kind: ExceptionKind, isMatch: Option<Exception -> bool>) returns (r: Result<(), Exception>)
      modifies this`runThen
      ensures r == old(GuardThenNotSet())
      ensures runThen == if r.Success? then Some(ExpectThrow(kind, isMatch)) else old(runThen)
    {
      r := SetThen(ExpectThrow(kind, isMatch));
    }

    method Run()
      modifies this`results, this`passed
      ensures var o := RunSpec(factory, aggregateId, given, afterGiven, runWhen, runThen, old(results));
        passed == (old(passed) || o.passed) && results == o.results
    {
      var created := factory(aggregateId);
      if created.Failure? {
        results := ExceptionResult(Exception(ScenarioException, created.error.message));
        return;
      }
      var aggregate := Rehydrate(created.value, given);
      if afterGiven.None? {
        // `_afterGiven(aggregate)` on a null delegate
        results := ExceptionResult(Exception(ScenarioException, NullReferenceMessage));
        return;
      }
      aggregate := afterGiven.value(aggregate);
      var w := runWhen(aggregate);
      aggregate := w.aggregate;
      if w.thrown.Some? {
        results := ExceptionResult(w.thrown.value);
      }
      if runThen.None? {
        results := ExceptionResult(Exception(InvalidOperationException, ThenNotSetMessage));
        return;
      }
      var check := CheckThen(runThen.value, aggregate, results);
      results := check.results;
      if check.thrown.Some? {
        results := ExceptionResult(check.thrown.value);
        return;
      }
      passed := true;
    }

    /** The ScenarioResult the builder converts to; `elapsed` is the stopwatch reading. */
    function ToScenarioResult(elapsed: nat): (r: ScenarioResult)
      reads this
      ensures r.name == name && r.passed == passed && r.results == results && r.duration == Some(elapsed)
    {
      ScenarioResult(name, passed, results, Some(elapsed))
    }
  }

  /** The aggregate the default factory creates: a fresh one with the given id. */
  function DefaultCreate(id: string): Result<AggregateState, Exception>
  {
    Success(AggregateState(id, [], []))
  }

  /** Scenario.ForAggregate: the factory defaults to creating a fresh aggregate, the id to "testid". */
  method ForAggregate(factory: Option<Factory>, aggregateId: Option<string>, scenarioName: Option<string>)
    returns (builder: ScenarioBuilder)
    ensures fresh(builder)
    ensures builder.aggregateId == EffectiveAggregateId(aggregateId) && builder.name == scenarioName
    ensures factory.Some? ==> builder.factory == factory.value
    ensures factory.None? ==> forall id :: builder.factory(id) == DefaultCreate(id)
    ensures builder.runWhen == ScenarioBuilder.WhenNotSet
    ensures builder.runThen.None? && builder.afterGiven.None? && builder.given.None?
    ensures builder.results == NoResults && !builder.passed
  {
    var defaultFactory: Factory := DefaultCreate;
    var chosen: Factory := if factory.Some? then factory.value else defaultFactory;
    builder := new ScenarioBuilder(chosen, EffectiveAggregateId(aggregateId), scenarioName);
  }
}

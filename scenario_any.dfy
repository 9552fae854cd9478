/**
 * Scenario.For<T>: a builder over plain values. Run takes the given value,
 * runs the When step on it (an exception is captured), and runs the Then
 * check on the value When returned; an exception from the Then check escapes
 * Run, leaving the scenario unpassed.
 *
 * A C# `null` is `None`. `_given` and `_expect` start at `default(T)`, which
 * the builder receives as `defaultValue`: `None` for a reference type, the
 * type's zero value for a value type. When's function is the compiled
 * `Func<T, Task<T>>`: it yields a value or throws.
 */
module ScenarioAny {
  import opened Wrappers
  import opened Testing

  /** The Then-clause: none (the default, which accepts anything), ThenShouldEqual or ThenShouldThrow. */
  datatype ThenCheck<T> =
    | AcceptAnything
    | ShouldEqual(other: Option<T>)
    | ShouldThrow(kind: ExceptionKind, isMatch: Exception -> bool)

  /** String.Format's rendering of a value: `show` of it, or "" for null. */
  function Show<T>(value: Option<T>, show: T -> string): (s: string)
    ensures value.None? ==> s == ""
    ensures value.Some? ==> s == show(value.value)
  {
    if value.Some? then show(value.value) else ""
  }

  /**
   * The Then check on the value When returned. ThenShouldEqual calls
   * `instance.Equals(other)`, which throws on a null instance.
   */
  function RunThen<T(==)>(check: ThenCheck<T>, instance: Option<T>, occurred: Option<Exception>, show: T -> string)
    : (r: Result<(), Exception>)
    ensures check.AcceptAnything? ==> r.Success?
    ensures check.ShouldEqual? ==> (r.Success? <==> instance.Some? && instance == check.other)
    ensures check.ShouldEqual? && instance.None? ==> r == Failure(Exception(NullReferenceException, NullReferenceMessage))
    ensures check.ShouldEqual? && instance.Some? && r.Failure? ==> r.error.kind == ScenarioException
    ensures check.ShouldThrow? ==> (r.Success? <==> ExceptionMatches(occurred, check.kind, check.isMatch))
  {
    match check
    case AcceptAnything => Success(())
    case ShouldEqual(other) =>
      if instance.None? then Failure(Exception(NullReferenceException, NullReferenceMessage))
      else if instance == other then Success(())
      else Failure(Exception(ScenarioException, Show(instance, show) + " was expected to equal " + Show(other, show) + "."))
    case ShouldThrow(kind, isMatch) =>
      if ExceptionMatches(occurred, kind, isMatch) then Success(())
      else Failure(Exception(ScenarioException, ExceptionMismatchMessage))
  }

  /** What Run leaves in `_expect` and `_occurredException`, and the exception escaping it, if any. */
  datatype AnyOutcome<T> = AnyOutcome(whenResult: Option<T>, occurred: Option<Exception>, escaped: Option<Exception>)

  /**
   * Run: When on the given value (a null When throws NullReferenceException;
   * any exception is captured and `_expect` keeps its value), then the Then
   * check on `_expect`.
   */
  function RunSpec<T(==)>(given: Option<T>, when: Option<Option<T> -> Result<Option<T>, Exception>>,
                          check: ThenCheck<T>, show: T -> string,
                          priorWhenResult: Option<T>, priorOccurred: Option<Exception>): (o: AnyOutcome<T>)
    ensures when.None? ==>
      o.whenResult == priorWhenResult && o.occurred == Some(Exception(NullReferenceException, NullReferenceMessage))
    ensures when.Some? && when.value(given).Success? ==>
      o.whenResult == when.value(given).value && o.occurred == priorOccurred
    ensures when.Some? && when.value(given).Failure? ==>
      o.whenResult == priorWhenResult && o.occurred == Some(when.value(given).error)
    ensures o.escaped.None? <==> RunThen(check, o.whenResult, o.occurred, show).Success?
    ensures o.escaped.Some? ==> o.escaped.value == RunThen(check, o.whenResult, o.occurred, show).error
    ensures check.AcceptAnything? ==> o.escaped.None?
  {
    var (whenResult, occurred) :=
      if when.None? then (priorWhenResult, Some(Exception(NullReferenceException, NullReferenceMessage)))
      else match when.value(given)
        case Success(v) => (v, priorOccurred)
        case Failure(e) => (priorWhenResult, Some(e));
    var r := RunThen(check, whenResult, occurred, show);
    AnyOutcome(whenResult, occurred, if r.Failure? then Some(r.error) else None)
  }

  class ScenarioBuilder<T(==)> {
    const name: Option<string>
    /** T.ToString(), used in ThenShouldEqual's message. */
    const show: T -> string
    var given: Option<T>
    var when: Option<Option<T> -> Result<Option<T>, Exception>>
    var runThen: ThenCheck<T>
    /** `_expect`: the value the When step returned. */
    var whenResult: Option<T>
    var occurredException: Option<Exception>
    var passed: bool

    /** `defaultValue` is `default(T)`, where `_given` and `_expect` start. */
    constructor (name: Option<string>, show: T -> string, defaultValue: Option<T>)
      ensures this.name == name && this.show == show
      ensures given == defaultValue && when.None? && runThen == AcceptAnything
      ensures whenResult == defaultValue && occurredException.None? && !passed
    {
      this.name := name;
      this.show := show;
      given := defaultValue;
      when := None;
      runThen := AcceptAnything;
      whenResult := defaultValue;
      occurredException := None;
      passed := false;
    }

    method Given(instance: Option<T>)
      modifies this`given
      ensures given == instance
    {
      given := instance;
    }

    /** When(Expression<Func<T, T>>): not implemented; it always throws and sets nothing. */
    method WhenSynchronous(f: Option<T> -> Option<T>) returns (r: Result<(), Exception>)
      ensures r == Failure(Exception(NotImplementedException, NotImplementedMessage))
    {
      r := Failure(Exception(NotImplementedException, NotImplementedMessage));
    }

    /** When(Expression<Func<T, Task<T>>>) */
    method When(f: Option<T> -> Result<Option<T>, Exception>)
      modifies this`when
      ensures when == Some(f)
    {
      when := Some(f);
    }

    /** ThenShouldEqual: replaces any Then-clause set before. */
    method ThenShouldEqual(other: Option<T>)
      modifies this`runThen
      ensures runThen == ShouldEqual(other)
    {
      runThen := ShouldEqual(other);
    }

    /** ThenShouldThrow<TException>: a missing predicate accepts every exception; replaces any Then-clause set before. */
    method ThenShouldThrow(kind: ExceptionKind, isMatch: Option<Exception -> bool>)
      modifies this`runThen
      ensures runThen.ShouldThrow? && runThen.kind == kind
      ensures isMatch.None? ==> forall e :: runThen.isMatch(e)
      ensures isMatch.Some? ==> runThen.isMatch == isMatch.value
    {
      var anything: Exception -> bool := _ => true;
      var chosen: Exception -> bool := if isMatch.Some? then isMatch.value else anything;
      runThen := ShouldThrow(kind, chosen);
    }

    /** Run: `escaped` is the exception the returned task faults with, if any. */
    method Run() returns (escaped: Option<Exception>)
      modifies this`whenResult, this`occurredException, this`passed
      ensures var o := RunSpec(given, when, runThen, show, old(whenResult), old(occurredException));
        && whenResult == o.whenResult && occurredException == o.occurred && escaped == o.escaped
        && passed == (old(passed) || escaped.None?)
    {
      if when.None? {
        // `_when.Compile()` on a null expression
        occurredException := Some(Exception(NullReferenceException, NullReferenceMessage));
      } else {
        var outcome := when.value(given);
        if outcome.Success? {
          whenResult := outcome.value;
        } else {
          occurredException := Some(outcome.error);
        }
      }
      var checked := RunThen(runThen, whenResult, occurredException, show);
      if checked.Failure? {
        return Some(checked.error);
      }
      passed := true;
      escaped := None;
    }

    /** The ScenarioResult the builder converts to: its Results are the captured exception. */
    function ToScenarioResult(): (r: ScenarioResult)
      reads this
      ensures r.name == name && r.passed == passed && r.duration.None?
      ensures r.results == if occurredException.Some? then ExceptionResult(occurredException.value) else NoResults
    {
      ScenarioResult(name, passed, if occurredException.Some? then ExceptionResult(occurredException.value) else NoResults, None)
    }
  }

  /** Scenario.For<T>: `defaultValue` is `default(T)`. */
  method For<T(==)>(scenarioName: Option<string>, show: T -> string, defaultValue: Option<T>) returns (builder: ScenarioBuilder<T>)
    ensures fresh(builder) && builder.name == scenarioName
    ensures builder.given == defaultValue && builder.when.None? && builder.runThen == AcceptAnything
    ensures builder.whenResult == defaultValue && builder.occurredException.None? && !builder.passed
  {
    builder := new ScenarioBuilder(scenarioName, show, defaultValue);
  }
}

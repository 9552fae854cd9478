/** Runs of the value-scenario builder on integers, whose `default(int)` is 0. */
module AnyScenarioRuns {
  import opened Wrappers
  import opened Testing
  import opened ScenarioAny

  function ShowInt(i: int): string
  {
    if i < 0 then "negative" else "number"
  }

  function Increment(i: Option<int>): Result<Option<int>, Exception>
  {
    if i.Some? then Success(Some(i.value + 1)) else Failure(Exception(NullReferenceException, NullReferenceMessage))
  }

  /** No Then-clause: the default check accepts anything, so the scenario passes. */
  method DefaultThenPasses() returns (escaped: Option<Exception>, passed: bool, result: Option<int>)
    ensures escaped.None? && passed && result == Some(2)
  {
    var builder := For(Some("default_then"), ShowInt, Some(0));
    builder.Given(Some(1));
    builder.When(Increment);
    escaped := builder.Run();
    passed, result := builder.passed, builder.whenResult;
  }

  /** A failing ThenShouldEqual escapes Run: the scenario stays unpassed. */
  method FailedEqualityEscapes() returns (escaped: Option<Exception>, passed: bool)
    ensures escaped.Some? && escaped.value.kind == ScenarioException
    ensures !passed
  {
    var builder := For(Some("failed_equality"), ShowInt, Some(0));
    builder.Given(Some(1));
    builder.When(Increment);
    builder.ThenShouldEqual(Some(3));
    escaped := builder.Run();
    passed := builder.passed;
  }

  /** No When: the null expression throws inside Run; the exception is captured and ThenShouldThrow accepts it. */
  method MissingWhenIsCaptured() returns (escaped: Option<Exception>, passed: bool, occurred: Option<Exception>)
    ensures escaped.None? && passed
    ensures occurred == Some(Exception(NullReferenceException, NullReferenceMessage))
  {
    var builder := For(Some("missing_when"), ShowInt, Some(0));
    builder.ThenShouldThrow(NullReferenceException, None);
    escaped := builder.Run();
    passed, occurred := builder.passed, builder.occurredException;
  }

  /** A When step that throws InvalidOperationException. */
  function Throw(i: Option<int>): Result<Option<int>, Exception>
  {
    Failure(Exception(InvalidOperationException, DefaultInvalidOperationMessage))
  }

  /**
   * A When that throws leaves `_expect` at `default(int)`, so ThenShouldEqual(0)
   * compares 0 with 0 and passes; the exception is captured.
   */
  method ThrowingWhenKeepsDefault() returns (escaped: Option<Exception>, passed: bool, occurred: Option<Exception>)
    ensures escaped.None? && passed
    ensures occurred == Some(Exception(InvalidOperationException, DefaultInvalidOperationMessage))
  {
    var builder := For(Some("throwing_when"), ShowInt, Some(0));
    builder.When(Throw);
    builder.ThenShouldEqual(Some(0));
    escaped := builder.Run();
    passed, occurred := builder.passed, builder.occurredException;
  }

  /** A second Then-clause silently replaces the first. */
  method SecondThenReplacesFirst() returns (check: ThenCheck<int>)
    ensures check.ShouldThrow? && check.kind == InvalidOperationException
  {
    var builder := For(None, ShowInt, Some(0));
    builder.ThenShouldEqual(Some(1));
    builder.ThenShouldThrow(InvalidOperationException, None);
    check := builder.runThen;
  }
}

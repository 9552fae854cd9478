/**
 * Values shared by the scenario builders and the result printers of
 * Cedar.Testing: exceptions, the events an aggregate raises, the
 * ScenarioResult a run produces and the category a printer groups results by.
 */
module Testing {
  import opened Wrappers

  /** The exception types the scenario code throws or inspects. */
  datatype ExceptionKind =
    | BaseException                // System.Exception
    | ScenarioException            // Cedar.Testing.ScenarioException
    | InvalidOperationException
    | NullReferenceException
    | NotImplementedException
    | OtherException(typeName: string)

  /** An exception: its type and its Message. */
  datatype Exception = Exception(kind: ExceptionKind, message: string)

  /** .NET's message for a call through a null reference. */
  const NullReferenceMessage: string := "Object reference not set to an instance of an object."
  /** .NET's message of `new Exception()`. */
  const DefaultExceptionMessage: string := "Exception of type 'System.Exception' was thrown."
  /** .NET's message of `new InvalidOperationException()`. */
  const DefaultInvalidOperationMessage: string := "Operation is not valid due to the current state of the object."
  /** .NET's message of `new NotImplementedException()`. */
  const NotImplementedMessage: string := "The method or operation is not implemented."
  /** The message of the ScenarioException thrown when an expected exception did not occur. */
  const ExceptionMismatchMessage: string := "The expected exception did not occur."

  function TypeName(kind: ExceptionKind): string
  {
    match kind
    case BaseException => "System.Exception"
    case ScenarioException => "Cedar.Testing.ScenarioException"
    case InvalidOperationException => "System.InvalidOperationException"
    case NullReferenceException => "System.NullReferenceException"
    case NotImplementedException => "System.NotImplementedException"
    case OtherException(typeName) => typeName
  }

  /** Exception.ToString() without the stack trace: "<type>: <message>", or the type alone for an empty message. */
  function ExceptionText(e: Exception): (text: string)
    ensures |TypeName(e.kind)| <= |text| && text[..|TypeName(e.kind)|] == TypeName(e.kind)
    ensures e.message == "" <==> text == TypeName(e.kind)
    ensures e.message != "" ==> text[|TypeName(e.kind)|..] == ": " + e.message
  {
    if e.message == "" then TypeName(e.kind) else TypeName(e.kind) + ": " + e.message
  }

  /** `e is TException`: every exception is a System.Exception, the others match their own type only. */
  predicate IsOfType(e: Exception, kind: ExceptionKind)
  {
    kind == BaseException || e.kind == kind
  }

  /**
   * The check behind ThenShouldThrow: an exception occurred, it is of the
   * expected type, and the predicate accepts it.
   */
  predicate ExceptionMatches(occurred: Option<Exception>, kind: ExceptionKind, isMatch: Exception -> bool)
  {
    occurred.Some? && IsOfType(occurred.value, kind) && isMatch(occurred.value)
  }

  /** A domain event; its text is what ToString() shows. */
  datatype Event = Event(text: string)

  /** What ScenarioResult.Results holds: nothing, the events that occurred, or an exception. */
  datatype ResultValue =
    | NoResults
    | EventsResult(events: seq<Event>)
    | ExceptionResult(exception: Exception)

  /** `Results as Exception` */
  function AsException(results: ResultValue): (e: Option<Exception>)
    ensures e.Some? <==> results.ExceptionResult?
    ensures e.Some? ==> e.value == results.exception
  {
    if results.ExceptionResult? then Some(results.exception) else None
  }

  /** The outcome of a scenario run, as the printers see it; a duration is in whole milliseconds. */
  datatype ScenarioResult = ScenarioResult(name: Option<string>, passed: bool, results: ResultValue, duration: Option<nat>)

  /** The test class a group of results was found on: its category id and name, and its full type name. */
  datatype Category = Category(id: string, name: string, fullName: string)
}

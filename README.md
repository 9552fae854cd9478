# Cedar core, modelled in Dafny

This project models the core of Cedar, a .NET library for event-sourced applications. It proves properties of that model. The parts modelled are:

- **Process-manager dispatcher** (`ProcessHandler<TProcess, TCheckpoint>` and its inner `ProcessManagerDispatcher`), module `ProcessManagers`.
  - Each event message type is registered with a correlation-id extractor.
  - A routed event is delivered to the process for its correlation id, which is built and cached on first use.
  - Unless the checkpoint cached with the process already covers the event's checkpoint token, the process's pending commands are dispatched and the token is saved.
  - Completion of a process evicts it from the cache, marks it completed and disposes it.
  - The handler is a class whose `map` and `seq` fields are the registry, the cache and the state of its collaborators: the checkpoint repository, the command dispatcher and the process factory.
- **Stream-name helpers** of the GetEventStore adapter (`StringExtensions`), module `StreamNames`. They format `[bucket].stream` names and strip the bucket again.
- **NEventStore aggregate repository**, module `AggregateRepository`.
  - Rehydration folds the events of a stream's commits into an aggregate.
  - A stream-head cache remembers the last revision seen.
  - Header preparation, and the mapping of the store's answer to a commit into a result or an exception.
- **Scenario builders** of Cedar.Testing: `Scenario.ForAggregate` (module `ScenarioAggregate`) and `Scenario.For<T>` (module `ScenarioAny`).
  - Each is a builder whose Given / When / Then methods set fields.
  - Its `Run` records the results and whether the scenario passed.
- **Result printers**.
  - `BootstrapPrinter` (module `BootstrapPrinting`) keeps a table of contents of (category, results) groups and writes one HTML page with a PASSED/FAILED status per group.
  - `TeamCityPrinter` (module `TeamCityPrinting`) writes TeamCity service messages, with CR and LF escaped.
- **Shared values** live in `Testing` (exceptions, scenario results, categories), `Strings` (character search and replacement, decimal rendering) and `Wrappers` (`Option`, `Result`).

A C# `null` is `None`. An operation that throws returns a `Failure`. Checkpoints and checkpoint tokens are integers under their usual order. Durations are whole milliseconds.

## Code as written

Four behaviours of the source are modelled as they are written, not as their names suggest. Each one is shown on concrete inputs by a method.

- **The cache is probed by one key and filled by another.** The process cache is probed with the correlation id (`ProcessHandler.cs:187`) but filled and emptied with the process id (`:205`, `:198`). With the default id builder, `"<process type>-" + correlationId`, every cached process is keyed by its own id, and that key is never the correlation id the process was built for (`DefaultProbeNeverFindsOwnProcess`). An event therefore misses the cache unless its correlation id equals another cached process's id.
  - A redelivered event builds a fresh process. That process reads its checkpoint back from the repository and sees only the one event (`ProcessScenarios.RedeliveryWithDefaultIds`).
  - An event whose correlation id is `"OrderProcess-A"` reaches the process built for `"A"` (`ProcessScenarios.ProbeHitsForeignProcess`).
- **The cached checkpoint is never advanced.** It is read once, when the process is built (`:192`, `:203`), and the handler never updates it after a save. With an id builder that lets the probe hit, a later event with a lower token passes the gate again: its commands are dispatched again and the lower token is saved over the higher one (`ProcessScenarios.StaleCachedCheckpoint`). The checkpoint repository is taken to overwrite what it stores; see "Left out".
- **Events reach the inbox before the gate.** An event is delivered to the process's inbox before the checkpoint comparison (`:164-166`), so gated events are still seen (`ProcessHandler.Handle`).
- **The aggregate scenario builder calls a hook that only one overload sets.** Its Given phase calls `_afterGiven` (`Scenario.Aggregate.cs:83`), which only `When(Func<T>)` assigns (`:122`).
  - Every scenario built with `When(Action<T>)` or `When(Func<T, Task>)` therefore fails in its Given phase: the null-delegate call's `NullReferenceException` is turned into a `ScenarioException` (`ScenarioAggregate.RunSpec`).
  - Cedar's own tests expect three such scenarios to pass (`AggregateTests.cs:79-87`, `:99-107`, `:134-142`). The model follows the code, and `AggregateScenarioRuns.PassingScenarioFailsInGiven`, `AggregateScenarioRuns.NoGivenScenarioFailsInGiven` and `AggregateScenarioRuns.ExpectedExceptionScenarioFailsInGiven` show the outcome.

## Model

| member | source | states |
|---|---|---|
| ProcessManagers.DefaultBuildProcessId | src/Cedar/ProcessManagers/ProcessHandler.cs:38-39 | The default process id is the process type name, a dash, then the correlation id. It is never equal to the correlation id. |
| ProcessManagers.PipeThrough | src/Cedar/ProcessManagers/ProcessHandler.cs:93-95 | Folding the pipes into a handler registration keeps its message type and appends the pipes in registration order. |
| ProcessManagers.RoundOutcome | src/Cedar/ProcessManagers/ProcessHandler.cs:166-180 | The event is gated iff the cached checkpoint is at or above its token. The token is saved iff it is above the cached checkpoint, commands are pending and every dispatch succeeds. |
| ProcessManagers.ProcessHandler.constructor | src/Cedar/ProcessManagers/ProcessHandler.cs:46-58 | The id builder defaults to the default process id. ProcessCompleted and CheckpointReached are the only correlated types. Pipes and the process cache start empty. |
| ProcessManagers.ProcessHandler.CorrelateBy | src/Cedar/ProcessManagers/ProcessHandler.cs:220-225 | Registers the extractor iff the message type is not yet registered. A second registration fails and changes nothing. |
| ProcessManagers.ProcessHandler.Pipe | src/Cedar/ProcessManagers/ProcessHandler.cs:69-74 | Appends the pipe at the end of the pipe list. |
| ProcessManagers.ProcessHandler.ResolveAll | src/Cedar/ProcessManagers/ProcessHandler.cs:140-147 | At most one handler. Exactly one iff the type is an EventMessage type with a registered extractor. |
| ProcessManagers.ResolveAllIffCorrelated | src/Cedar/ProcessManagers/ProcessHandler.cs:142-146 | Since every registered type is an EventMessage type, a handler is resolved iff the type is registered, and none otherwise. |
| ProcessManagers.ProcessHandler.BuildHandlerResolver | src/Cedar/ProcessManagers/ProcessHandler.cs:76-98 | One handler registration per correlated message type, each with every pipe in registration order. |
| ProcessManagers.ProcessHandler.GetProcess | src/Cedar/ProcessManagers/ProcessHandler.cs:184-208 | On a hit, returns the cached entry and changes nothing. On a miss, builds a fresh process with id `buildProcessId(c)` and the repository's checkpoint for that id, subscribes its completion, and adds it under its process id unless that key is already taken. |
| ProcessManagers.ProcessHandler.DispatchAll | src/Cedar/ProcessManagers/ProcessHandler.cs:178 | Dispatches every command in order. Succeeds iff no dispatch fails. |
| ProcessManagers.ProcessHandler.Handle | src/Cedar/ProcessManagers/ProcessHandler.cs:147-181 | An unregistered type changes nothing. Otherwise the event is appended to the inbox before the gate. A gated event dispatches nothing and leaves the commands pending. Any other event drains and dispatches every pending command. The repository checkpoint changes only on CheckpointSaved, and the cached entry is never rewritten. A cached process keeps its disposed flag, and a freshly built one is not disposed. |
| ProcessManagers.ProcessHandler.OnProcessCompleted | src/Cedar/ProcessManagers/ProcessHandler.cs:194-201 | Removes the cache entry keyed by the completed process id, records the completion in the repository, and disposes the process. |
| ProcessManagers.DefaultProbeNeverFindsOwnProcess | src/Cedar/ProcessManagers/ProcessHandler.cs:187-205 | Under the default builder, the process cached under key `c` was built for a correlation id other than `c`, one whose default process id is `c`. So a probe with `c` never finds the process built for `c`. |
| ProcessScenarios.RedeliveryWithDefaultIds | src/Cedar/ProcessManagers/ProcessHandler.cs:184-208 | With default ids, a redelivered event misses the cache and builds a second process. That process reads the saved checkpoint back and is gated, so the command is dispatched once. |
| ProcessScenarios.StaleCachedCheckpoint | src/Cedar/ProcessManagers/ProcessHandler.cs:159-180 | With a cache hit, an event with a lower token passes the stale cached checkpoint, dispatches again and overwrites the saved checkpoint with the lower token. |
| ProcessScenarios.ProbeHitsForeignProcess | src/Cedar/ProcessManagers/ProcessHandler.cs:184-208 | With default ids, an event correlated by "OrderProcess-A" reaches the process built for "A". That process dispatches again and saves the token under "OrderProcess-A". |
| ProcessScenarios.UnroutedEventIsIgnored | src/Cedar/ProcessManagers/ProcessHandler.cs:142-146 | An uncorrelated message type resolves no handler, and handling it dispatches nothing. |
| Strings.IndexOf | src/Cedar.GetEventStore/StringExtensions.cs:21 | Finds the first occurrence of the character, or None iff the character is absent. |
| Strings.IndexOfAfterPrefix | src/Cedar.GetEventStore/StringExtensions.cs:21 | The first occurrence of the character comes right after a prefix that does not contain it. |
| Strings.Replace | src/Cedar.Testing/Printing/TeamCity/TeamCityPrinter.cs:47 | Replacing a character by text without it removes every occurrence. Text without the character is unchanged. |
| Strings.ReplaceKeepsAbsent | src/Cedar.Testing/Printing/TeamCity/TeamCityPrinter.cs:47 | Replacing introduces no character absent from both the text and the replacement. |
| Strings.ReplaceAppend | src/Cedar.Testing/Printing/TeamCity/TeamCityPrinter.cs:47 | Replacing distributes over concatenation. |
| Strings.NatToString | src/Cedar.Testing/Printing/TeamCity/TeamCityPrinter.cs:26-27 | A non-empty string of decimal digits. |
| Strings.NatToStringValue | src/Cedar.Testing/Printing/TeamCity/TeamCityPrinter.cs:26-27 | Reading the digits back gives the number. |
| Strings.IntToString | src/Cedar.Testing/Printing/TeamCity/TeamCityPrinter.cs:26-27 | A negative number is a minus sign followed by the digits of its magnitude. |
| Strings.IntToStringReadBack | src/Cedar.Testing/Printing/TeamCity/TeamCityPrinter.cs:26-27 | The text starts with '-' iff the number is negative, and the digits after any sign read back to its magnitude. |
| StreamNames.EffectiveBucket | src/Cedar.GetEventStore/StringExtensions.cs:12 | A null or whitespace bucket becomes "default". Any other bucket is kept. The result is never blank. |
| StreamNames.FormatStreamIdWithBucket | src/Cedar.GetEventStore/StringExtensions.cs:8-15 | Fails iff the stream id is null or whitespace. Otherwise returns exactly "[" + bucket + "]." + stream id. |
| StreamNames.FormatStreamNameWithoutBucket | src/Cedar.GetEventStore/StringExtensions.cs:17-29 | Fails on a null or whitespace name, and with ArgumentException iff there is no '.'. Otherwise returns the text after the first '.'. |
| StreamNames.LaterDotsPreserved | src/Cedar.GetEventStore/StringExtensions.cs:21-28 | Only the first '.' splits. Everything after it, later dots included, is returned. |
| StreamNames.StripFormattedBucket | src/Cedar.GetEventStore/StringExtensions.cs:12-28 | Round trip: stripping the bucket from a formatted stream id gives the stream id back, when the effective bucket holds no '.'. |
| StreamNames.DottedBucketBreaksRoundTrip | src/Cedar.GetEventStore/StringExtensions.cs:14-28 | A bucket with a '.' breaks the round trip: "[a.b].s" strips to "b].s". |
| AggregateRepository.FlattenAppend | src/Cedar.NEventStore/Domain/Persistence/NEventStoreAggregateRepository.cs:101-108 | The events of consecutive commits are applied in commit order, then event order. |
| AggregateRepository.LastRevision | src/Cedar.NEventStore/Domain/Persistence/NEventStoreAggregateRepository.cs:99-112 | The reported revision is that of the last commit, or 1 when there are none. |
| AggregateRepository.PrepareHeaders | src/Cedar.NEventStore/Domain/Persistence/NEventStoreAggregateRepository.cs:115-128 | AggregateType is the type's full name unless updateHeaders overwrites it. The keys are AggregateType plus those updateHeaders sets, with its values. |
| AggregateRepository.SaveResult | src/Cedar.NEventStore/Domain/Persistence/NEventStoreAggregateRepository.cs:69-88 | A commit or a duplicate commit succeeds. A concurrency failure becomes ConflictingCommandException and a storage failure becomes PersistenceException, each with the message. |
| AggregateRepository.ApplyEventsToAggregate | src/Cedar.NEventStore/Domain/Persistence/NEventStoreAggregateRepository.cs:97-113 | Applies every event of every commit in order, clears the uncommitted events, and returns the last revision, or 1. |
| AggregateRepository.NEventStoreAggregateRepository.constructor | src/Cedar.NEventStore/Domain/Persistence/NEventStoreAggregateRepository.cs:24-29 | The stream-head cache starts empty. |
| AggregateRepository.NEventStoreAggregateRepository.GetById | src/Cedar.NEventStore/Domain/Persistence/NEventStoreAggregateRepository.cs:31-44 | No commits: null, and the stream heads are unchanged. Otherwise a fresh aggregate with every event applied, none uncommitted, and the stream head of (bucket, id) set to the last revision. |
| AggregateRepository.NEventStoreAggregateRepository.Save | src/Cedar.NEventStore/Domain/Persistence/NEventStoreAggregateRepository.cs:46-90 | Commits the uncommitted events with the prepared headers against the cached stream head, or 1. The stream heads are never changed. Only a successful commit clears the events, and the outcome maps as SaveResult says. |
| AggregateRepository.LoadThenSave | src/Cedar.NEventStore/Domain/Persistence/NEventStoreAggregateRepository.cs:31-90 | After a load, a save commits against the last loaded revision. An empty stream loads nothing. |
| Testing.ExceptionText | src/Cedar.Testing/Printing/TeamCity/TeamCityPrinter.cs:20 | An exception's text is its type name, followed by ": " and the message when the message is non-empty. |
| Testing.AsException | src/Cedar.Testing/Printing/TeamCity/TeamCityPrinter.cs:89 | `Results as Exception` is the exception iff the results hold one. |
| ScenarioAggregate.EffectiveAggregateId | src/Cedar.Testing/Scenario.Aggregate.cs:19 | The aggregate id defaults to "testid". |
| ScenarioAggregate.Rehydrate | src/Cedar.Testing/Scenario.Aggregate.cs:73-81 | The given events are replayed in order. No Given replays nothing. The id and uncommitted events are kept. |
| ScenarioAggregate.CheckThen | src/Cedar.Testing/Scenario.Aggregate.cs:126-181 | Then passes iff the uncommitted events equal the expected ones. ThenNothingHappened passes iff there are none. Both record those events. ThenShouldThrow passes iff the recorded exception matches. Any failure is a ScenarioException. |
| ScenarioAggregate.MatchOrAny | src/Cedar.Testing/Scenario.Aggregate.cs:172-178 | A missing predicate accepts every exception. |
| ScenarioAggregate.RunSpec | src/Cedar.Testing/Scenario.Aggregate.cs:200-256 | A factory failure gives a ScenarioException with its message. A missing hook gives a ScenarioException with the null-reference message. No Then gives InvalidOperationException "Then not set.". A When step that throws has its exception recorded. The Then check still runs, on the aggregate as the step left it. The scenario passes iff the Then check does not throw. |
| ScenarioAggregate.ExpectedEventsJudgeWhatWhenLeft | src/Cedar.Testing/Scenario.Aggregate.cs:225-240 | With the hook set, an expected-events Then passes iff the events the When step left raised are the expected ones, even if the step then threw. |
| ScenarioAggregate.ScenarioBuilder.constructor | src/Cedar.Testing/Scenario.Aggregate.cs:68-91 | The When step throws "When not set.". No Then, no hook, no Given, no results, not passed. |
| ScenarioAggregate.ScenarioBuilder.Given | src/Cedar.Testing/Scenario.Aggregate.cs:93-97 | Sets the given events. |
| ScenarioAggregate.ScenarioBuilder.When | src/Cedar.Testing/Scenario.Aggregate.cs:99-115 | The action becomes the When step. The hook keeps whatever it was set to. |
| ScenarioAggregate.ScenarioBuilder.WhenConstructed | src/Cedar.Testing/Scenario.Aggregate.cs:117-124 | The factory yields the constructed aggregate, the When step does nothing, and the hook is set to do nothing. |
| ScenarioAggregate.ScenarioBuilder.GuardThenNotSet | src/Cedar.Testing/Scenario.Aggregate.cs:190-193 | Fails with InvalidOperationException "Then already set." iff a Then-clause is set. |
| ScenarioAggregate.ScenarioBuilder.Then | src/Cedar.Testing/Scenario.Aggregate.cs:126-151 | Sets the expected-events check unless a Then-clause is already set. A second one is refused and the first stays. |
| ScenarioAggregate.ScenarioBuilder.ThenNothingHappened | src/Cedar.Testing/Scenario.Aggregate.cs:153-170 | Sets the no-events check unless a Then-clause is already set. |
| ScenarioAggregate.ScenarioBuilder.ThenShouldThrow | src/Cedar.Testing/Scenario.Aggregate.cs:172-181 | Sets the expected-exception check unless a Then-clause is already set. |
| ScenarioAggregate.ScenarioBuilder.Run | src/Cedar.Testing/Scenario.Aggregate.cs:200-256 | Results and passed are as RunSpec says. Passed is set only when the Then check returns. |
| ScenarioAggregate.ScenarioBuilder.ToScenarioResult | src/Cedar.Testing/Scenario.Aggregate.cs:258-261 | Carries the name, passed, results and elapsed time. |
| ScenarioAggregate.ForAggregate | src/Cedar.Testing/Scenario.Aggregate.cs:17-23 | The factory defaults to creating a fresh aggregate and the id to "testid". The builder starts with nothing set. |
| AggregateScenarioRuns.PassingScenarioFailsInGiven | src/Cedar.Testing/Scenario.Aggregate.cs:73-84 | Given, When(action), Then fails in Given with a null-reference ScenarioException, although AggregateTests.cs:79-87 expects it to pass. |
| AggregateScenarioRuns.NoGivenScenarioFailsInGiven | src/Cedar.Testing/Scenario.Aggregate.cs:73-84 | When(action), Then with no Given fails in Given with the same null-reference ScenarioException, although AggregateTests.cs:99-107 expects it to pass. |
| AggregateScenarioRuns.ExpectedExceptionScenarioFailsInGiven | src/Cedar.Testing/Scenario.Aggregate.cs:73-84 | When(action) with ThenShouldThrow fails in Given too, although AggregateTests.cs:134-142 expects it to pass. |
| AggregateScenarioRuns.ConstructedScenarioPasses | src/Cedar.Testing/Scenario.Aggregate.cs:117-124 | A scenario built with When(Func<T>) passes and records the constructor's events. |
| AggregateScenarioRuns.ThrowingConstructorScenarioFails | src/Cedar.Testing/Scenario.Aggregate.cs:210-221 | A throwing constructor fails the scenario with a ScenarioException carrying its message. |
| AggregateScenarioRuns.SecondThenIsRefused | src/Cedar.Testing/Scenario.Aggregate.cs:190-193 | A second Then-clause is refused with InvalidOperationException, and the first one is kept. |
| ScenarioAny.Show | src/Cedar.Testing/Scenario.Any.cs:87 | String.Format shows a null value as the empty string. |
| ScenarioAny.RunThen | src/Cedar.Testing/Scenario.Any.cs:81-101 | The default check accepts anything. ThenShouldEqual passes iff the value is non-null and equal, and throws NullReferenceException on null. ThenShouldThrow passes iff the occurred exception matches. |
| ScenarioAny.RunSpec | src/Cedar.Testing/Scenario.Any.cs:117-135 | A missing When records a NullReferenceException. A When failure is recorded and the previous value kept. The Then check always runs, and its exception escapes iff it fails. |
| ScenarioAny.ScenarioBuilder.constructor | src/Cedar.Testing/Scenario.Any.cs:41-53 | The given instance and the expected result start at `default(T)`, no When is set, and the Then check accepts anything. |
| ScenarioAny.ScenarioBuilder.Given | src/Cedar.Testing/Scenario.Any.cs:55-60 | Sets the given value. |
| ScenarioAny.ScenarioBuilder.WhenSynchronous | src/Cedar.Testing/Scenario.Any.cs:62-72 | Always throws NotImplementedException. |
| ScenarioAny.ScenarioBuilder.When | src/Cedar.Testing/Scenario.Any.cs:74-79 | Sets the When function. |
| ScenarioAny.ScenarioBuilder.ThenShouldEqual | src/Cedar.Testing/Scenario.Any.cs:81-91 | Replaces any Then check with the equality check. |
| ScenarioAny.ScenarioBuilder.ThenShouldThrow | src/Cedar.Testing/Scenario.Any.cs:93-101 | Replaces any Then check. A missing predicate accepts every exception. |
| ScenarioAny.ScenarioBuilder.Run | src/Cedar.Testing/Scenario.Any.cs:117-135 | The state is as RunSpec says. Passed is set iff nothing escapes. |
| ScenarioAny.ScenarioBuilder.ToScenarioResult | src/Cedar.Testing/Scenario.Any.cs:137-140 | The results are the occurred exception, if any. |
| ScenarioAny.For | src/Cedar.Testing/Scenario.Any.cs:10-13 | A fresh builder whose given instance and expected result are `default(T)`, with no When and no Then check. |
| AnyScenarioRuns.DefaultThenPasses | src/Cedar.Testing/Scenario.Any.cs:40 | With no Then, the scenario passes. |
| AnyScenarioRuns.FailedEqualityEscapes | src/Cedar.Testing/Scenario.Any.cs:83-89 | A failed equality escapes as a ScenarioException, and the scenario stays unpassed. |
| AnyScenarioRuns.MissingWhenIsCaptured | src/Cedar.Testing/Scenario.Any.cs:121-130 | The exception from a missing When is captured, and ThenShouldThrow accepts it. |
| AnyScenarioRuns.ThrowingWhenKeepsDefault | src/Cedar.Testing/Scenario.Any.cs:117-135 | When the When step throws, the exception is captured, the Then check sees `default(int)` = 0, and the scenario passes. |
| AnyScenarioRuns.SecondThenReplacesFirst | src/Cedar.Testing/Scenario.Any.cs:93-101 | A second Then check silently replaces the first. |
| BootstrapPrinting.Status | src/Cedar.Testing/Printing/Bootstrap/BootstrapPrinter.cs:95 | PASSED iff every result passed, so an empty group is PASSED. Otherwise FAILED. |
| BootstrapPrinting.NavigationLines | src/Cedar.Testing/Printing/Bootstrap/BootstrapPrinter.cs:84-96 | One navigation line per group, in table-of-contents order. |
| BootstrapPrinting.ResultBlockLayout | src/Cedar.Testing/Printing/Bootstrap/BootstrapPrinter.cs:119-132 | A result's block is a success alert iff it passed. Its summary is the titleized name ("???" for none) and Passed or Failed. Its sections sit unchanged inside `pre`. |
| BootstrapPrinting.GroupHeaderLayout | src/Cedar.Testing/Printing/Bootstrap/BootstrapPrinter.cs:134-138 | A group opens a section under its category id, with the category name as its heading. |
| BootstrapPrinting.Prologue | src/Cedar.Testing/Printing/Bootstrap/BootstrapPrinter.cs:41-71 | The doctype, the html tag, the head with the stylesheet inside its style element, then the body's opening. |
| BootstrapPrinting.ResultBlocksAppend | src/Cedar.Testing/Printing/Bootstrap/BootstrapPrinter.cs:110-113 | Results are written in insertion order. |
| BootstrapPrinting.ResultsLinesAppend | src/Cedar.Testing/Printing/Bootstrap/BootstrapPrinter.cs:101-117 | Groups are written in table-of-contents order. |
| BootstrapPrinting.PrintedResultIsWrittenLast | src/Cedar.Testing/Printing/Bootstrap/BootstrapPrinter.cs:23-27 | A printed result's block is written at the end of the last group, after the earlier results. |
| BootstrapPrinting.BootstrapPrinter.constructor | src/Cedar.Testing/Printing/Bootstrap/BootstrapPrinter.cs:16-21 | The table of contents and the output start empty, not disposed. |
| BootstrapPrinting.BootstrapPrinter.PrintCategoryHeader | src/Cedar.Testing/Printing/Bootstrap/BootstrapPrinter.cs:34-39 | Appends a new, empty group at the end. |
| BootstrapPrinting.BootstrapPrinter.PrintResult | src/Cedar.Testing/Printing/Bootstrap/BootstrapPrinter.cs:23-27 | Fails with Last()'s InvalidOperationException when no group exists. Otherwise appends to the last group only, and earlier groups are unchanged. |
| BootstrapPrinting.BootstrapPrinter.PrintCategoryFooter | src/Cedar.Testing/Printing/Bootstrap/BootstrapPrinter.cs:29-32 | Changes nothing. |
| BootstrapPrinting.BootstrapPrinter.WriteNavigation | src/Cedar.Testing/Printing/Bootstrap/BootstrapPrinter.cs:81-99 | Writes the navigation list with each group's status, then an empty line. |
| BootstrapPrinting.BootstrapPrinter.WriteGroup | src/Cedar.Testing/Printing/Bootstrap/BootstrapPrinter.cs:105-115 | Writes the group header, every result's block in order, then the footer. |
| BootstrapPrinting.BootstrapPrinter.WriteResults | src/Cedar.Testing/Printing/Bootstrap/BootstrapPrinter.cs:101-117 | Writes every group in table-of-contents order. |
| BootstrapPrinting.BootstrapPrinter.Flush | src/Cedar.Testing/Printing/Bootstrap/BootstrapPrinter.cs:41-52 | Writes head, navigation, results and closing tags in that order, then flushes once. |
| BootstrapPrinting.BootstrapPrinter.Dispose | src/Cedar.Testing/Printing/Bootstrap/BootstrapPrinter.cs:175-183 | Idempotent: the writer is disposed on the first call only. |
| BootstrapPrinting.RefusedResultAndDoubleDispose | src/Cedar.Testing/Printing/Bootstrap/BootstrapPrinter.cs:23-39 | A result before any header is refused. A later one joins the new group. Two Dispose calls dispose the writer once. |
| TeamCityPrinting.ParseServiceMessage | src/Cedar.Testing/Printing/TeamCity/TeamCityPrinter.cs:9 | A line it accepts is exactly the service-message format of the kind and attributes it returns. |
| TeamCityPrinting.ParseServiceMessageRoundTrip | src/Cedar.Testing/Printing/TeamCity/TeamCityPrinter.cs:9 | A service message whose kind has no space reads back as that kind and attributes. |
| TeamCityPrinting.ParseRendered | src/Cedar.Testing/Printing/TeamCity/TeamCityPrinter.cs:9-38 | Every rendered message reads back as its kind's name and its attributes. |
| TeamCityPrinting.Arg | src/Cedar.Testing/Printing/TeamCity/TeamCityPrinter.cs:13 | String.Format writes a null name as the empty string. |
| TeamCityPrinting.FormatNewLines | src/Cedar.Testing/Printing/TeamCity/TeamCityPrinter.cs:40-48 | Null maps to null. The result holds no CR or LF. Text without line breaks is unchanged. |
| TeamCityPrinting.FormatNewLinesRoundTrip | src/Cedar.Testing/Printing/TeamCity/TeamCityPrinter.cs:45-48 | On text without the pipe character, reading the two-character escapes back gives the original text. |
| TeamCityPrinting.NameOnlyMessages | src/Cedar.Testing/Printing/TeamCity/TeamCityPrinter.cs:11-38 | Started, SuiteStarted and SuiteFinished write "###teamcity[<kind> name='<name>']". |
| TeamCityPrinting.StartedMessage | src/Cedar.Testing/Printing/TeamCity/TeamCityPrinter.cs:11-14 | A testStarted message whose only attribute is the name. |
| TeamCityPrinting.FailedMessage | src/Cedar.Testing/Printing/TeamCity/TeamCityPrinter.cs:16-21 | A testFailed message with the name, the escaped message of the reported exception and its escaped text. Neither escaped value holds a line break. |
| TeamCityPrinting.FinishedMessage | src/Cedar.Testing/Printing/TeamCity/TeamCityPrinter.cs:23-28 | A testFinished message with the name and the duration: the milliseconds' digits, or "-1" when there is none. |
| TeamCityPrinting.SuiteStartedMessage | src/Cedar.Testing/Printing/TeamCity/TeamCityPrinter.cs:30-33 | A testSuiteStarted message whose only attribute is the name. |
| TeamCityPrinting.SuiteFinishedMessage | src/Cedar.Testing/Printing/TeamCity/TeamCityPrinter.cs:35-38 | A testSuiteFinished message whose only attribute is the name. |
| TeamCityPrinting.ReportedException | src/Cedar.Testing/Printing/TeamCity/TeamCityPrinter.cs:18 | A null exception is replaced by a new System.Exception. |
| TeamCityPrinting.ReportedDuration | src/Cedar.Testing/Printing/TeamCity/TeamCityPrinter.cs:23-28 | Finished reports the duration in milliseconds, or -1 when there is none. |
| TeamCityPrinting.RenderAttributesIsSingleLine | src/Cedar.Testing/Printing/TeamCity/TeamCityPrinter.cs:9-38 | Attributes whose values hold no line break render on one line. |
| TeamCityPrinting.RenderIsSingleLine | src/Cedar.Testing/Printing/TeamCity/TeamCityPrinter.cs:9-38 | A message whose values hold no line break is one line. |
| TeamCityPrinting.FailedIsSingleLine | src/Cedar.Testing/Printing/TeamCity/TeamCityPrinter.cs:16-21 | A testFailed message is one line whatever the exception says, because message and details go through FormatNewLines. |
| TeamCityPrinting.FinishedIsSingleLine | src/Cedar.Testing/Printing/TeamCity/TeamCityPrinter.cs:23-28 | A testFinished message is one line whenever the name is. |
| TeamCityPrinting.ResultMessages | src/Cedar.Testing/Printing/TeamCity/TeamCityPrinter.cs:83-95 | testStarted, then testFailed only when not passed (with `Results as Exception`), then testFinished. |
| TeamCityPrinting.TeamCityPrinter.constructor | src/Cedar.Testing/Printing/TeamCity/TeamCityPrinter.cs:53-56 | Nothing written, not disposed. |
| TeamCityPrinting.TeamCityPrinter.Flush | src/Cedar.Testing/Printing/TeamCity/TeamCityPrinter.cs:58-61 | Flushes the writer once. |
| TeamCityPrinting.TeamCityPrinter.PrintCategoryHeader | src/Cedar.Testing/Printing/TeamCity/TeamCityPrinter.cs:68-81 | Writes testSuiteStarted with the category type's full name. |
| TeamCityPrinting.TeamCityPrinter.PrintCategoryFooter | src/Cedar.Testing/Printing/TeamCity/TeamCityPrinter.cs:63-76 | Writes testSuiteFinished with the category type's full name. |
| TeamCityPrinting.TeamCityPrinter.PrintResult | src/Cedar.Testing/Printing/TeamCity/TeamCityPrinter.cs:83-95 | Writes the result's messages in order, then flushes once. |
| TeamCityPrinting.TeamCityPrinter.Dispose | src/Cedar.Testing/Printing/TeamCity/TeamCityPrinter.cs:99-105 | Idempotent: the writer is disposed on the first call only. |
| TeamCityPrinting.PrintCategory | src/Cedar.Testing/Printing/TeamCity/TeamCityPrinter.cs:63-105 | A category with a passing and a failing result writes seven messages: suite start, 2 + 3 result messages, suite end. It flushes twice and disposes once. |

## Left out

- **Concurrency.** `Task.WhenAll`, the `ConcurrentDictionary` atomicity, the asynchronous Rx completion callback and cancellation tokens are not modelled. The dispatcher is sequential, and completion is the explicit method `OnProcessCompleted`.
- **Reflection.** `GetMethod`, `MakeGenericMethod` and `Delegate.CreateDelegate` are not modelled. Message types are tags and pipes are opaque identities.
- ProcessManagers.ProcessHandler.GetProcess: the process factory (`IProcessManagerFactory`) is not part of this model. It is assumed to return a new process whose Id is the id it is given and whose correlation id is the one probed. `Valid()`'s link between cache keys and process ids, `DefaultProbeNeverFindsOwnProcess` and the cache misses under default ids rest on that assumption.
- **Collaborator failures.** Failures of the process factory, `GetCheckpoint`, `SaveCheckpointToken` and `MarkProcessCompleted` are not modelled. Only a failing command dispatch is.
- **The process itself.** A process is reduced to its inbox, its pending commands and a `decide` function. The Rx plumbing of `Inbox`, `Commands` and `Events` is outside this model.
- **Checkpoint repository.** `SaveCheckpointToken` is not part of this model. It is taken to overwrite the stored checkpoint unconditionally, which is why `ProcessScenarios.StaleCachedCheckpoint` ends with the lower token saved.
- AggregateRepository.PrepareHeaders: `updateHeaders` is modelled as the entries it assigns, so it can only add or overwrite headers. An action that removes entries or clears the dictionary, AggregateType included, is not modelled.
- **GetById's store query.** `GetFrom` is the `commits` argument, so the `version` bound is the store's concern.
- **Save's commit attempt.** The attempt's commit sequence (`aggregate.Version`) and its `DateTime.UtcNow` timestamp are not modelled. The aggregate factory is assumed to build an aggregate with the requested id and type.
- **Aggregate rehydration.** An aggregate's own event handlers (`ApplyEvent`, `BeginRehydrate`) are modelled as recording the events. Rehydration cannot fail.
- **DefaultCreateAggregate.** It is not part of this model, and is taken to create a fresh aggregate with the given id.
- **Expression compilation.** `Expression.Compile` is not modelled. When and Then are functions.
  - The `_given`, `_when` and `_expect` descriptions that ScenarioResult carries are not modelled (`Scenario.Aggregate.cs:260` passes all three).
  - `MessageEqualityComparer` is modelled as equality of events.
- **ScenarioResult.** The `ThenShouldThrow` and `AssertExceptionMatches` of ScenarioResult are not part of this model. They are taken to pass iff an exception of the expected type occurred and the predicate accepts it.
  - The message of the exception they throw otherwise is a placeholder (`ExceptionMismatchMessage`).
  - The events-mismatch message concatenates the events' texts in place of `NicePrint`.
- **`default(T)` in `Scenario.For<T>`.** It is the `defaultValue` parameter: `None` for a reference type, `Some` of the zero value for a value type. The model does not derive it from `T`.
- **Timing and floating point.** `Stopwatch` readings are parameters, in whole milliseconds.
- TeamCityPrinting.ReportedDuration: the `(int)` cast of `TotalMilliseconds` and its overflow are not modelled. The duration is an unbounded natural number.
- **BootstrapPrinter output.**
  - The HTML text inside a result (the `NicePrint` sections) is a parameter, and so is the Inflector `Underscore().Titleize()` of a scenario name.
  - The embedded `bootstrap.css` resource is a parameter too, and `FileExtension` is omitted.
  - Writing, flushing and disposing the `TextWriter` are recorded as the written lines and counters.
- **TeamCityPrinter output.** The output is the sequence of reports written, and `Line` renders each one.
  - The TeamCity escaping of `'`, `|`, `[` and `]` is not modelled: the source does not escape them.
- ScenarioAggregate.MatchOrAny: ScenarioResult.ThenShouldThrow, which receives a null `isMatch` (`Scenario.Aggregate.cs:178`), is not part of this model. A null predicate is taken to accept every exception.
- ScenarioAny.ScenarioBuilder.ToScenarioResult: the six-argument ScenarioResult constructor (`Scenario.Any.cs:139`) is not part of this model. It is taken to record the occurred exception as the results, with no duration. The `_given`, `_when` and `_expect` it receives are dropped.
- Testing.IsOfType: there is no exception hierarchy beyond System.Exception. For instance `OtherException("System.ObjectDisposedException")` does not match InvalidOperationException, although that type derives from it in .NET.
- Testing.ExceptionText: `Exception.ToString()` without the stack trace and inner exceptions.
- AnyScenarioRuns.FailedEqualityEscapes: states only the kind of the escaping exception (ScenarioException), not its formatted message.
- **Markdown and plain-text printers.** They are not part of this model: their only logic is the Inflector library.
- **Other source files.** HandlerModuleExtensions, the GetEventStore fixture, the OWIN startup, the interlocked-boolean and enumerable helpers and the system clock are not part of this model. They are I/O, reflection, concurrency or trivial loops.

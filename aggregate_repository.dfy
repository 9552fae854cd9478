/**
 * NEventStoreAggregateRepository: loads an aggregate by folding the events of
 * its stream's commits, remembers the revision of the stream head it saw, and
 * saves an aggregate's uncommitted events as one commit attempt against that
 * remembered head.
 *
 * The event store is an external collaborator: what it returns for a stream
 * (GetFrom) is the `commits` argument of GetById, and how it answers a commit
 * attempt is the `outcome` argument of Save.
 */
module AggregateRepository {
  import opened Wrappers

  datatype Event = Event(body: string)

  datatype Commit = Commit(bucketId: string, streamId: string, streamRevision: int, commitId: string, events: seq<Event>)

  type Headers = map<string, string>

  const AggregateTypeHeader: string := "AggregateType"

  /** The commit attempt Save hands to the store. */
  datatype CommitAttempt = CommitAttempt(
    bucketId: string,
    streamId: string,
    streamRevision: int,
    commitId: string,
    headers: Headers,
    events: seq<Event>)

  /** How the store answers a commit attempt. */
  datatype CommitOutcome =
    | Committed
    | DuplicateCommit                    // DuplicateCommitException
    | ConcurrencyConflict(message: string)  // ConcurrencyException
    | StorageFailure(message: string)       // StorageException

  /** The exceptions Save throws. */
  datatype SaveError =
    | ConflictingCommand(message: string)  // ConflictingCommandException
    | Persistence(message: string)         // PersistenceException

  /** Every event of every commit, in commit order and then event order. */
  function Flatten(commits: seq<Commit>): seq<Event>
  {
    if commits == [] then [] else commits[0].events + Flatten(commits[1..])
  }

  lemma {:induction false} FlattenAppend(a: seq<Commit>, b: seq<Commit>)
    ensures Flatten(a + b) == Flatten(a) + Flatten(b)
  {
    if a == [] {
      assert a + b == b;
    } else {
      assert (a + b)[1..] == a[1..] + b;
      FlattenAppend(a[1..], b);
    }
  }

  /** The revision ApplyEventsToAggregate reports: the last commit's, or 1 for no commits. */
  function LastRevision(commits: seq<Commit>): (r: int)
    ensures commits == [] ==> r == 1
    ensures commits != [] ==> r == commits[|commits| - 1].streamRevision
  {
    if commits == [] then 1 else commits[|commits| - 1].streamRevision
  }

  /** The stream head Save commits against: the remembered one, or 1. */
  function StreamHead(streamHeads: map<(string, string), int>, bucketId: string, id: string): int
  {
    if (bucketId, id) in streamHeads then streamHeads[(bucketId, id)] else 1
  }

  /**
   * PrepareHeaders: "AggregateType" is set to the aggregate's full type name,
   * then `updateHeaders` (the entries it assigns) may add or overwrite entries.
   */
  function PrepareHeaders(aggregateTypeName: string, updateHeaders: Option<Headers>): (headers: Headers)
    ensures updateHeaders.None? ==> headers == map[AggregateTypeHeader := aggregateTypeName]
    ensures updateHeaders.Some? ==> headers.Keys == {AggregateTypeHeader} + updateHeaders.value.Keys
    ensures updateHeaders.Some? ==>
      forall k :: k in updateHeaders.value ==> headers[k] == updateHeaders.value[k]
    ensures (updateHeaders.None? || AggregateTypeHeader !in updateHeaders.value) ==>
      headers[AggregateTypeHeader] == aggregateTypeName
  {
    var headers := map[AggregateTypeHeader := aggregateTypeName];
    if updateHeaders.Some? then headers + updateHeaders.value else headers
  }

  /** Save's mapping of the store's answer to its own result or exception. */
  function SaveResult(outcome: CommitOutcome): (r: Result<(), SaveError>)
    ensures r.Success? <==> outcome == Committed || outcome == DuplicateCommit
    ensures outcome.ConcurrencyConflict? ==> r == Failure(ConflictingCommand(outcome.message))
    ensures outcome.StorageFailure? ==> r == Failure(Persistence(outcome.message))
  {
    match outcome
    case Committed => Success(())
    case DuplicateCommit => Success(())
    case ConcurrencyConflict(message) => Failure(ConflictingCommand(message))
    case StorageFailure(message) => Failure(Persistence(message))
  }

  /** An aggregate built by the aggregate factory. */
  class Aggregate {
    const id: string
    const typeFullName: string
    /** The events applied to the aggregate, in order. */
    var applied: seq<Event>
    var uncommitted: seq<Event>

    constructor (id: string, typeFullName: string)
      ensures this.id == id && this.typeFullName == typeFullName
      ensures applied == [] && uncommitted == []
    {
      this.id := id;
      this.typeFullName := typeFullName;
      applied := [];
      uncommitted := [];
    }

    method ApplyEvent(e: Event)
      modifies this`applied
      ensures applied == old(applied) + [e]
    {
      applied := applied + [e];
    }

    method ClearUncommittedEvents()
      modifies this`uncommitted
      ensures uncommitted == []
    {
      uncommitted := [];
    }
  }

  /**
   * ApplyEventsToAggregate: applies every event of every commit in order,
   * clears the uncommitted events and returns the last commit's revision.
   */
  method ApplyEventsToAggregate(commits: seq<Commit>, aggregate: Aggregate) returns (lastStreamRevision: int)
    modifies aggregate
    ensures aggregate.applied == old(aggregate.applied) + Flatten(commits)
    ensures aggregate.uncommitted == []
    ensures lastStreamRevision == LastRevision(commits)
  {
    lastStreamRevision := 1;
    var i := 0;
    while i < |commits|
      invariant 0 <= i <= |commits|
      invariant aggregate.applied == old(aggregate.applied) + Flatten(commits[..i])
      invariant lastStreamRevision == LastRevision(commits[..i])
    {
      var commit := commits[i];
      lastStreamRevision := commit.streamRevision;
      var j := 0;
      while j < |commit.events|
        invariant 0 <= j <= |commit.events|
        invariant aggregate.applied == old(aggregate.applied) + Flatten(commits[..i]) + commit.events[..j]
      {
        aggregate.ApplyEvent(commit.events[j]);
        assert commit.events[..j + 1] == commit.events[..j] + [commit.events[j]];
        j := j + 1;
      }
      assert commits[..i + 1] == commits[..i] + [commit];
      FlattenAppend(commits[..i], [commit]);
      assert Flatten([commit]) == commit.events + Flatten([]);
      assert commit.events[..j] == commit.events;
      i := i + 1;
    }
    assert commits[..i] == commits;
    aggregate.ClearUncommittedEvents();
  }

  class NEventStoreAggregateRepository {
    /** _streamHeads: the last stream revision seen per (bucket, stream). */
    var streamHeads: map<(string, string), int>

    constructor ()
      ensures streamHeads == map[]
    {
      streamHeads := map[];
    }

    /**
     * GetById: `commits` is what the store returns for the stream up to
     * `version`. No commits: null, and the stream heads stay as they are.
     * Otherwise a fresh aggregate with every event applied, and the stream
     * head of (bucketId, id) set to the last commit's revision.
     */
    method GetById(bucketId: string, id: string, version: int, aggregateTypeName: string, commits: seq<Commit>)
      returns (aggregate: Option<Aggregate>)
      modifies this
      ensures commits == [] ==> aggregate.None? && streamHeads == old(streamHeads)
      ensures commits != [] ==>
        && aggregate.Some? && fresh(aggregate.value)
        && aggregate.value.id == id && aggregate.value.typeFullName == aggregateTypeName
        && aggregate.value.applied == Flatten(commits) && aggregate.value.uncommitted == []
        && streamHeads == old(streamHeads)[(bucketId, id) := commits[|commits| - 1].streamRevision]
    {
      if commits == [] {
        return None;
      }
      var built := new Aggregate(id, aggregateTypeName);
      var streamHead := ApplyEventsToAggregate(commits, built);
      streamHeads := streamHeads[(bucketId, id) := streamHead];
      aggregate := Some(built);
    }

    /**
     * Save: one commit attempt of the uncommitted events against the
     * remembered stream head (1 when none). Committed clears the uncommitted
     * events; a duplicate commit returns normally and keeps them; a concurrency
     * or storage failure becomes Save's own exception. The stream heads are
     * never touched.
     */
    method Save(aggregate: Aggregate, bucketId: string, commitId: string, updateHeaders: Option<Headers>,
                outcome: CommitOutcome)
      returns (attempt: CommitAttempt, result: Result<(), SaveError>)
      modifies aggregate`uncommitted
      ensures attempt.bucketId == bucketId && attempt.streamId == aggregate.id && attempt.commitId == commitId
      ensures attempt.streamRevision == StreamHead(streamHeads, bucketId, aggregate.id)
      ensures attempt.headers == PrepareHeaders(aggregate.typeFullName, updateHeaders)
      ensures attempt.events == old(aggregate.uncommitted)
      ensures result == SaveResult(outcome)
      ensures aggregate.uncommitted == if outcome == Committed then [] else old(aggregate.uncommitted)
    {
      var headers := PrepareHeaders(aggregate.typeFullName, updateHeaders);
      var streamHead := StreamHead(streamHeads, bucketId, aggregate.id);
      attempt := CommitAttempt(bucketId, aggregate.id, streamHead, commitId, headers, aggregate.uncommitted);
      match outcome {
        case Committed =>
          aggregate.ClearUncommittedEvents();
          result := Success(());
        case DuplicateCommit =>
          result := Success(());
        case ConcurrencyConflict(message) =>
          result := Failure(ConflictingCommand(message));
        case StorageFailure(message) =>
          result := Failure(Persistence(message));
      }
    }
  }

  /**
   * Loading then saving an aggregate: the commit attempt is made against the
   * revision of the last commit loaded, and carries the events raised since.
   */
  method LoadThenSave(bucketId: string, id: string, aggregateTypeName: string, commits: seq<Commit>,
                      raised: seq<Event>, commitId: string, outcome: CommitOutcome)
    returns (attempt: Option<CommitAttempt>, result: Option<Result<(), SaveError>>)
    ensures attempt.Some? <==> commits != []
    ensures attempt.Some? ==>
      && attempt.value.streamRevision == commits[|commits| - 1].streamRevision
      && attempt.value.events == raised
      && result == Some(SaveResult(outcome))
  {
    var repository := new NEventStoreAggregateRepository();
    var aggregate := repository.GetById(bucketId, id, 0x7FFF_FFFF, aggregateTypeName, commits);
    if aggregate.None? {
      return None, None;
    }
    // the aggregate handles a command and raises `raised`; its own logic is outside this model
    aggregate.value.uncommitted := raised;
    var a, r := repository.Save(aggregate.value, bucketId, commitId, None, outcome);
    attempt, result := Some(a), Some(r);
  }
}

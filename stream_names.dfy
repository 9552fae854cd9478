/**
 * Stream-name helpers of the GetEventStore adapter (StringExtensions):
 * a stream id is stored under the name "[bucket].streamId", and the bucket
 * prefix is stripped again by splitting at the first '.'.
 * A C# `null` string is `None`.
 */
module StreamNames {
  import opened Wrappers
  import opened Strings

  /** The exceptions the two helpers throw. */
  datatype ArgumentError =
    | NullOrWhiteSpace(paramName: string)       // Ensure.That(..).IsNotNullOrWhiteSpace()
    | NotPrefixedWithBucket(streamId: string)   // ArgumentException of FormatStreamNameWithoutBucket

  const DefaultBucket: string := "default"

  /** char.IsWhiteSpace: the Unicode separators plus U+0009..U+000D and U+0085. */
  predicate IsWhiteSpace(c: char)
  {
    || ('\U{0009}' <= c <= '\U{000D}') || c == '\U{0020}' || c == '\U{0085}' || c == '\U{00A0}'
    || c == '\U{1680}' || ('\U{2000}' <= c <= '\U{200A}') || c == '\U{2028}' || c == '\U{2029}'
    || c == '\U{202F}' || c == '\U{205F}' || c == '\U{3000}'
  }

  /** string.IsNullOrWhiteSpace */
  predicate IsNullOrWhiteSpace(s: Option<string>)
  {
    s.None? || forall i :: 0 <= i < |s.value| ==> IsWhiteSpace(s.value[i])
  }

  /** The bucket actually used: a null or blank bucket becomes "default". */
  function EffectiveBucket(bucketId: Option<string>): (b: string)
    ensures IsNullOrWhiteSpace(bucketId) ==> b == DefaultBucket
    ensures !IsNullOrWhiteSpace(bucketId) ==> bucketId == Some(b)
    ensures !IsNullOrWhiteSpace(Some(b))
  {
    if IsNullOrWhiteSpace(bucketId) then
      assert !IsWhiteSpace(DefaultBucket[0]);
      DefaultBucket
    else bucketId.value
  }

  /** FormatStreamIdWithBucket: string.Format("[{0}].{1}", bucketId, streamId). */
  function FormatStreamIdWithBucket(streamId: Option<string>, bucketId: Option<string>): (r: Result<string, ArgumentError>)
    ensures r.Failure? <==> IsNullOrWhiteSpace(streamId)
    ensures r.Failure? ==> r.error == NullOrWhiteSpace("streamId")
    ensures r.Success? ==>
      var b := EffectiveBucket(bucketId);
      && |r.value| == |b| + 3 + |streamId.value|
      && r.value[0] == '[' && r.value[..|b| + 1] == "[" + b
      && r.value[|b| + 1..|b| + 3] == "]."
      && r.value[|b| + 3..] == streamId.value
  {
    if IsNullOrWhiteSpace(streamId) then Failure(NullOrWhiteSpace("streamId"))
    else Success("[" + EffectiveBucket(bucketId) + "]." + streamId.value)
  }

  /**
   * FormatStreamNameWithoutBucket: streamId.Split(new[] {'.'}, 2), failing when
   * there is no second part, and otherwise returning the second part.
   */
  function FormatStreamNameWithoutBucket(streamId: Option<string>): (r: Result<string, ArgumentError>)
    ensures IsNullOrWhiteSpace(streamId) ==> r == Failure(NullOrWhiteSpace("streamId"))
    ensures !IsNullOrWhiteSpace(streamId) && '.' !in streamId.value ==>
      r == Failure(NotPrefixedWithBucket(streamId.value))
    ensures r.Success? <==> !IsNullOrWhiteSpace(streamId) && '.' in streamId.value
    ensures r.Success? ==>
      exists prefix :: '.' !in prefix && streamId.value == prefix + "." + r.value
  {
    if IsNullOrWhiteSpace(streamId) then Failure(NullOrWhiteSpace("streamId"))
    else
      var s := streamId.value;
      match IndexOf(s, '.')
      case None => Failure(NotPrefixedWithBucket(s))
      case Some(i) =>
        assert s == s[..i] + "." + s[i + 1..];
        Success(s[i + 1..])
  }

  /** Only the first '.' splits: every later dot stays in the stream name. */
  lemma LaterDotsPreserved(prefix: string, rest: string)
    requires '.' !in prefix
    ensures FormatStreamNameWithoutBucket(Some(prefix + "." + rest)) == Success(rest)
  {
    var s := prefix + "." + rest;
    assert s[|prefix|] == '.' && !IsWhiteSpace(s[|prefix|]);
    IndexOfAfterPrefix(prefix, '.', rest);
  }

  /**
   * Round trip: stripping the bucket from a formatted stream id gives back the
   * stream id, provided the effective bucket holds no '.'.
   */
  lemma {:induction false} StripFormattedBucket(streamId: Option<string>, bucketId: Option<string>)
    requires !IsNullOrWhiteSpace(streamId)
    requires '.' !in EffectiveBucket(bucketId)
    ensures FormatStreamIdWithBucket(streamId, bucketId).Success?
    ensures FormatStreamNameWithoutBucket(Some(FormatStreamIdWithBucket(streamId, bucketId).value))
            == Success(streamId.value)
  {
    var b := EffectiveBucket(bucketId);
    var formatted := "[" + b + "]." + streamId.value;
    assert formatted == ("[" + b + "]") + "." + streamId.value;
    LaterDotsPreserved("[" + b + "]", streamId.value);
  }

  /** A bucket holding a '.' breaks the round trip: the bucket's tail leaks into the name. */
  lemma DottedBucketBreaksRoundTrip()
    ensures FormatStreamIdWithBucket(Some("s"), Some("a.b")) == Success("[a.b].s")
    ensures FormatStreamNameWithoutBucket(Some("[a.b].s")) == Success("b].s")
  {
    assert !IsWhiteSpace("s"[0]) && !IsWhiteSpace("a.b"[0]);
    assert "[a.b].s" == "[a" + "." + "b].s";
    assert EffectiveBucket(Some("a.b")) == "a.b";
    assert "[" + "a.b" + "]." + "s" == "[a.b].s";
    LaterDotsPreserved("[a", "b].s");
  }
}

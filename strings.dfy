/** String helpers shared by the string-formatting code: searching and replacing characters. */
module Strings {
  import opened Wrappers

  /** The index of the first occurrence of `c` in `s`, if any (string.IndexOf). */
  function IndexOf(s: string, c: char): (r: Option<nat>)
    ensures r.None? <==> c !in s
    ensures r.Some? ==> r.value < |s| && s[r.value] == c && c !in s[..r.value]
  {
    if |s| == 0 then None
    else if s[0] == c then Some(0)
    else match IndexOf(s[1..], c)
      case None => None
      case Some(i) =>
        assert s[..i + 1] == [s[0]] + s[1..][..i];
        Some(i + 1)
  }

  /** The first `c` of `prefix + [c] + rest` is the one right after a prefix free of `c`. */
  lemma {:induction false} IndexOfAfterPrefix(prefix: string, c: char, rest: string)
    requires c !in prefix
    ensures IndexOf(prefix + [c] + rest, c) == Some(|prefix|)
  {
    if |prefix| > 0 {
      assert (prefix + [c] + rest)[1..] == prefix[1..] + [c] + rest;
      IndexOfAfterPrefix(prefix[1..], c, rest);
    }
  }

  /** string.Replace of every `c` in `s` by `replacement`. */
  function Replace(s: string, c: char, replacement: string): (r: string)
    ensures c !in replacement ==> c !in r
    ensures c !in s ==> r == s
  {
    if s == [] then []
    else (if s[0] == c then replacement else [s[0]]) + Replace(s[1..], c, replacement)
  }

  /** Replacing introduces no character that is neither in `s` nor in `replacement`. */
  lemma {:induction false} ReplaceKeepsAbsent(s: string, c: char, replacement: string, d: char)
    requires d !in s && d !in replacement
    ensures d !in Replace(s, c, replacement)
  {
    if s != [] {
      ReplaceKeepsAbsent(s[1..], c, replacement, d);
    }
  }

  /** Replacing distributes over concatenation: each character is replaced on its own. */
  lemma {:induction false} ReplaceAppend(a: string, b: string, c: char, replacement: string)
    ensures Replace(a + b, c, replacement) == Replace(a, c, replacement) + Replace(b, c, replacement)
  {
    if a == [] {
      assert a + b == b;
    } else {
      assert (a + b)[1..] == a[1..] + b;
      ReplaceAppend(a[1..], b, c, replacement);
    }
  }

  /** The decimal digits of a natural number. */
  function NatToString(n: nat): (r: string)
    ensures |r| > 0 && forall i :: 0 <= i < |r| ==> '0' <= r[i] <= '9'
    decreases n
  {
    var digit := [(n % 10) as char + '0'];
    if n < 10 then digit else NatToString(n / 10) + digit
  }

  /** The value of a string of decimal digits. */
  function DigitsValue(s: string): nat
    requires forall i :: 0 <= i < |s| ==> '0' <= s[i] <= '9'
  {
    if s == [] then 0 else DigitsValue(s[..|s| - 1]) * 10 + (s[|s| - 1] - '0') as nat
  }

  lemma {:induction false} NatToStringValue(n: nat)
    ensures DigitsValue(NatToString(n)) == n
    decreases n
  {
    var r := NatToString(n);
    if n >= 10 {
      NatToStringValue(n / 10);
      assert r[..|r| - 1] == NatToString(n / 10);
    }
  }

  /** int.ToString(): an optional '-' followed by the digits. */
  function IntToString(i: int): (r: string)
    ensures i >= 0 ==> r == NatToString(i)
    ensures i < 0 ==> r == "-" + NatToString(-i)
  {
    if i < 0 then "-" + NatToString(-i) else NatToString(i)
  }

  /**
   * int.ToString() reads back: it starts with '-' iff the number is negative,
   * and the digits after any sign are the decimal digits of its magnitude.
   */
  lemma IntToStringReadBack(i: int)
    ensures var r := IntToString(i);
      var digits := if i < 0 then r[1..] else r;
      && |r| > 0
      && (r[0] == '-' <==> i < 0)
      && (forall k :: 0 <= k < |digits| ==> '0' <= digits[k] <= '9')
      && DigitsValue(digits) == if i < 0 then -i else i
  {
    var r := IntToString(i);
    if i < 0 {
      NatToStringValue(-i);
      assert r[1..] == NatToString(-i);
    } else {
      NatToStringValue(i);
    }
  }
}

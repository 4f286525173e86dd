/** The string operations the skill relies on: Python's `str.lower()`
    (restricted to ASCII letters), the substring test `a in b`, and
    `str(n)` for natural numbers. */
module Text {
  import opened Outcomes

  /** Lower-cases one ASCII capital letter; every other character is kept. */
  function LowerChar(c: char): (r: char)
    ensures 'A' <= c <= 'Z' ==> r as int == c as int + 32
    ensures !('A' <= c <= 'Z') ==> r == c
    ensures !('A' <= r <= 'Z')
  {
    if 'A' <= c <= 'Z' then (c as int + 32) as char else c
  }

  /** `s.lower()`, character by character. */
  function Lower(s: string): (r: string)
    ensures |r| == |s|
    ensures forall i :: 0 <= i < |s| ==> r[i] == LowerChar(s[i])
  {
    if s == [] then [] else [LowerChar(s[0])] + Lower(s[1..])
  }

  /** Lower-casing twice is lower-casing once. */
  lemma LowerIdempotent(s: string)
    ensures Lower(Lower(s)) == Lower(s)
  {
  }

  /** Concatenation regroups freely; a lemma so that long string terms need not
      be regrouped in a crowded proof context. */
  lemma ConcatAssoc(a: string, b: string, c: string)
    ensures a + b + c == a + (b + c)
  {
  }

  predicate IsPrefix(p: string, s: string) {
    |p| <= |s| && s[..|p|] == p
  }

  lemma PrefixOfAppend(a: string, b: string)
    ensures IsPrefix(a, a + b)
  {
    assert (a + b)[..|a|] == a;
  }

  /** `needle` starts at position `i` of `hay`. */
  predicate OccursAt(needle: string, hay: string, i: int) {
    0 <= i && i + |needle| <= |hay| && hay[i..i + |needle|] == needle
  }

  /** A needle placed right after a prefix occurs at the prefix's length. */
  lemma OccursAfter(prefix: string, needle: string, rest: string)
    ensures OccursAt(needle, prefix + needle + rest, |prefix|)
  {
    var s := prefix + needle + rest;
    assert s[|prefix|..|prefix| + |needle|] == needle;
  }

  /** Python's `needle in hay` on strings: tried at every start position in turn.
      A needle longer than the haystack is never found; a prefix always is. */
  function Contains(needle: string, hay: string): (r: bool)
    ensures IsPrefix(needle, hay) ==> r
    ensures r ==> |needle| <= |hay|
    decreases |hay|
  {
    IsPrefix(needle, hay) || (|hay| > 0 && Contains(needle, hay[1..]))
  }

  /** The search finds `needle` exactly when it occurs somewhere in `hay`. */
  lemma {:induction false} ContainsIff(needle: string, hay: string)
    ensures Contains(needle, hay) <==> exists i :: OccursAt(needle, hay, i)
    decreases |hay|
  {
    if IsPrefix(needle, hay) {
      assert OccursAt(needle, hay, 0);
    } else if |hay| > 0 {
      ContainsIff(needle, hay[1..]);
      if Contains(needle, hay[1..]) {
        var j :| OccursAt(needle, hay[1..], j);
        assert hay[1..][j..j + |needle|] == hay[j + 1..j + 1 + |needle|];
        assert OccursAt(needle, hay, j + 1);
      } else if i :| OccursAt(needle, hay, i) {
        assert i != 0;
        assert hay[1..][i - 1..i - 1 + |needle|] == hay[i..i + |needle|];
        assert OccursAt(needle, hay[1..], i - 1);
        assert false;
      }
    } else {
      assert |needle| > 0;
    }
  }

  /** A needle holding a character that the haystack lacks does not occur in it. */
  lemma {:induction false} MissingCharNotContained(needle: string, hay: string, k: nat)
    requires k < |needle| && needle[k] !in hay
    ensures !Contains(needle, hay)
  {
    forall i | 0 <= i && i + |needle| <= |hay|
      ensures !OccursAt(needle, hay, i)
    {
      assert hay[i..i + |needle|][k] == hay[i + k];
    }
    ContainsIff(needle, hay);
  }

  /** The empty string occurs in every string (`'' in s` is true in Python). */
  lemma EmptyOccursEverywhere(hay: string)
    ensures Contains("", hay)
  {
    assert IsPrefix("", hay);
  }

  function DigitChar(d: nat): (c: char)
    requires d < 10
    ensures '0' <= c <= '9' && c as int - '0' as int == d
  {
    ('0' as int + d) as char
  }

  /** `str(n)` for a natural number: its decimal digits, most significant first. */
  function NatToString(n: nat): (r: string)
    ensures |r| >= 1
    ensures forall i :: 0 <= i < |r| ==> '0' <= r[i] <= '9'
    ensures r[0] == '0' ==> n == 0
    ensures |r| > 1 ==> r[0] != '0'
    decreases n
  {
    if n < 10 then [DigitChar(n)] else NatToString(n / 10) + [DigitChar(n % 10)]
  }

  /** Reads a string of decimal digits back as a number. */
  function ParseDigits(s: string): (r: nat)
    ensures |s| == 1 && '0' <= s[0] <= '9' ==> r == s[0] as int - '0' as int
    decreases |s|
  {
    if s == [] then 0
    else
      var c := s[|s| - 1];
      var d := if '0' <= c <= '9' then c as int - '0' as int else 0;
      ParseDigits(s[..|s| - 1]) * 10 + d
  }

  /** `str(n)` loses nothing: its digits read back as `n`. */
  lemma {:induction false} NatToStringRoundTrip(n: nat)
    ensures ParseDigits(NatToString(n)) == n
    decreases n
  {
    if n >= 10 {
      NatToStringRoundTrip(n / 10);
      var s := NatToString(n);
      assert s[..|s| - 1] == NatToString(n / 10);
    }
  }

  /** The text between `open` and `close`, or `None` when `s` is not so wrapped. */
  function Unwrap(open: string, close: string, s: string): (r: Option<string>)
    ensures r.Some? ==> open + r.value + close == s
  {
    if |s| >= |open| + |close| && s[..|open|] == open && s[|s| - |close|..] == close
    then
      var inner := s[|open|..|s| - |close|];
      assert s == s[..|open|] + inner + s[|s| - |close|..];
      Some(inner)
    else None
  }

  /** Wrapping and unwrapping are inverse. */
  lemma WrapUnwrap(open: string, inner: string, close: string)
    ensures Unwrap(open, close, open + inner + close) == Some(inner)
  {
    var s := open + inner + close;
    assert s[..|open|] == open;
    assert s[|s| - |close|..] == close;
    assert s[|open|..|s| - |close|] == inner;
  }
}

/** Small string facts that the generator relies on: Python's `str.join`,
    `str.rsplit(c, 1)[0]`, `'%s' % n` for integers, and the us-ascii test. */
module Strings {

  datatype Option<+T> = None | Some(value: T)

  datatype Result<+R, +E> = Success(value: R) | Failure(error: E)

  /** True when every character is in the 7-bit us-ascii range. */
  predicate IsAscii(s: string)
  {
    forall i :: 0 <= i < |s| ==> s[i] as int < 128
  }

  /** `sub` occurs in `s` starting at position `k`. */
  predicate OccursAt(sub: string, s: string, k: int)
  {
    0 <= k <= |s| - |sub| && s[k..k + |sub|] == sub
  }

  /** `sub` occurs in `s` at some position. */
  ghost predicate Occurs(sub: string, s: string)
  {
    exists k :: OccursAt(sub, s, k)
  }

  /** Regrouping four sequences laid end to end. */
  lemma Regroup<T>(a: seq<T>, b: seq<T>, c: seq<T>, d: seq<T>)
    ensures a + b + c + d == a + (b + c + d)
  {
  }

  /** Python's `sep.join(parts)`. */
  function Join(parts: seq<string>, sep: string): string
  {
    if |parts| == 0 then ""
    else if |parts| == 1 then parts[0]
    else parts[0] + sep + Join(parts[1..], sep)
  }

  lemma OccursInPrefixOf(sub: string, s: string, t: string)
    requires Occurs(sub, s)
    ensures Occurs(sub, s + t)
  {
    var k :| OccursAt(sub, s, k);
    assert (s + t)[k..k + |sub|] == s[k..k + |sub|];
    assert OccursAt(sub, s + t, k);
  }

  lemma OccursInSuffixOf(sub: string, s: string, t: string)
    requires Occurs(sub, t)
    ensures Occurs(sub, s + t)
  {
    var k :| OccursAt(sub, t, k);
    assert (s + t)[|s| + k..|s| + k + |sub|] == t[k..k + |sub|];
    assert OccursAt(sub, s + t, |s| + k);
  }

  /** Every joined part can be found in the joined string. */
  lemma {:induction false} JoinContainsParts(parts: seq<string>, sep: string, i: nat)
    requires i < |parts|
    ensures Occurs(parts[i], Join(parts, sep))
  {
    if i == 0 {
      assert OccursAt(parts[0], Join(parts, sep), 0);
    } else {
      JoinContainsParts(parts[1..], sep, i - 1);
      OccursInSuffixOf(parts[i], parts[0] + sep, Join(parts[1..], sep));
    }
  }

  /** Every part occurs in the joined string. */
  lemma JoinContainsEvery(parts: seq<string>, sep: string)
    ensures forall i :: 0 <= i < |parts| ==> Occurs(parts[i], Join(parts, sep))
  {
    forall i | 0 <= i < |parts|
      ensures Occurs(parts[i], Join(parts, sep))
    {
      JoinContainsParts(parts, sep, i);
    }
  }

  /** The text before the last `c` of `s`, which must contain `c`. */
  function BeforeLastOccurrence(s: string, c: char): (r: string)
    requires c in s
    ensures |r| < |s| && r == s[..|r|] && s[|r|] == c
    ensures c !in s[|r| + 1..]
  {
    if s[|s| - 1] == c then s[..|s| - 1]
    else
      assert c in s[..|s| - 1] by {
        var k :| 0 <= k < |s| && s[k] == c;
        assert s[..|s| - 1][k] == c;
      }
      var r := BeforeLastOccurrence(s[..|s| - 1], c);
      assert s[|r| + 1..] == s[..|s| - 1][|r| + 1..] + [s[|s| - 1]];
      r
  }

  /** Python's `s.rsplit(c, 1)[0]`: everything before the last `c`, or the
      whole string when `c` does not occur. */
  function RSplitHead(s: string, c: char): (r: string)
    ensures c !in s ==> r == s
    ensures c in s ==> |r| < |s| && r == s[..|r|] && s[|r|] == c && c !in s[|r| + 1..]
  {
    if c in s then BeforeLastOccurrence(s, c) else s
  }

  /** A string ending in `c` followed by a suffix free of `c` splits there. */
  lemma RSplitHeadAt(head: string, c: char, tail: string)
    requires c !in tail
    ensures RSplitHead(head + [c] + tail, c) == head
  {
    var s := head + [c] + tail;
    assert s[|head|] == c;
    var r := RSplitHead(s, c);
    assert r == s[..|head|] == head;
  }

  function DigitChar(d: nat): char
    requires d < 10
  {
    "0123456789"[d]
  }

  /** Decimal digits of a natural number, most significant first. */
  function NatToDecimal(n: nat): (r: string)
    ensures |r| >= 1
    decreases n
  {
    if n < 10 then [DigitChar(n)] else NatToDecimal(n / 10) + [DigitChar(n % 10)]
  }

  /** Python's `'%s' % n` for an integer `n`. */
  function IntToDecimal(n: int): (r: string)
  {
    if n < 0 then "-" + NatToDecimal(-n) else NatToDecimal(n)
  }
}

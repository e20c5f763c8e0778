/** The score accumulator: a process-wide C# `int` counter and the UI text
    that shows it. */
module Scoring {

  const MinInt32: int := -0x8000_0000
  const MaxInt32: int := 0x7fff_ffff

  /** C#'s 32-bit `int`. */
  newtype Int32 = x: int | MinInt32 <= x <= MaxInt32

  /** Unchecked 32-bit addition wraps modulo 2^32 into the signed range. */
  function Wrap32(v: int): (r: Int32)
    ensures MinInt32 <= v <= MaxInt32 ==> r as int == v
    ensures (v - r as int) % 0x1_0000_0000 == 0
  {
    ((v - MinInt32) % 0x1_0000_0000 + MinInt32) as Int32
  }

  // ---------------------------------------------------------------------
  // Decimal text, as produced by `int.ToString()`
  // ---------------------------------------------------------------------

  predicate IsDigit(c: char) { '0' <= c <= '9' }

  function DigitChar(d: nat): (c: char)
    requires d < 10
    ensures IsDigit(c) && c as int - '0' as int == d
  {
    ('0' as int + d) as char
  }

  /** Decimal digits of a natural number, most significant first, with no
      leading zeros. */
  function NatDigits(n: nat): (s: string)
    ensures |s| > 0
    ensures forall i :: 0 <= i < |s| ==> IsDigit(s[i])
    ensures |s| > 1 ==> s[0] != '0'
  {
    if n < 10 then [DigitChar(n)] else NatDigits(n / 10) + [DigitChar(n % 10)]
  }

  /** `score.ToString()`: a leading '-' for a negative value, then the
      digits of its magnitude. */
  function Decimal(n: int): (s: string)
    ensures |s| > 0
    ensures n < 0 <==> s[0] == '-'
  {
    if n < 0 then "-" + NatDigits(-n) else NatDigits(n)
  }

  function DigitValue(c: char): (d: nat)
    requires IsDigit(c)
    ensures d < 10 && DigitChar(d) == c
  {
    c as int - '0' as int
  }

  /** Reads back a string of decimal digits. */
  function DigitsValue(s: string): nat
    requires forall i :: 0 <= i < |s| ==> IsDigit(s[i])
  {
    if s == [] then 0
    else DigitsValue(s[..|s| - 1]) * 10 + DigitValue(s[|s| - 1])
  }

  /** Reads back text in the format `Decimal` writes. */
  function ParseDecimal(s: string): int
    requires |s| > 0
    requires s[0] == '-' ==> forall i :: 1 <= i < |s| ==> IsDigit(s[i])
    requires s[0] != '-' ==> forall i :: 0 <= i < |s| ==> IsDigit(s[i])
  {
    if s[0] == '-' then -(DigitsValue(s[1..]) as int) else DigitsValue(s)
  }

  lemma {:induction false} NatDigitsRoundTrip(n: nat)
    ensures DigitsValue(NatDigits(n)) == n
  {
    var s := NatDigits(n);
    if n >= 10 {
      NatDigitsRoundTrip(n / 10);
      assert s[..|s| - 1] == NatDigits(n / 10);
    }
  }

  /** The displayed text determines the score: reading it back gives the
      number that was rendered. */
  lemma DecimalRoundTrip(n: int)
    ensures ParseDecimal(Decimal(n)) == n
  {
    if n < 0 {
      assert Decimal(n)[1..] == NatDigits(-n);
      NatDigitsRoundTrip(-n);
    } else {
      NatDigitsRoundTrip(n);
    }
  }

  /** Two different scores are never displayed with the same text. */
  lemma DecimalInjective(m: int, n: int)
    requires Decimal(m) == Decimal(n)
    ensures m == n
  {
    DecimalRoundTrip(m);
    DecimalRoundTrip(n);
  }

  // ---------------------------------------------------------------------
  // A run of `Score` calls
  // ---------------------------------------------------------------------

  /** The score after adding each of `points` in turn, with 32-bit wrap. */
  function ScoreAfter(start: Int32, points: seq<Int32>): Int32
    decreases points
  {
    if points == [] then start
    else ScoreAfter(Wrap32(start as int + points[0] as int), points[1..])
  }

  function Sum(points: seq<Int32>): int
  {
    if points == [] then 0 else points[0] as int + Sum(points[1..])
  }

  /** With non-negative point values and no overflow, the score is the
      starting score plus the total, and every intermediate score lies
      between the two: the counter never decreases. */
  lemma {:induction false} ScoreAfterIsSum(start: Int32, points: seq<Int32>)
    requires forall i :: 0 <= i < |points| ==> points[i] >= 0
    requires start as int + Sum(points) <= MaxInt32
    ensures ScoreAfter(start, points) as int == start as int + Sum(points)
    ensures Sum(points) >= 0
    ensures forall k :: 0 <= k <= |points| ==>
      start <= ScoreAfter(start, points[..k]) <= ScoreAfter(start, points)
    decreases points
  {
    if points != [] {
      var next := Wrap32(start as int + points[0] as int);
      ScoreAfterIsSum(next, points[1..]);
      forall k | 0 <= k <= |points|
        ensures start <= ScoreAfter(start, points[..k]) <= ScoreAfter(start, points)
      {
        if k > 0 {
          assert points[..k][1..] == points[1..][..k - 1];
        }
      }
    }
  }

  // ---------------------------------------------------------------------
  // The score keeper component
  // ---------------------------------------------------------------------

  class ScoreKeeper {
    /** The static `score` field, owned here by one explicit object. */
    var score: Int32
    /** The UI text the component rewrites. */
    var text: string

    /** The static field starts at 0; the text holds whatever the scene
        gave it. */
    constructor (initialText: string)
      ensures score == 0 && text == initialText
    {
      score := 0;
      text := initialText;
    }

    /** `Start`: resets the score, then displays it. */
    method Start()
      modifies this
      ensures score == 0 && text == "0"
    {
      Reset();
      text := Decimal(score as int);
    }

    /** `Score(points)`: adds the points (wrapping like C# unchecked
        arithmetic) and displays the new score. */
    method Score(points: Int32)
      modifies this
      ensures score == Wrap32(old(score) as int + points as int)
      ensures old(score) as int + points as int <= MaxInt32 && points >= 0 ==>
        score as int == old(score) as int + points as int && old(score) <= score
      ensures text == Decimal(score as int)
    {
      score := Wrap32(score as int + points as int);
      text := Decimal(score as int);
    }

    /** `Reset`: zeroes the score and leaves the text alone. */
    method Reset()
      modifies this
      ensures score == 0 && text == old(text)
    {
      score := 0;
    }
  }

  /** After a reset, destroying enemies worth 100, 150 and 200 gives 450. */
  method ScoreSequence() returns (total: Int32, shown: string)
    ensures total == 450 && shown == "450"
  {
    var keeper := new ScoreKeeper("Score");
    keeper.Reset();
    keeper.Score(100);
    keeper.Score(150);
    keeper.Score(200);
    total, shown := keeper.score, keeper.text;
  }
}

/** Label text of the game's HUD: the "Lives: n" and "Score: n" strings that
    GameManager writes into its two text components. C# string interpolation
    of an `int` is its decimal form: an optional '-' and the digits without
    leading zeros. ParseNat and ParseInt read that form back and are the
    partners of the formatters. */
module Labels {

  const LivesPrefix := "Lives: "
  const ScorePrefix := "Score: "

  predicate IsDigit(c: char) {
    '0' <= c <= '9'
  }

  predicate AllDigits(s: string) {
    forall i :: 0 <= i < |s| ==> IsDigit(s[i])
  }

  function DigitChar(d: nat): (c: char)
    requires d < 10
    ensures IsDigit(c) && c as int - '0' as int == d
  {
    ('0' as int + d) as char
  }

  function DigitValue(c: char): (d: nat)
    requires IsDigit(c)
  {
    c as int - '0' as int
  }

  /** The decimal form of n: at least one digit, and a leading '0' only for n == 0. */
  function NatToString(n: nat): (r: string)
    ensures |r| >= 1 && AllDigits(r)
    ensures (r[0] == '0') == (n == 0)
    decreases n
  {
    if n < 10 then [DigitChar(n)] else NatToString(n / 10) + [DigitChar(n % 10)]
  }

  /** The decimal form of any int, with '-' in front of a negative number. */
  function IntToString(n: int): (r: string)
    ensures |r| >= 1
    ensures (r[0] == '-') == (n < 0)
    ensures AllDigits(r[1..]) && (n >= 0 ==> AllDigits(r))
  {
    if n < 0 then "-" + NatToString(-n) else NatToString(n)
  }

  /** Value of a string of decimal digits (the empty string reads as 0). */
  function ParseNat(s: string): nat
    requires AllDigits(s)
  {
    if s == [] then 0 else ParseNat(s[..|s| - 1]) * 10 + DigitValue(s[|s| - 1])
  }

  /** Value of a decimal form with an optional leading '-'. */
  function ParseInt(s: string): int
    requires |s| >= 1 && AllDigits(s[1..]) && (s[0] == '-' || IsDigit(s[0]))
  {
    if s[0] == '-' then -(ParseNat(s[1..]) as int) else ParseNat(s)
  }

  lemma {:induction false} ParseNatToString(n: nat)
    ensures ParseNat(NatToString(n)) == n
    decreases n
  {
    if n >= 10 {
      var s := NatToString(n);
      assert s[..|s| - 1] == NatToString(n / 10);
      ParseNatToString(n / 10);
    }
  }

  /** Reading the decimal form back gives the number: the formatter loses nothing. */
  lemma IntToStringRoundTrip(n: int)
    ensures ParseInt(IntToString(n)) == n
  {
    if n < 0 {
      assert IntToString(n)[1..] == NatToString(-n);
      ParseNatToString(-n);
    } else {
      ParseNatToString(n);
    }
  }

  /** IntToString never gives two numbers the same text. */
  lemma IntToStringInjective(m: int, n: int)
    requires IntToString(m) == IntToString(n)
    ensures m == n
  {
    IntToStringRoundTrip(m);
    IntToStringRoundTrip(n);
  }

  /** Text of the lives label for the given remaining lives (Mathf.Max(lives, 0)):
      "Lives: " and then digits only, so never a negative number. */
  function LivesLabel(lives: int): (r: string)
    ensures |r| > |LivesPrefix| && r[..|LivesPrefix|] == LivesPrefix
    ensures AllDigits(r[|LivesPrefix|..])
  {
    LivesPrefix + IntToString(if lives > 0 then lives else 0)
  }

  /** Text of the score label for the given score: "Score: " and then the
      decimal score, with a minus sign exactly when the score is negative. */
  function ScoreLabel(score: int): (r: string)
    ensures |r| > |ScorePrefix| && r[..|ScorePrefix|] == ScorePrefix
    ensures (r[|ScorePrefix|] == '-') == (score < 0)
    ensures AllDigits(r[|ScorePrefix| + 1..])
  {
    ScorePrefix + IntToString(score)
  }

  /** The lives label is "Lives: " and then only digits, never a minus sign,
      and those digits read back as the lives clamped at 0. */
  lemma LivesLabelNeverNegative(lives: int)
    ensures var r := LivesLabel(lives);
      && |r| > |LivesPrefix|
      && r[..|LivesPrefix|] == LivesPrefix
      && AllDigits(r[|LivesPrefix|..])
      && ParseNat(r[|LivesPrefix|..]) == (if lives > 0 then lives else 0)
  {
    var m := if lives > 0 then lives else 0;
    assert LivesLabel(lives)[|LivesPrefix|..] == NatToString(m);
    ParseNatToString(m);
  }

  /** The score label is "Score: " and then the decimal score, which reads back
      as the score itself. */
  lemma ScoreLabelShowsScore(score: int)
    ensures var r := ScoreLabel(score);
      && |r| > |ScorePrefix|
      && r[..|ScorePrefix|] == ScorePrefix
      && ParseInt(r[|ScorePrefix|..]) == score
  {
    assert ScoreLabel(score)[|ScorePrefix|..] == IntToString(score);
    IntToStringRoundTrip(score);
  }
}

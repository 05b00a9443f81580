/** The dice plugin: `.r [num]d[min~][max][±offset]` rolls num dice with
    faces min..max, adds the signed offset and replies with a line such as
    `2D6+3 = 4+1+3 = 8`. The pattern's captures and the random draws are
    inputs here. */
module Dice {
  import opened Text

  /** The five named captures of the command pattern; a group that took
      part in no match is "". */
  datatype Captures = Captures(num: string, min: string, max: string, sign: string, offset: string)

  /** A superset of what the pattern can capture: digit runs of at most 2,
      4, 4 and 5 digits and a sign that is `+`, `-` or absent ("" for a
      group that took no part). The pattern's further restrictions, such as
      an offset only after a sign, are not enforced. */
  predicate FromPattern(c: Captures)
  {
    && AllDigits(c.num) && |c.num| <= 2
    && AllDigits(c.min) && |c.min| <= 4
    && AllDigits(c.max) && |c.max| <= 4
    && (c.sign == "" || c.sign == "+" || c.sign == "-")
    && AllDigits(c.offset) && |c.offset| <= 5
  }

  datatype DiceParams = DiceParams(num: nat, min: int, max: int, sign: int, offset: int)

  /** A digit run of at most k digits is below 10^k. */
  lemma {:induction false} ParseBound(s: string, k: nat, bound: nat)
    requires AllDigits(s) && |s| <= k && bound == Pow10(k)
    ensures ParseDecimal(s) < bound
  {
    if s != [] {
      ParseBound(s[..|s| - 1], k - 1, Pow10(k - 1));
    } else {
      Pow10Positive(k);
    }
  }

  function Pow10(k: nat): nat
  {
    if k == 0 then 1 else 10 * Pow10(k - 1)
  }

  lemma {:induction false} Pow10Positive(k: nat)
    ensures Pow10(k) >= 1
  {
    if k > 0 {
      Pow10Positive(k - 1);
    }
  }

  /** The defaults num = 1, min = 1, max = 100, sign = +1, offset = 0, each
      replaced by its capture when that is non-empty. */
  function Defaulted(c: Captures): (p: DiceParams)
    requires FromPattern(c)
    ensures p.num == (if c.num == "" then 1 else ParseDecimal(c.num))
    ensures p.min == (if c.min == "" then 1 else ParseDecimal(c.min))
    ensures p.max == (if c.max == "" then 100 else ParseDecimal(c.max))
    ensures p.sign == (if c.sign == "-" then -1 else 1)
    ensures p.offset == (if c.offset == "" then 0 else ParseDecimal(c.offset))
    ensures p.num < 100 && 0 <= p.min < 10000 && 0 <= p.max < 10000 && 0 <= p.offset < 100000
  {
    ParseBound(c.num, 2, 100);
    ParseBound(c.min, 4, 10000);
    ParseBound(c.max, 4, 10000);
    ParseBound(c.offset, 5, 100000);
    DiceParams(
      if c.num == "" then 1 else ParseDecimal(c.num),
      if c.min == "" then 1 else ParseDecimal(c.min),
      if c.max == "" then 100 else ParseDecimal(c.max),
      if c.sign == "-" then -1 else 1,
      if c.offset == "" then 0 else ParseDecimal(c.offset))
  }

  /** The check middleware's defaulting, field by field. */
  method ParamsOf(c: Captures) returns (params: DiceParams)
    requires FromPattern(c)
    ensures params == Defaulted(c)
  {
    params := DiceParams(1, 1, 100, 1, 0);
    if c.num != "" {
      params := params.(num := ParseDecimal(c.num));
    }
    if c.min != "" {
      params := params.(min := ParseDecimal(c.min));
    }
    if c.max != "" {
      params := params.(max := ParseDecimal(c.max));
    }
    if c.sign != "" {
      if c.sign == "-" {
        params := params.(sign := -1);
      } else {
        params := params.(sign := 1);
      }
    }
    if c.offset != "" {
      params := params.(offset := ParseDecimal(c.offset));
    }
  }

  // ---------------------------------------------------------------------
  // Rolling

  datatype DiceResult = DiceResult(params: DiceParams, rolls: seq<int>, sum: int, res: int)

  /** The bounds after `doDice` puts them in order. */
  function Ordered(p: DiceParams): (q: DiceParams)
    ensures q.min <= q.max
    ensures {q.min, q.max} == {p.min, p.max}
    ensures q.num == p.num && q.sign == p.sign && q.offset == p.offset
  {
    if p.min > p.max then p.(min := p.max, max := p.min) else p
  }

  /** The argument of `rand.Intn`: the number of faces. */
  function Faces(p: DiceParams): (n: int)
    ensures n >= 1
  {
    Ordered(p).max - Ordered(p).min + 1
  }

  function Sum(xs: seq<int>): int
  {
    if xs == [] then 0 else Sum(xs[..|xs| - 1]) + xs[|xs| - 1]
  }

  /** Rolls all within [lo, hi] sum to between n·lo and n·hi. */
  lemma {:induction false} SumBounds(xs: seq<int>, lo: int, hi: int)
    requires forall i :: 0 <= i < |xs| ==> lo <= xs[i] <= hi
    ensures |xs| * lo <= Sum(xs) <= |xs| * hi
  {
    if xs != [] {
      var front := xs[..|xs| - 1];
      SumBounds(front, lo, hi);
      assert |xs| * lo == |front| * lo + lo;
      assert |xs| * hi == |front| * hi + hi;
    }
  }

  /** `doDice` with `rand.Intn` answered by the draws, one per die, each in
      [0, faces). */
  method DoDice(params: DiceParams, draws: seq<int>) returns (r: DiceResult)
    requires |draws| == params.num
    requires forall i :: 0 <= i < |draws| ==> 0 <= draws[i] < Faces(params)
    ensures r.params == Ordered(params)
    ensures params.num == 0 ==> r.rolls == [] && r.sum == 0 && r.res == 0
    ensures params.num > 0 ==>
      && |r.rolls| == params.num
      && (forall i :: 0 <= i < |r.rolls| ==>
            r.rolls[i] == r.params.min + draws[i] && r.params.min <= r.rolls[i] <= r.params.max)
      && r.sum == Sum(r.rolls)
      && r.res == r.sum + params.sign * params.offset
  {
    var p := params;
    if p.min > p.max {
      p := p.(min := params.max, max := params.min);
    }
    if p.num == 0 {
      return DiceResult(p, [], 0, 0);
    }
    var rolls := new int[p.num];
    var sum := 0;
    var i := 0;
    while i < p.num
      invariant 0 <= i <= p.num
      invariant forall j :: 0 <= j < i ==> rolls[j] == p.min + draws[j]
      invariant sum == Sum(rolls[..i])
    {
      rolls[i] := draws[i] + p.min;
      assert rolls[..i + 1][..i] == rolls[..i];
      sum := sum + rolls[i];
      i := i + 1;
    }
    assert rolls[..i] == rolls[..];
    r := DiceResult(p, rolls[..], sum, sum + p.sign * p.offset);
  }

  /** From the pattern's captures the result fits easily into 64 bits: at
      most 99 dice of at most 9999 and an offset below 100000. */
  lemma ResultFits(c: Captures, r: DiceResult)
    requires FromPattern(c)
    requires r.params == Ordered(Defaulted(c)) && |r.rolls| == r.params.num
    requires forall i :: 0 <= i < |r.rolls| ==> r.params.min <= r.rolls[i] <= r.params.max
    requires r.sum == Sum(r.rolls) && r.res == r.sum + r.params.sign * r.params.offset
    ensures 0 <= r.sum <= 99 * 9999
    ensures -100000 < r.res < 99 * 9999 + 100000
  {
    var p := r.params;
    SumBounds(r.rolls, p.min, p.max);
    assert |r.rolls| * p.max <= 99 * 9999 by {
      assert 0 <= |r.rolls| <= 99 && 0 <= p.max <= 9999;
      MulMonotone(|r.rolls|, 99, p.max, 9999);
    }
    assert 0 <= |r.rolls| * p.min by {
      MulMonotone(0, |r.rolls|, 0, p.min);
    }
  }

  lemma MulMonotone(a: int, b: int, c: int, d: int)
    requires 0 <= a <= b && 0 <= c <= d
    ensures a * c <= b * d
  {
    assert a * c <= b * c;
  }

  // ---------------------------------------------------------------------
  // The reply text

  /** `%d` of every roll. */
  function RollTexts(rolls: seq<int>): (ts: seq<string>)
    ensures |ts| == |rolls|
  {
    seq(|rolls|, i requires 0 <= i < |rolls| => IntToDecimal(rolls[i]))
  }

  /** The rolls joined by `+`. */
  function RollsText(rolls: seq<int>): string
  {
    Join(RollTexts(rolls), "+")
  }

  /** `%+d` of offset·sign, left out when the offset is 0. */
  function OffsetText(p: DiceParams): string
  {
    if p.offset == 0 then "" else SignedDecimal(p.offset * p.sign)
  }

  /** The faces: the maximum alone when the minimum is 1, else `min~max`. */
  function RangeText(p: DiceParams): string
  {
    if p.min == 1 then IntToDecimal(p.max) else IntToDecimal(p.min) + "~" + IntToDecimal(p.max)
  }

  /** `diceResult.String`: "" without dice, else
      `<num>D<range><offset> = <rolls><offset> = <res>`. */
  function DiceText(r: DiceResult): string
  {
    if r.params.num == 0 then ""
    else Formula(r.params) + " = " + Tally(r) + " = " + IntToDecimal(r.res)
  }

  /** `<num>D<range><offset>` */
  function Formula(p: DiceParams): string
  {
    IntToDecimal(p.num) + "D" + RangeText(p) + OffsetText(p)
  }

  /** `<rolls><offset>` */
  function Tally(r: DiceResult): string
  {
    RollsText(r.rolls) + OffsetText(r.params)
  }

  /** `String`, with its loop over the rolls. */
  method Format(r: DiceResult) returns (s: string)
    ensures s == DiceText(r)
  {
    if r.params.num == 0 {
      return "";
    }
    var num := IntToDecimal(r.params.num) + "D";
    var minmax := IntToDecimal(r.params.min) + "~" + IntToDecimal(r.params.max);
    if r.params.min == 1 {
      minmax := IntToDecimal(r.params.max);
    }
    var offset := SignedDecimal(r.params.offset * r.params.sign);
    if r.params.offset == 0 {
      offset := "";
    }
    var rolls := "";
    var i := 0;
    while i < |r.rolls|
      invariant 0 <= i <= |r.rolls|
      invariant rolls == RollsText(r.rolls[..i])
    {
      RollsTextSnoc(r.rolls, i);
      if i != 0 {
        rolls := rolls + "+";
      }
      rolls := rolls + IntToDecimal(r.rolls[i]);
      i := i + 1;
    }
    assert r.rolls[..i] == r.rolls;
    var formula, tally := num + minmax + offset, rolls + offset;
    assert formula == Formula(r.params);
    s := formula + " = " + tally + " = " + IntToDecimal(r.res);
  }

  lemma RollsTextSnoc(rolls: seq<int>, i: nat)
    requires i < |rolls|
    ensures RollsText(rolls[..i + 1]) ==
      if i == 0 then IntToDecimal(rolls[0]) else RollsText(rolls[..i]) + "+" + IntToDecimal(rolls[i])
  {
    var ts := RollTexts(rolls[..i]);
    assert RollTexts(rolls[..i + 1]) == ts + [IntToDecimal(rolls[i])];
    if i == 0 {
      assert RollTexts(rolls[..1]) == [IntToDecimal(rolls[0])];
    } else {
      JoinSnoc(ts, IntToDecimal(rolls[i]), "+");
    }
  }

  /** The rolls can be read back from their text: splitting it at `+`
      gives one decimal per roll, and parsing each gives the roll. */
  lemma RollsRoundTrip(rolls: seq<int>)
    requires |rolls| >= 1
    requires forall i :: 0 <= i < |rolls| ==> rolls[i] >= 0
    ensures var parts := Split(RollsText(rolls), '+');
      && |parts| == |rolls|
      && forall i :: 0 <= i < |rolls| ==> AllDigits(parts[i]) && ParseDecimal(parts[i]) == rolls[i]
  {
    var ts := RollTexts(rolls);
    forall i | 0 <= i < |ts| ensures '+' !in ts[i] {
      NoNonDigitInIntDecimal(rolls[i], '+');
    }
    SplitJoin(ts, '+');
    forall i | 0 <= i < |rolls| ensures AllDigits(ts[i]) && ParseDecimal(ts[i]) == rolls[i] {
      ParseNatToDecimal(rolls[i]);
    }
  }

  /** No `=` inside the pieces of the reply text. */
  lemma NoEqualsInPieces(r: DiceResult)
    ensures '=' !in Formula(r.params) && '=' !in Tally(r) && '=' !in IntToDecimal(r.res)
  {
    NoEqualsInFormula(r.params);
    NoEqualsInOffset(r.params);
    NoEqualsInJoin(RollTexts(r.rolls), r.rolls);
    NoNonDigitInIntDecimal(r.res, '=');
  }

  lemma NoEqualsInFormula(p: DiceParams)
    ensures '=' !in Formula(p)
  {
    NoNonDigitInIntDecimal(p.num, '=');
    NoEqualsInRange(p);
    NoEqualsInOffset(p);
  }

  lemma NoEqualsInRange(p: DiceParams)
    ensures '=' !in RangeText(p)
  {
    NoNonDigitInIntDecimal(p.min, '=');
    NoNonDigitInIntDecimal(p.max, '=');
  }

  lemma NoEqualsInOffset(p: DiceParams)
    ensures '=' !in OffsetText(p)
  {
    var v := p.offset * p.sign;
    NoNonDigitInDecimal(if v < 0 then -v else v, '=');
  }

  lemma {:induction false} NoEqualsInJoin(ts: seq<string>, rolls: seq<int>)
    requires ts == RollTexts(rolls)
    ensures '=' !in Join(ts, "+")
  {
    if |ts| > 1 {
      NoNonDigitInIntDecimal(rolls[0], '=');
      assert ts[1..] == RollTexts(rolls[1..]);
      NoEqualsInJoin(ts[1..], rolls[1..]);
    } else if |ts| == 1 {
      NoNonDigitInIntDecimal(rolls[0], '=');
    }
  }

  /** Three `=`-free texts around two ` = ` give three pieces. */
  lemma SplitThree(x: string, y: string, z: string)
    requires '=' !in x && '=' !in y && '=' !in z
    ensures Split(x + " = " + y + " = " + z, '=') == [x + " ", " " + y + " ", " " + z]
  {
    var a, b, c := x + " ", " " + y + " ", " " + z;
    assert x + " = " + y + " = " + z == a + "=" + (b + "=" + c);
    SplitAtFirst(b, c, '=');
    SplitAbsent(c, '=');
    SplitAtFirst(a, b + "=" + c, '=');
  }

  /** With dice the text has exactly three `=`-separated parts: the
      formula with a trailing space, the rolls with the offset between
      spaces, and the result after a space. */
  lemma DiceTextParts(r: DiceResult)
    requires r.params.num > 0
    ensures Split(DiceText(r), '=') == [Formula(r.params) + " ", " " + Tally(r) + " ", " " + IntToDecimal(r.res)]
  {
    NoEqualsInPieces(r);
    SplitThree(Formula(r.params), Tally(r), IntToDecimal(r.res));
  }
}

/** Text and number helpers shared by the chat, plugin-management and dice
    models: Go's `%d` formatting, `strconv` parsing of digit runs, UTF-8 byte
    length (Go's `len` on a string), `strings.Split`, `strings.Join` and
    `strings.Replace` on single characters.

    Strings are `seq<char>`, one `char` per Unicode scalar value, which is one
    Go rune; Go's `[]rune(s)` is then the string itself. */
module Text {

  datatype Option<+T> = None | Some(value: T)

  predicate IsDigit(c: char) { '0' <= c <= '9' }

  predicate AllDigits(s: string) { forall i :: 0 <= i < |s| ==> IsDigit(s[i]) }

  function DigitValue(c: char): (d: nat)
    requires IsDigit(c)
    ensures d < 10
  {
    (c as int) - ('0' as int)
  }

  function DigitChar(d: nat): (c: char)
    requires d < 10
    ensures IsDigit(c) && DigitValue(c) == d
  {
    (('0' as int) + d) as char
  }

  /** Base-10 value of a run of ASCII digits (`strconv.ParseInt(s, 10, 64)`,
      `strconv.Atoi`), leading zeros allowed; the empty run is 0. */
  function ParseDecimal(s: string): nat
    requires AllDigits(s)
    decreases |s|
  {
    if s == [] then 0 else 10 * ParseDecimal(s[..|s| - 1]) + DigitValue(s[|s| - 1])
  }

  /** Go's `fmt.Sprintf("%d", n)` for a non-negative n. */
  function NatToDecimal(n: nat): (s: string)
    ensures |s| >= 1
    ensures n >= 10 ==> |s| >= 2
  {
    if n < 10 then [DigitChar(n)] else NatToDecimal(n / 10) + [DigitChar(n % 10)]
  }

  /** Decimal text is all digits, without a leading zero. */
  lemma {:induction false} DecimalDigits(n: nat)
    ensures AllDigits(NatToDecimal(n))
    ensures |NatToDecimal(n)| > 1 ==> NatToDecimal(n)[0] != '0'
  {
    if n >= 10 {
      DecimalDigits(n / 10);
      var p, s := NatToDecimal(n / 10), NatToDecimal(n);
      assert s == p + [DigitChar(n % 10)];
      assert s[0] == p[0];
    }
  }

  /** Go's `fmt.Sprintf("%d", i)`: a minus sign for negative values. */
  function IntToDecimal(i: int): (s: string)
    ensures |s| >= 1
  {
    if i < 0 then "-" + NatToDecimal(-i) else NatToDecimal(i)
  }

  /** Go's `fmt.Sprintf("%+d", i)`: the sign is always written. */
  function SignedDecimal(i: int): (s: string)
    ensures |s| >= 2
    ensures s[0] == '+' <==> i >= 0
  {
    if i < 0 then "-" + NatToDecimal(-i) else "+" + NatToDecimal(i)
  }

  /** Parsing the decimal text of n gives n back. */
  lemma {:induction false} ParseNatToDecimal(n: nat)
    ensures AllDigits(NatToDecimal(n)) && ParseDecimal(NatToDecimal(n)) == n
  {
    DecimalDigits(n);
    if n >= 10 {
      var s := NatToDecimal(n);
      assert s[..|s| - 1] == NatToDecimal(n / 10);
      ParseNatToDecimal(n / 10);
    }
  }

  /** Decimal text never holds a given non-digit character. */
  lemma NoNonDigitInDecimal(n: nat, c: char)
    requires !IsDigit(c)
    ensures c !in NatToDecimal(n)
  {
    DecimalDigits(n);
  }

  lemma NoNonDigitInIntDecimal(i: int, c: char)
    requires !IsDigit(c) && c != '-'
    ensures c !in IntToDecimal(i)
  {
    if i < 0 {
      NoNonDigitInDecimal(-i, c);
      assert IntToDecimal(i) == "-" + NatToDecimal(-i);
    } else {
      NoNonDigitInDecimal(i, c);
    }
  }

  // ---------------------------------------------------------------------
  // UTF-8 length

  /** Bytes of the UTF-8 encoding of one scalar value. */
  function RuneLen(c: char): (n: nat)
    ensures 1 <= n <= 4
  {
    if c as int < 0x80 then 1
    else if c as int < 0x800 then 2
    else if c as int < 0x10000 then 3
    else 4
  }

  /** Go's `len(s)`: the number of bytes of the UTF-8 encoding of s. */
  function Utf8Len(s: string): nat
  {
    if s == [] then 0 else RuneLen(s[0]) + Utf8Len(s[1..])
  }

  lemma {:induction false} Utf8LenAppend(a: string, b: string)
    ensures Utf8Len(a + b) == Utf8Len(a) + Utf8Len(b)
  {
    if a != [] {
      assert (a + b)[0] == a[0] && (a + b)[1..] == a[1..] + b;
      Utf8LenAppend(a[1..], b);
    } else {
      assert a + b == b;
    }
  }

  /** Every character takes one to four bytes. */
  lemma {:induction false} Utf8LenBounds(s: string)
    ensures |s| <= Utf8Len(s) <= 4 * |s|
  {
    if s != [] {
      Utf8LenBounds(s[1..]);
    }
  }

  // ---------------------------------------------------------------------
  // Splitting and joining

  /** Go's `strings.Split(s, string(c))`: the pieces between occurrences of c;
      n occurrences give n + 1 pieces, and "" gives [""]. */
  function Split(s: string, c: char): (parts: seq<string>)
    ensures |parts| >= 1
    ensures forall i :: 0 <= i < |parts| ==> c !in parts[i]
    decreases |s|
  {
    if s == [] then [""]
    else
      var rest := Split(s[1..], c);
      if s[0] == c then [""] + rest
      else [[s[0]] + rest[0]] + rest[1..]
  }

  /** Go's `strings.Join(parts, sep)`. */
  function Join(parts: seq<string>, sep: string): string
  {
    if parts == [] then ""
    else if |parts| == 1 then parts[0]
    else parts[0] + sep + Join(parts[1..], sep)
  }

  /** Index of the first c in s, or |s| when there is none. */
  function IndexOf(s: string, c: char): (k: nat)
    ensures k <= |s|
    ensures c !in s[..k]
    ensures k < |s| ==> s[k] == c
  {
    if s == [] then 0 else if s[0] == c then 0 else 1 + IndexOf(s[1..], c)
  }

  /** The first piece of a split is the text before the first separator. */
  lemma {:induction false} SplitFirst(s: string, c: char)
    ensures Split(s, c)[0] == s[..IndexOf(s, c)]
  {
    if s != [] && s[0] != c {
      SplitFirst(s[1..], c);
      assert s[..IndexOf(s, c)] == [s[0]] + s[1..][..IndexOf(s[1..], c)];
    }
  }

  /** Without a separator there is one piece, the whole string. */
  lemma SplitAbsent(s: string, c: char)
    requires c !in s
    ensures Split(s, c) == [s]
  {
    SplitPrefix(s, "", c);
    assert s + "" == s;
  }

  /** Splitting on c and joining with c restores the string. */
  lemma {:induction false} JoinSplit(s: string, c: char)
    ensures Join(Split(s, c), [c]) == s
    decreases |s|
  {
    var k := IndexOf(s, c);
    if k == |s| {
      assert s[..k] == s;
      SplitAbsent(s, c);
    } else {
      var p, t := s[..k], s[k + 1..];
      assert s == p + [c] + t;
      SplitAtFirst(p, t, c);
      JoinSplit(t, c);
      var rest := Split(t, c);
      assert ([p] + rest)[0] == p && ([p] + rest)[1..] == rest;
    }
  }

  /** A prefix free of c, then c: the prefix is the first piece. */
  lemma SplitAtFirst(p: string, t: string, c: char)
    requires c !in p
    ensures Split(p + [c] + t, c) == [p] + Split(t, c)
  {
    SplitPrefix(p, [c] + t, c);
    assert ([c] + t)[1..] == t;
    assert p + ([c] + t) == p + [c] + t;
    assert p + "" == p;
  }

  /** A prefix free of c is glued to the first piece. */
  lemma {:induction false} SplitPrefix(x: string, t: string, c: char)
    requires c !in x
    ensures Split(x + t, c) == [x + Split(t, c)[0]] + Split(t, c)[1..]
  {
    if x != [] {
      assert (x + t)[0] == x[0] && (x + t)[1..] == x[1..] + t;
      assert x[0] in x;
      assert c !in x[1..];
      SplitPrefix(x[1..], t, c);
      var p, r := Split(t, c), Split(x[1..] + t, c);
      assert r[0] == x[1..] + p[0] && r[1..] == p[1..];
      assert Split(x + t, c) == [[x[0]] + r[0]] + r[1..];
      assert [x[0]] + (x[1..] + p[0]) == x + p[0];
    } else {
      var p := Split(t, c);
      assert x + t == t && x + p[0] == p[0];
      assert [p[0]] + p[1..] == p;
    }
  }

  /** Joining pieces free of c with c and splitting on c gives the pieces. */
  lemma {:induction false} SplitJoin(xs: seq<string>, c: char)
    requires |xs| >= 1
    requires forall i :: 0 <= i < |xs| ==> c !in xs[i]
    ensures Split(Join(xs, [c]), c) == xs
  {
    if |xs| == 1 {
      SplitPrefix(xs[0], "", c);
      assert xs[0] + "" == xs[0];
    } else {
      var rest := Join(xs[1..], [c]);
      SplitJoin(xs[1..], c);
      assert Join(xs, [c]) == xs[0] + ([c] + rest);
      SplitPrefix(xs[0], [c] + rest, c);
      assert ([c] + rest)[1..] == rest;
      assert Split([c] + rest, c) == [""] + xs[1..];
      assert xs[0] + "" == xs[0];
    }
  }

  /** Joining one more piece adds the separator and the piece. */
  lemma {:induction false} JoinSnoc(xs: seq<string>, x: string, sep: string)
    requires |xs| >= 1
    ensures Join(xs + [x], sep) == Join(xs, sep) + sep + x
  {
    if |xs| == 1 {
      assert (xs + [x])[1..] == [x];
    } else {
      assert (xs + [x])[0] == xs[0] && (xs + [x])[1..] == xs[1..] + [x];
      JoinSnoc(xs[1..], x, sep);
      var j := Join(xs[1..], sep);
      assert Join(xs + [x], sep) == xs[0] + sep + (j + sep + x);
      assert Join(xs, sep) == xs[0] + sep + j;
    }
  }

  lemma AppendAssoc(a: string, b: string, c: string)
    ensures a + (b + c) == (a + b) + c
  {
  }

  lemma AppendEmpty(a: string)
    ensures a + "" == a && "" + a == a
  {
  }

  // ---------------------------------------------------------------------
  // Replacing, truncating, counting

  /** Go's `strings.Replace(s, string(a), string(b), -1)`. */
  function ReplaceChar(s: string, a: char, b: char): (r: string)
    ensures |r| == |s|
    ensures forall i :: 0 <= i < |s| ==> r[i] == (if s[i] == a then b else s[i])
  {
    if s == [] then [] else [if s[0] == a then b else s[0]] + ReplaceChar(s[1..], a, b)
  }

  /** The first n runes of s (`[]rune(s)[:n]` when longer than n). */
  function TakeRunes(s: string, n: nat): (r: string)
    ensures |r| == if |s| <= n then |s| else n
    ensures r == s[..|r|]
  {
    if |s| > n then s[..n] else s
  }

  function CountChar(s: string, c: char): nat
  {
    if s == [] then 0 else (if s[0] == c then 1 else 0) + CountChar(s[1..], c)
  }

  lemma {:induction false} CountCharAppend(a: string, b: string, c: char)
    ensures CountChar(a + b, c) == CountChar(a, c) + CountChar(b, c)
  {
    if a != [] {
      assert (a + b)[0] == a[0] && (a + b)[1..] == a[1..] + b;
      CountCharAppend(a[1..], b, c);
    } else {
      assert a + b == b;
    }
  }

  lemma {:induction false} CountCharAbsent(s: string, c: char)
    requires c !in s
    ensures CountChar(s, c) == 0
  {
    if s != [] {
      CountCharAbsent(s[1..], c);
    }
  }
}

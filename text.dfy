/**
 * The parts of JavaScript's string library the exports rely on:
 * `Array.prototype.join`, `String.prototype.split` on one character,
 * and the decimal rendering of integers in template literals.
 */
module Text {
  import opened Wrappers

  /** `xs.join(sep)`: the items with `sep` between consecutive ones; `[].join(sep)` is "". */
  function Join(xs: seq<string>, sep: string): string
    decreases |xs|
  {
    if |xs| == 0 then ""
    else if |xs| == 1 then xs[0]
    else xs[0] + sep + Join(xs[1..], sep)
  }

  lemma JoinFirst(xs: seq<string>, sep: string)
    requires |xs| > 1
    ensures Join(xs, sep) == xs[0] + sep + Join(xs[1..], sep)
  {
  }

  lemma JoinCons(x: string, xs: seq<string>, sep: string)
    requires |xs| > 0
    ensures Join([x] + xs, sep) == x + sep + Join(xs, sep)
  {
    assert ([x] + xs)[1..] == xs;
  }

  /** `s.split(c)`: the maximal pieces between occurrences of `c`; always at least one piece. */
  function Split(s: string, c: char): (r: seq<string>)
    ensures |r| > 0
    decreases |s|
  {
    if |s| == 0 then [""]
    else
      var rest := Split(s[1..], c);
      if s[0] == c then [""] + rest else [[s[0]] + rest[0]] + rest[1..]
  }

  /** The lines a reader sees after splitting `xs.join(sep)`: an empty list still yields one empty line. */
  function LinesOf(xs: seq<string>): (r: seq<string>)
    ensures |r| == if |xs| == 0 then 1 else |xs|
  {
    if |xs| == 0 then [""] else xs
  }

  lemma {:induction false} SplitWithout(s: string, c: char)
    requires c !in s
    ensures Split(s, c) == [s]
    decreases |s|
  {
    if |s| > 0 {
      assert c !in s[1..] by { assert forall k :: 0 <= k < |s| - 1 ==> s[1..][k] == s[k + 1]; }
      SplitWithout(s[1..], c);
      assert [s[0]] + s[1..] == s;
    }
  }

  /** One step of `Split`, for a string written as its first character and the rest. */
  lemma SplitStep(x: char, t: string, c: char)
    ensures Split([x] + t, c) ==
      if x == c then [""] + Split(t, c) else [[x] + Split(t, c)[0]] + Split(t, c)[1..]
  {
    assert ([x] + t)[1..] == t;
  }

  /** Splitting at one occurrence of the separator splits the two sides independently. */
  lemma {:induction false} SplitConcat(a: string, b: string, c: char)
    ensures Split(a + [c] + b, c) == Split(a, c) + Split(b, c)
    decreases |a|
  {
    if |a| == 0 {
      assert a + [c] + b == [c] + b;
      SplitStep(c, b, c);
    } else {
      var tail := a[1..];
      assert a == [a[0]] + tail;
      assert a + [c] + b == [a[0]] + (tail + [c] + b);
      SplitConcat(tail, b, c);
      SplitConsConcat(a[0], tail, b, c);
    }
  }

  lemma SplitConsConcat(x: char, tail: string, b: string, c: char)
    requires Split(tail + [c] + b, c) == Split(tail, c) + Split(b, c)
    ensures Split([x] + (tail + [c] + b), c) == Split([x] + tail, c) + Split(b, c)
  {
    SplitStep(x, tail + [c] + b, c);
    SplitStep(x, tail, c);
    if x != c {
      ConsFirst(x, Split(tail, c), Split(b, c));
    }
  }

  /** Extending the first piece commutes with appending further pieces. */
  lemma ConsFirst(x: char, t: seq<string>, r: seq<string>)
    requires |t| > 0
    ensures [[x] + (t + r)[0]] + (t + r)[1..] == ([[x] + t[0]] + t[1..]) + r
  {
    assert (t + r)[1..] == t[1..] + r;
  }

  /** No item of `xs` contains the character `c`. */
  predicate Avoids(xs: seq<string>, c: char)
  {
    forall i :: 0 <= i < |xs| ==> c !in xs[i]
  }

  /** Splitting at the first occurrence of the separator, when the text before it has none. */
  lemma SplitHead(a: string, b: string, c: char)
    requires c !in a
    ensures Split(a + [c] + b, c) == [a] + Split(b, c)
  {
    SplitConcat(a, b, c);
    SplitWithout(a, c);
  }

  /** Two separators in a row leave an empty piece between the two sides. */
  lemma SplitGap(a: string, b: string, c: char)
    ensures Split(a + [c] + ([c] + b), c) == Split(a, c) + ([""] + Split(b, c))
  {
    SplitConcat(a, [c] + b, c);
    assert [c] + b == [] + [c] + b;
    SplitConcat([], b, c);
  }

  lemma AvoidsTail(xs: seq<string>, c: char)
    requires |xs| > 0 && Avoids(xs, c)
    ensures c !in xs[0] && Avoids(xs[1..], c)
  {
    var t := xs[1..];
    forall i | 0 <= i < |t| ensures c !in t[i] {
      assert t[i] == xs[i + 1];
    }
  }

  /** `xs.join(c).split(c)` gives the items back when none of them contains `c`. */
  lemma {:induction false} SplitJoin(xs: seq<string>, c: char)
    requires Avoids(xs, c)
    ensures Split(Join(xs, [c]), c) == LinesOf(xs)
    decreases |xs|
  {
    if |xs| == 1 {
      SplitWithout(xs[0], c);
    } else if |xs| > 1 {
      AvoidsTail(xs, c);
      var t := xs[1..];
      assert Join(xs, [c]) == xs[0] + [c] + Join(t, [c]);
      SplitHead(xs[0], Join(t, [c]), c);
      SplitJoin(t, c);
      assert [xs[0]] + t == xs;
    }
  }

  /** A character that occurs neither in the items nor in the separator does not occur in the joined text. */
  lemma {:induction false} JoinWithout(xs: seq<string>, sep: string, c: char)
    requires c !in sep
    requires Avoids(xs, c)
    ensures c !in Join(xs, sep)
    decreases |xs|
  {
    if |xs| > 1 {
      JoinWithout(xs[1..], sep, c);
    }
  }

  predicate IsDigit(ch: char) { '0' <= ch <= '9' }

  predicate AllDigits(s: string) { forall k :: 0 <= k < |s| ==> IsDigit(s[k]) }

  function DigitChar(d: nat): (ch: char)
    requires d < 10
    ensures IsDigit(ch)
  {
    (('0' as int) + d) as char
  }

  function DigitValue(ch: char): (d: nat)
    requires IsDigit(ch)
    ensures d < 10
  {
    (ch as int) - ('0' as int)
  }

  /** Decimal digits of a natural number, most significant first, no leading zeros. */
  function NatToString(n: nat): (r: string)
    ensures |r| > 0 && AllDigits(r)
    ensures |r| > 1 ==> r[0] != '0'
    decreases n
  {
    if n < 10 then [DigitChar(n)] else NatToString(n / 10) + [DigitChar(n % 10)]
  }

  /** The text `${i}` produces for an integer: a minus sign for negatives, then the digits. */
  function IntToString(i: int): (r: string)
    ensures '\n' !in r && ',' !in r && '"' !in r
  {
    if i < 0 then "-" + NatToString(-i) else NatToString(i)
  }

  /** Value of a string of decimal digits. */
  function DigitsValue(s: string): nat
    requires AllDigits(s)
    decreases |s|
  {
    if |s| == 0 then 0 else DigitsValue(s[..|s| - 1]) * 10 + DigitValue(s[|s| - 1])
  }

  /** Reads back an optionally negative decimal integer; anything else is None. */
  function ParseInt(s: string): Option<int>
  {
    if |s| > 1 && s[0] == '-' && AllDigits(s[1..]) then Some(-(DigitsValue(s[1..]) as int))
    else if |s| > 0 && AllDigits(s) then Some(DigitsValue(s))
    else None
  }

  lemma {:induction false} DigitsRoundTrip(n: nat)
    ensures DigitsValue(NatToString(n)) == n
    decreases n
  {
    if n >= 10 {
      var s := NatToString(n);
      DigitsRoundTrip(n / 10);
      assert s[..|s| - 1] == NatToString(n / 10);
      assert s[|s| - 1] == DigitChar(n % 10);
    }
  }

  /** The decimal rendering of an integer reads back as the same integer. */
  lemma IntRoundTrip(i: int)
    ensures ParseInt(IntToString(i)) == Some(i)
  {
    var s := IntToString(i);
    if i < 0 {
      DigitsRoundTrip(-i);
      assert s[1..] == NatToString(-i);
    } else {
      DigitsRoundTrip(i);
      assert s[0] == '-' ==> false by { assert IsDigit(s[0]); }
    }
  }
}

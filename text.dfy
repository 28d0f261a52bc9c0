/** String helpers the renderer relies on: joining with a separator (itertools'
    `join`), plain concatenation, character counting and search, and the decimal
    rendering of integers that `format!("{}", n)` performs for an `i64`. */
module Text {
  import opened Wrappers

  // ---------------------------------------------------------------------------
  // Joining
  // ---------------------------------------------------------------------------

  /** The parts with `sep` between each pair of neighbours, nothing before the
      first or after the last. */
  function Join(parts: seq<string>, sep: string): string
  {
    if |parts| == 0 then ""
    else if |parts| == 1 then parts[0]
    else parts[0] + sep + Join(parts[1..], sep)
  }

  /** The parts written one after the other. */
  function Concat(parts: seq<string>): string
  {
    if |parts| == 0 then "" else parts[0] + Concat(parts[1..])
  }

  /** Joining with the empty separator is concatenation. */
  lemma {:induction false} JoinEmptySeparator(parts: seq<string>)
    ensures Join(parts, "") == Concat(parts)
  {
    if |parts| == 1 {
      assert Concat(parts[1..]) == "";
      assert Concat(parts) == parts[0] + "";
    } else if |parts| > 1 {
      JoinEmptySeparator(parts[1..]);
    }
  }

  /** Concatenation of two runs of parts is the concatenation of each run. */
  lemma {:induction false} ConcatAppend(a: seq<string>, b: seq<string>)
    ensures Concat(a + b) == Concat(a) + Concat(b)
  {
    if a == [] {
      assert a + b == b;
    } else {
      assert (a + b)[1..] == a[1..] + b;
      ConcatAppend(a[1..], b);
    }
  }

  /** Concatenation yields the empty string exactly when every part is empty. */
  lemma {:induction false} ConcatEmptyIff(parts: seq<string>)
    ensures Concat(parts) == "" <==> forall i :: 0 <= i < |parts| ==> parts[i] == ""
  {
    if parts != [] {
      ConcatEmptyIff(parts[1..]);
      assert forall i :: 1 <= i < |parts| ==> parts[i] == parts[1..][i - 1];
      if Concat(parts) == "" {
        assert |parts[0]| + |Concat(parts[1..])| == 0;
      }
    }
  }

  // ---------------------------------------------------------------------------
  // Characters
  // ---------------------------------------------------------------------------

  /** The number of occurrences of `ch` in `s`. */
  function CountChar(ch: char, s: string): nat
  {
    if |s| == 0 then 0 else (if s[0] == ch then 1 else 0) + CountChar(ch, s[1..])
  }

  lemma {:induction false} CountCharAppend(ch: char, a: string, b: string)
    ensures CountChar(ch, a + b) == CountChar(ch, a) + CountChar(ch, b)
  {
    if a == [] {
      assert a + b == b;
    } else {
      assert (a + b)[1..] == a[1..] + b;
      CountCharAppend(ch, a[1..], b);
    }
  }

  lemma {:induction false} CountCharAbsent(ch: char, s: string)
    requires ch !in s
    ensures CountChar(ch, s) == 0
  {
    if s != [] {
      assert s[0] != ch;
      assert forall c :: c in s[1..] ==> c in s;
      CountCharAbsent(ch, s[1..]);
    }
  }

  /** The position of the first `ch` in `s`, if there is one. */
  function IndexOf(s: string, ch: char): (r: Option<nat>)
    ensures r.None? <==> ch !in s
    ensures r.Some? ==> r.value < |s| && s[r.value] == ch && ch !in s[..r.value]
  {
    if |s| == 0 then None
    else if s[0] == ch then Some(0)
    else
      match IndexOf(s[1..], ch)
      case None =>
        assert s == [s[0]] + s[1..];
        None
      case Some(k) =>
        assert s[..k + 1] == [s[0]] + s[1..][..k];
        Some(k + 1)
  }

  // ---------------------------------------------------------------------------
  // Decimal numbers
  // ---------------------------------------------------------------------------

  predicate IsDigit(ch: char) {
    '0' <= ch <= '9'
  }

  predicate AllDigits(s: string) {
    forall i :: 0 <= i < |s| ==> IsDigit(s[i])
  }

  function DigitChar(d: nat): (ch: char)
    requires d < 10
    ensures IsDigit(ch) && ch as int - '0' as int == d
  {
    ('0' as int + d) as char
  }

  /** The number a string of decimal digits denotes, most significant digit first. */
  function DecimalValue(s: string): nat
    requires AllDigits(s)
  {
    if |s| == 0 then 0
    else DecimalValue(s[..|s| - 1]) * 10 + (s[|s| - 1] as int - '0' as int)
  }

  /** The shortest decimal digit string of `n`: digits only, no leading zero,
      and it reads back as `n`. */
  function NatToDecimal(n: nat): (r: string)
    ensures |r| >= 1 && AllDigits(r)
    ensures (r[0] == '0') == (n == 0)
    ensures n == 0 ==> r == "0"
    ensures DecimalValue(r) == n
  {
    if n < 10 then
      [DigitChar(n)]
    else
      var prefix := NatToDecimal(n / 10);
      var r := prefix + [DigitChar(n % 10)];
      assert r[..|r| - 1] == prefix;
      r
  }

  /** Reads an optionally '-'-signed decimal integer; None for anything else. */
  function ParseInteger(s: string): Option<int>
  {
    if |s| > 0 && s[0] == '-' then
      if |s| > 1 && AllDigits(s[1..]) then Some(-(DecimalValue(s[1..]) as int)) else None
    else if |s| > 0 && AllDigits(s) then Some(DecimalValue(s) as int)
    else None
  }

  /** The text `format!("{}", n)` gives for an integer: a '-' exactly for the
      negative ones, then the digits of the magnitude without a leading zero
      (a lone "0" for zero); it reads back as `n`. */
  function IntToDecimal(n: int): (r: string)
    ensures |r| >= 1
    ensures (r[0] == '-') == (n < 0)
    ensures forall i :: 1 <= i < |r| ==> IsDigit(r[i])
    ensures n < 0 ==> |r| >= 2 && r[1] != '0'
    ensures n >= 0 && r[0] == '0' ==> r == "0"
    ensures ParseInteger(r) == Some(n)
  {
    if n < 0 then
      var digits := NatToDecimal(-n);
      assert ("-" + digits)[1..] == digits;
      "-" + digits
    else
      NatToDecimal(n)
  }
}

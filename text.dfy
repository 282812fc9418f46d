/** The part of Go's `strings`, `strconv` and `fmt` packages that the relay
    relies on: splitting on a separator, trimming white space, reading a
    decimal integer (`strconv.Atoi`) and printing numbers in decimal (`%d`,
    `%v`) and in hexadecimal (`%X`, and the lower-case digits netip uses). */
module Text {
  import opened Wrappers

  newtype byte = x: int | 0 <= x < 0x100
  newtype uint16 = x: int | 0 <= x < 0x1_0000

  /** Range of Go's `int` on the 64-bit platforms the relay targets. */
  const MinInt64: int := -0x8000_0000_0000_0000
  const MaxInt64: int := 0x7fff_ffff_ffff_ffff

  // ---------------------------------------------------------------------
  // Decimal numbers
  // ---------------------------------------------------------------------

  predicate IsDigit(c: char) { '0' <= c <= '9' }

  predicate AllDigits(s: string) { forall i :: 0 <= i < |s| ==> IsDigit(s[i]) }

  /** Digits without a superfluous leading zero: how Go prints a number. */
  predicate Canonical(s: string) { |s| >= 1 && AllDigits(s) && (|s| == 1 || s[0] != '0') }

  function DigitChar(d: nat): (c: char)
    requires d < 10
    ensures IsDigit(c) && c as int - '0' as int == d
  {
    ('0' as int + d) as char
  }

  /** The value of a string of decimal digits, most significant first. */
  function DigitsValue(s: string): nat
    requires AllDigits(s)
  {
    if s == [] then 0 else 10 * DigitsValue(s[..|s| - 1]) + (s[|s| - 1] as int - '0' as int)
  }

  /** `n` printed in decimal, as `%d`, `%v` and `strconv.Itoa` print it. */
  function Decimal(n: nat): (s: string)
    ensures Canonical(s) && DigitsValue(s) == n
  {
    if n < 10 then [DigitChar(n)]
    else
      var s := Decimal(n / 10) + [DigitChar(n % 10)];
      assert s[..|s| - 1] == Decimal(n / 10);
      s
  }

  function Pow10(k: nat): nat { if k == 0 then 1 else 10 * Pow10(k - 1) }

  /** A number below 10^k takes at most k digits. */
  lemma {:induction false} DecimalLength(n: nat, k: nat)
    requires 1 <= k && n < Pow10(k)
    ensures |Decimal(n)| <= k
  {
    if n >= 10 {
      assert k >= 2;
      assert n / 10 < Pow10(k - 1);
      DecimalLength(n / 10, k - 1);
    }
  }

  lemma {:induction false} LeadingDigitPositive(s: string)
    requires Canonical(s) && s[0] != '0'
    ensures DigitsValue(s) >= 1
  {
    if |s| > 1 {
      LeadingDigitPositive(s[..|s| - 1]);
    }
  }

  /** Reading a canonical decimal and printing it again gives the same text. */
  lemma {:induction false} DecimalOfCanonical(s: string)
    requires Canonical(s)
    ensures Decimal(DigitsValue(s)) == s
  {
    if |s| > 1 {
      var p := s[..|s| - 1];
      DecimalOfCanonical(p);
      LeadingDigitPositive(p);
      var q, d := DigitsValue(p), s[|s| - 1] as int - '0' as int;
      assert DigitsValue(s) == 10 * q + d;
      assert (10 * q + d) / 10 == q && (10 * q + d) % 10 == d;
      assert DigitChar(d) == s[|s| - 1];
      assert s == p + [s[|s| - 1]];
    }
  }

  /** The decimal text of a number determines the number. */
  lemma DecimalInjective(m: nat, n: nat)
    requires Decimal(m) == Decimal(n)
    ensures m == n
  {
  }

  // ---------------------------------------------------------------------
  // Hexadecimal numbers
  // ---------------------------------------------------------------------

  predicate IsHexDigit(c: char, upper: bool)
  {
    IsDigit(c) || (if upper then 'A' <= c <= 'F' else 'a' <= c <= 'f')
  }

  predicate AllHexDigits(s: string, upper: bool) { forall i :: 0 <= i < |s| ==> IsHexDigit(s[i], upper) }

  function HexDigitChar(d: nat, upper: bool): (c: char)
    requires d < 16
    ensures IsHexDigit(c, upper)
  {
    if d < 10 then DigitChar(d)
    else if upper then ('A' as int + d - 10) as char
    else ('a' as int + d - 10) as char
  }

  function HexDigitValue(c: char, upper: bool): (d: nat)
    requires IsHexDigit(c, upper)
    ensures d < 16
  {
    if IsDigit(c) then c as int - '0' as int
    else if upper then c as int - 'A' as int + 10
    else c as int - 'a' as int + 10
  }

  /** The value of a string of hexadecimal digits, most significant first. */
  function HexValue(s: string, upper: bool): nat
    requires AllHexDigits(s, upper)
  {
    if s == [] then 0 else 16 * HexValue(s[..|s| - 1], upper) + HexDigitValue(s[|s| - 1], upper)
  }

  /** `n` in hexadecimal without leading zeros: `%X` when `upper`, and the
      lower-case digits of netip's IPv6 text otherwise. */
  function Hex(n: nat, upper: bool): (s: string)
    ensures |s| >= 1 && AllHexDigits(s, upper) && (|s| == 1 || s[0] != '0')
    ensures HexValue(s, upper) == n
  {
    if n < 16 then [HexDigitChar(n, upper)]
    else
      var s := Hex(n / 16, upper) + [HexDigitChar(n % 16, upper)];
      assert s[..|s| - 1] == Hex(n / 16, upper);
      s
  }

  function Pow16(k: nat): nat { if k == 0 then 1 else 16 * Pow16(k - 1) }

  /** A number below 16^k takes at most k hexadecimal digits. */
  lemma {:induction false} HexLength(n: nat, k: nat, upper: bool)
    requires 1 <= k && n < Pow16(k)
    ensures |Hex(n, upper)| <= k
  {
    if n >= 16 {
      assert k >= 2;
      assert n / 16 < Pow16(k - 1);
      HexLength(n / 16, k - 1, upper);
    }
  }

  // ---------------------------------------------------------------------
  // strings.Split and strings.Join with a one-character separator
  // ---------------------------------------------------------------------

  /** `strings.Join(fields, string(sep))`. */
  function Join(fields: seq<string>, sep: char): string
  {
    if |fields| == 0 then ""
    else if |fields| == 1 then fields[0]
    else fields[0] + [sep] + Join(fields[1..], sep)
  }

  /** `strings.Split(s, string(sep))`: the pieces between separators; an empty
      string gives one empty field and every separator adds one field. */
  function Split(s: string, sep: char): (fields: seq<string>)
    ensures |fields| >= 1
    ensures forall i :: 0 <= i < |fields| ==> sep !in fields[i]
    ensures Join(fields, sep) == s
  {
    if s == [] then [""]
    else
      var rest := Split(s[1..], sep);
      if s[0] == sep then
        assert s == [sep] + s[1..];
        [""] + rest
      else
        var fields := [[s[0]] + rest[0]] + rest[1..];
        assert fields[1..] == rest[1..];
        assert s == [s[0]] + s[1..];
        fields
  }

  lemma {:induction false} SplitNoSeparator(s: string, sep: char)
    requires sep !in s
    ensures Split(s, sep) == [s]
  {
    if s != [] {
      SplitNoSeparator(s[1..], sep);
      assert [s[0]] + s[1..] == s;
    }
  }

  lemma {:induction false} SplitAfterField(f: string, sep: char, t: string)
    requires sep !in f
    ensures Split(f + [sep] + t, sep) == [f] + Split(t, sep)
  {
    if f == [] {
      assert f + [sep] + t == [sep] + t;
      assert ([sep] + t)[1..] == t;
    } else {
      var s := f + [sep] + t;
      assert s[1..] == f[1..] + [sep] + t;
      SplitAfterField(f[1..], sep, t);
      assert [f[0]] + f[1..] == f;
    }
  }

  /** A trailing separator adds one empty field at the end. */
  lemma {:induction false} SplitTrailingSeparator(s: string, sep: char)
    ensures Split(s + [sep], sep) == Split(s, sep) + [""]
  {
    if s == [] {
      var t: string := [sep];
      assert t[1..] == [];
    } else {
      assert (s + [sep])[1..] == s[1..] + [sep];
      SplitTrailingSeparator(s[1..], sep);
    }
  }

  /** Splitting undoes joining fields that do not contain the separator. */
  lemma {:induction false} SplitJoin(fields: seq<string>, sep: char)
    requires |fields| >= 1
    requires forall i :: 0 <= i < |fields| ==> sep !in fields[i]
    ensures Split(Join(fields, sep), sep) == fields
  {
    if |fields| == 1 {
      SplitNoSeparator(fields[0], sep);
    } else {
      SplitJoin(fields[1..], sep);
      SplitAfterField(fields[0], sep, Join(fields[1..], sep));
      assert [fields[0]] + fields[1..] == fields;
    }
  }

  lemma Join4(a: string, b: string, c: string, d: string, sep: char)
    ensures Join([a, b, c, d], sep) == a + [sep] + b + [sep] + c + [sep] + d
  {
    var fs := [a, b, c, d];
    assert fs[1..][1..][1..] == [d];
    assert Join(fs[1..][1..], sep) == c + [sep] + d;
    assert Join(fs[1..], sep) == b + [sep] + (c + [sep] + d);
  }

  /** SplitJoin for four fields. */
  lemma SplitJoin4(a: string, b: string, c: string, d: string, sep: char)
    requires sep !in a && sep !in b && sep !in c && sep !in d
    ensures Split(Join([a, b, c, d], sep), sep) == [a, b, c, d]
  {
    var fs := [a, b, c, d];
    forall i | 0 <= i < |fs|
      ensures sep !in fs[i]
    {
      assert i == 0 || i == 1 || i == 2 || i == 3;
      if i == 0 { assert fs[i] == a; }
      else if i == 1 { assert fs[i] == b; }
      else if i == 2 { assert fs[i] == c; }
      else { assert fs[i] == d; }
    }
    SplitJoin(fs, sep);
  }

  // ---------------------------------------------------------------------
  // strings.TrimSpace
  // ---------------------------------------------------------------------

  /** `unicode.IsSpace`: the ASCII white space characters and the Unicode
      White_Space code points. */
  predicate IsSpace(c: char)
  {
    var k := c as int;
    k == 0x20 || (0x09 <= k <= 0x0D) || k == 0x85 || k == 0xA0 || k == 0x1680
    || (0x2000 <= k <= 0x200A) || k == 0x2028 || k == 0x2029 || k == 0x202F
    || k == 0x205F || k == 0x3000
  }

  function TrimLeft(s: string): string
  {
    if s != [] && IsSpace(s[0]) then TrimLeft(s[1..]) else s
  }

  function TrimRight(s: string): string
  {
    if s != [] && IsSpace(s[|s| - 1]) then TrimRight(s[..|s| - 1]) else s
  }

  /** TrimLeft drops exactly the leading white space. */
  lemma {:induction false} TrimLeftShape(s: string)
    ensures var t := TrimLeft(s);
      && |t| <= |s| && t == s[|s| - |t|..]
      && (forall i :: 0 <= i < |s| - |t| ==> IsSpace(s[i]))
      && (t == [] || !IsSpace(t[0]))
  {
    if s != [] && IsSpace(s[0]) {
      TrimLeftShape(s[1..]);
      var t := TrimLeft(s);
      assert forall i :: 1 <= i < |s| ==> s[i] == s[1..][i - 1];
      assert s[1..][|s| - 1 - |t|..] == s[|s| - |t|..];
    }
  }

  /** TrimRight drops exactly the trailing white space. */
  lemma {:induction false} TrimRightShape(s: string)
    ensures var t := TrimRight(s);
      && |t| <= |s| && t == s[..|t|]
      && (forall i :: |t| <= i < |s| ==> IsSpace(s[i]))
      && (t == [] || !IsSpace(t[|t| - 1]))
  {
    if s != [] && IsSpace(s[|s| - 1]) {
      TrimRightShape(s[..|s| - 1]);
      var t := TrimRight(s);
      assert s[..|s| - 1][..|t|] == s[..|t|];
    }
  }

  /** `strings.TrimSpace`: `s` without its leading and trailing white space. */
  function TrimSpace(s: string): string
  {
    TrimRight(TrimLeft(s))
  }

  /** Text without white space at either end is left as it is. */
  lemma TrimSpaceNoSpace(s: string)
    requires s == [] || (!IsSpace(s[0]) && !IsSpace(s[|s| - 1]))
    ensures TrimSpace(s) == s
  {
  }

  predicate AllSpace(pad: string) { forall k :: 0 <= k < |pad| ==> IsSpace(pad[k]) }

  lemma {:induction false} TrimLeftSpaces(sp: string, t: string)
    requires forall i :: 0 <= i < |sp| ==> IsSpace(sp[i])
    requires t != [] && !IsSpace(t[0])
    ensures TrimLeft(sp + t) == t
  {
    if sp != [] {
      assert (sp + t)[1..] == sp[1..] + t;
      TrimLeftSpaces(sp[1..], t);
    }
  }

  lemma {:induction false} TrimRightSpaces(t: string, sp: string)
    requires forall i :: 0 <= i < |sp| ==> IsSpace(sp[i])
    requires t != [] && !IsSpace(t[|t| - 1])
    ensures TrimRight(t + sp) == t
  {
    if sp != [] {
      assert (t + sp)[..|t + sp| - 1] == t + sp[..|sp| - 1];
      TrimRightSpaces(t, sp[..|sp| - 1]);
    }
  }

  /** Padding before a field without white space at either end is trimmed away. */
  lemma TrimmedField(pad: string, f: string)
    requires AllSpace(pad) && f != [] && !IsSpace(f[0]) && !IsSpace(f[|f| - 1])
    ensures TrimSpace(pad + f) == f
  {
    TrimLeftSpaces(pad, f);
    assert TrimLeft(pad + f) == f;
    TrimSpaceNoSpace(f);
  }

  // ---------------------------------------------------------------------
  // strconv.Atoi
  // ---------------------------------------------------------------------

  /** `strconv.Atoi`: an optional sign then one or more decimal digits, whose
      value must fit Go's 64-bit `int`; anything else is an error (None). */
  function Atoi(s: string): (r: Option<int>)
    ensures r.Some? ==> MinInt64 <= r.value <= MaxInt64
  {
    var signed := |s| > 0 && (s[0] == '+' || s[0] == '-');
    var digits := if signed then s[1..] else s;
    if digits == [] || !AllDigits(digits) then None
    else
      var v: int := if signed && s[0] == '-' then -(DigitsValue(digits) as int) else DigitsValue(digits);
      if MinInt64 <= v <= MaxInt64 then Some(v) else None
  }

  /** A signless, all-digit text is read as its decimal value. */
  lemma AtoiDigits(s: string)
    requires s != [] && AllDigits(s) && DigitsValue(s) <= MaxInt64
    ensures Atoi(s) == Some(DigitsValue(s))
  {
  }

  /** Atoi reads back what Decimal prints. */
  lemma AtoiDecimal(n: nat)
    requires n <= MaxInt64
    ensures Atoi(Decimal(n)) == Some(n)
  {
  }

  /** A text holding a character that is neither a digit nor a leading sign
      is not a number. */
  lemma AtoiRejectsNonDigit(s: string, i: nat)
    requires i < |s| && !IsDigit(s[i]) && !(i == 0 && (s[0] == '+' || s[0] == '-'))
    ensures Atoi(s) == None
  {
  }
}

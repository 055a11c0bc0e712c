/**
  Reading JSON numbers back: every layout of canonicalNumber denotes exactly the number it was made
  from (section 3.2.2.3 of RFC 8785).
 */
module JcsNumber {
  import opened Base
  import opened Jcs

  // ---------------------------------------------------------------------------
  // Reading a number literal
  // ---------------------------------------------------------------------------

  /** A number as JSON writes it: whole.fraction times ten to the exponent. */
  datatype Literal = Literal(neg: bool, whole: string, fraction: string, exponent: int)

  predicate ValidLiteral(x: Literal) {
    AllDigits(x.whole) && AllDigits(x.fraction)
  }

  /** The length of the run of digits at the front. */
  function Run(s: string): (n: nat)
    ensures n <= |s| && AllDigits(s[..n]) && (n < |s| ==> !IsDigit(s[n]))
  {
    if s == "" || !IsDigit(s[0]) then 0 else 1 + Run(s[1..])
  }

  lemma {:induction false} RunIsLongest(d: string, rest: string)
    requires AllDigits(d) && (rest == "" || !IsDigit(rest[0]))
    ensures Run(d + rest) == |d|
    decreases |d|
  {
    if d == "" {
      assert d + rest == rest;
    } else {
      assert (d + rest)[1..] == d[1..] + rest;
      RunIsLongest(d[1..], rest);
    }
  }

  function NatOf(s: string): nat
    requires AllDigits(s)
  {
    if s == "" then 0 else NatOf(s[..|s| - 1]) * 10 + (s[|s| - 1] as int - '0' as int)
  }

  lemma {:induction false} ItoaReadsBack(n: nat)
    ensures NatOf(Itoa(n)) == n
    decreases n
  {
    if n >= 10 {
      ItoaReadsBack(n / 10);
      assert Itoa(n)[..|Itoa(n)| - 1] == Itoa(n / 10);
    } else {
      assert Itoa(n)[..0] == "";
    }
  }

  function ReadFraction(s: string): (r: Option<(string, string)>)
    ensures r.Some? ==> |r.value.1| <= |s| && AllDigits(r.value.0)
  {
    if s == "" || s[0] != '.' then Some(("", s))
    else if Run(s[1..]) == 0 then None
    else Some((s[1..][..Run(s[1..])], s[1..][Run(s[1..])..]))
  }

  function ReadSigned(s: string): (r: Option<(int, string)>)
    ensures r.Some? ==> |r.value.1| < |s|
  {
    var neg := s != "" && s[0] == '-';
    var t := if s != "" && s[0] in "+-" then s[1..] else s;
    if Run(t) == 0 then None
    else
      var magnitude: int := NatOf(t[..Run(t)]);
      Some((if neg then -magnitude else magnitude, t[Run(t)..]))
  }

  function ReadExponent(s: string): (r: Option<(int, string)>)
    ensures r.Some? ==> |r.value.1| <= |s|
  {
    if s == "" || s[0] !in "eE" then Some((0, s)) else ReadSigned(s[1..])
  }

  function ReadUnsigned(neg: bool, s: string): (r: Option<(Literal, string)>)
    ensures r.Some? ==> |r.value.1| < |s| && ValidLiteral(r.value.0)
  {
    var n := Run(s);
    if n == 0 || (n > 1 && s[0] == '0') then None
    else
      match ReadFraction(s[n..])
      case None => None
      case Some((fraction, t)) =>
        match ReadExponent(t)
        case None => None
        case Some((exponent, rest)) => Some((Literal(neg, s[..n], fraction, exponent), rest))
  }

  function ReadLiteral(s: string): (r: Option<(Literal, string)>)
    ensures r.Some? ==> |r.value.1| < |s| && ValidLiteral(r.value.0)
  {
    if s != "" && s[0] == '-' then ReadUnsigned(true, s[1..]) else ReadUnsigned(false, s)
  }

  // ---------------------------------------------------------------------------
  // Reading back what was written
  // ---------------------------------------------------------------------------

  function FractionText(fraction: string): string {
    if fraction == "" then "" else "." + fraction
  }

  function ExponentText(exponent: Option<int>): string {
    match exponent
    case None => ""
    case Some(e) => "e" + if e < 0 then "-" + Itoa(-e) else "+" + Itoa(e)
  }

  /** What follows a number in a JSON text. */
  predicate Ends(rest: string) {
    rest == "" || (!IsDigit(rest[0]) && rest[0] !in ".eE")
  }

  lemma ReadFractionBack(fraction: string, rest: string)
    requires AllDigits(fraction) && (rest == "" || (!IsDigit(rest[0]) && rest[0] != '.'))
    ensures ReadFraction(FractionText(fraction) + rest) == Some((fraction, rest))
  {
    if fraction != "" {
      var s := FractionText(fraction) + rest;
      assert s[1..] == fraction + rest;
      RunIsLongest(fraction, rest);
      assert (fraction + rest)[..|fraction|] == fraction && (fraction + rest)[|fraction|..] == rest;
    } else {
      assert FractionText(fraction) + rest == rest;
    }
  }

  lemma RunSplits(digits: string, rest: string)
    requires AllDigits(digits) && (rest == "" || !IsDigit(rest[0]))
    ensures var s := digits + rest; Run(s) == |digits| && s[..Run(s)] == digits && s[Run(s)..] == rest
  {
    RunIsLongest(digits, rest);
  }

  lemma ReadSignedBack(neg: bool, digits: string, rest: string)
    requires digits != "" && AllDigits(digits) && (rest == "" || !IsDigit(rest[0]))
    ensures var magnitude: int := NatOf(digits);
            ReadSigned((if neg then "-" else "+") + (digits + rest)) == Some((if neg then -magnitude else magnitude, rest))
  {
    hide Run, NatOf;
    var t := digits + rest;
    RunSplits(digits, rest);
    if neg {
      assert ("-" + t)[1..] == t;
    } else {
      assert ("+" + t)[1..] == t;
    }
  }

  lemma JoinSigned(sign: string, digits: string, rest: string)
    ensures ("e" + (sign + digits)) + rest == "e" + (sign + (digits + rest))
    ensures ("e" + (sign + (digits + rest)))[1..] == sign + (digits + rest)
  {
  }

  lemma ReadExponentBack(exponent: Option<int>, rest: string)
    requires Ends(rest)
    ensures ReadExponent(ExponentText(exponent) + rest) == Some((if exponent.Some? then exponent.value else 0, rest))
  {
    hide ReadSigned, Itoa, NatOf;
    match exponent
    case None =>
      assert ExponentText(exponent) + rest == rest;
    case Some(e) =>
      var magnitude := if e < 0 then -e else e;
      JoinSigned(if e < 0 then "-" else "+", Itoa(magnitude), rest);
      ReadSignedBack(e < 0, Itoa(magnitude), rest);
      ItoaReadsBack(magnitude);
  }

  lemma ReadUnsignedBack(neg: bool, whole: string, fraction: string, exponent: Option<int>, rest: string)
    requires AllDigits(whole) && whole != "" && (whole[0] == '0' ==> |whole| == 1) && AllDigits(fraction) && Ends(rest)
    ensures var text := whole + (FractionText(fraction) + (ExponentText(exponent) + rest));
            ReadUnsigned(neg, text) == Some((Literal(neg, whole, fraction, if exponent.Some? then exponent.value else 0), rest))
  {
    var after := ExponentText(exponent) + rest;
    var tail := FractionText(fraction) + after;
    RunIsLongest(whole, tail);
    assert (whole + tail)[..|whole|] == whole && (whole + tail)[|whole|..] == tail;
    ReadFractionBack(fraction, after);
    ReadExponentBack(exponent, rest);
  }

  // ---------------------------------------------------------------------------
  // The layouts
  // ---------------------------------------------------------------------------

  /** The three parts of Layout(digits, n). */
  function Parts(digits: Digits, n: int): (string, string, Option<int>) {
    var k := |digits|;
    if k <= n <= 21 then (digits + Zeros(n - k), "", None)
    else if 0 < n <= 21 then (digits[..n], digits[n..], None)
    else if -6 < n <= 0 then ("0", Zeros(-n) + digits, None)
    else (digits[..1], digits[1..], Some(n - 1))
  }

  lemma DigitsConcat(a: string, b: string)
    requires AllDigits(a) && AllDigits(b)
    ensures AllDigits(a + b)
  {
  }

  lemma DigitsSplit(s: string, i: nat)
    requires AllDigits(s) && i <= |s|
    ensures AllDigits(s[..i]) && AllDigits(s[i..])
  {
  }

  lemma PartsAreDigits(digits: Digits, n: int)
    ensures var (whole, fraction, exponent) := Parts(digits, n);
            && AllDigits(whole) && whole != "" && (whole[0] == '0' ==> |whole| == 1) && AllDigits(fraction)
  {
    var k := |digits|;
    if k <= n <= 21 {
      DigitsConcat(digits, Zeros(n - k));
    } else if 0 < n <= 21 {
      DigitsSplit(digits, n);
    } else if -6 < n <= 0 {
      DigitsConcat(Zeros(-n), digits);
    } else {
      DigitsSplit(digits, 1);
    }
  }

  lemma LayoutHasParts(digits: Digits, n: int)
    ensures var (whole, fraction, exponent) := Parts(digits, n);
            Layout(digits, n) == whole + (FractionText(fraction) + ExponentText(exponent))
  {
    var (whole, fraction, exponent) := Parts(digits, n);
    if -6 < n <= 21 {
      assert FractionText(fraction) + "" == FractionText(fraction);
      if |digits| <= n {
        assert whole + "" == whole;
      } else if n <= 0 {
        assert "0" + ("." + fraction) == "0." + fraction;
        assert "0." + Zeros(-n) + digits == "0." + fraction;
      } else {
        assert whole + ("." + fraction) == whole + "." + fraction;
      }
    } else {
      var tail := if n - 1 < 0 then "-" + Itoa(1 - n) else "+" + Itoa(n - 1);
      assert ExponentText(exponent) == "e" + tail;
      assert FractionText(fraction) == if |digits| > 1 then "." + digits[1..] else "";
      JoinExponent(whole, FractionText(fraction), tail);
    }
  }

  lemma JoinExponent(whole: string, fraction: string, tail: string)
    ensures whole + fraction + "e" + tail == whole + (fraction + ("e" + tail))
  {
  }

  /** The literal a canonical number is read as. */
  function LiteralOf(neg: bool, digits: Digits, n: int): Literal {
    var (whole, fraction, exponent) := Parts(digits, n);
    Literal(neg, whole, fraction, if exponent.Some? then exponent.value else 0)
  }

  lemma LayoutReadsBack(neg: bool, digits: Digits, n: int, rest: string)
    requires Ends(rest)
    ensures ReadLiteral((if neg then "-" else "") + Layout(digits, n) + rest) == Some((LiteralOf(neg, digits, n), rest))
  {
    var (whole, fraction, exponent) := Parts(digits, n);
    LayoutHasParts(digits, n);
    PartsAreDigits(digits, n);
    ReadUnsignedBack(neg, whole, fraction, exponent, rest);
    JoinRest(whole, FractionText(fraction), ExponentText(exponent), rest);
    SignedText(neg, Layout(digits, n), rest, whole);
  }

  lemma JoinRest(whole: string, fraction: string, exponent: string, rest: string)
    ensures (whole + (fraction + exponent)) + rest == whole + (fraction + (exponent + rest))
  {
  }

  lemma SignedText(neg: bool, body: string, rest: string, whole: string)
    requires whole != "" && whole <= body && AllDigits(whole)
    ensures ReadLiteral((if neg then "-" else "") + body + rest) == ReadUnsigned(neg, body + rest)
  {
    if neg {
      assert ("-" + body + rest)[1..] == body + rest;
    } else {
      assert "" + body + rest == body + rest;
      assert (body + rest)[0] == whole[0];
    }
  }

  // ---------------------------------------------------------------------------
  // What a literal denotes
  // ---------------------------------------------------------------------------

  /** x times ten to the z. */
  ghost function Shifted(x: nat, z: int): real
    decreases if z < 0 then -z else z
  {
    if z == 0 then x as real else if z > 0 then 10.0 * Shifted(x, z - 1) else Shifted(x, z + 1) / 10.0
  }

  /** The number a literal stands for. */
  ghost function Denotes(x: Literal): real
    requires ValidLiteral(x)
  {
    var magnitude := Shifted(NatOf(x.whole + x.fraction), x.exponent - |x.fraction|);
    if x.neg then -magnitude else magnitude
  }

  lemma ShiftedDigit(d: string, m: nat)
    requires AllDigits(d) && m > 0
    ensures AllDigits(d + Zeros(m)) && AllDigits(d + Zeros(m - 1))
    ensures NatOf(d + Zeros(m)) == NatOf(d + Zeros(m - 1)) * 10
  {
    DigitsConcat(d, Zeros(m));
    DigitsConcat(d, Zeros(m - 1));
    var s := d + Zeros(m);
    assert s[..|s| - 1] == d + Zeros(m - 1);
  }

  lemma {:induction false} TrailingZeros(d: string, m: nat)
    requires AllDigits(d)
    ensures AllDigits(d + Zeros(m)) && NatOf(d + Zeros(m)) as real == Shifted(NatOf(d), m)
    decreases m
  {
    if m == 0 {
      assert d + Zeros(0) == d;
    } else {
      TrailingZeros(d, m - 1);
      ShiftedDigit(d, m);
    }
  }

  lemma {:induction false} LeadingZeros(m: nat, d: string)
    requires AllDigits(d)
    ensures AllDigits(Zeros(m) + d) && NatOf(Zeros(m) + d) == NatOf(d)
    decreases m + |d|
  {
    DigitsConcat(Zeros(m), d);
    if d != "" {
      assert (Zeros(m) + d)[..m + |d| - 1] == Zeros(m) + d[..|d| - 1];
      LeadingZeros(m, d[..|d| - 1]);
    } else if m > 0 {
      assert (Zeros(m) + "")[..m - 1] == Zeros(m - 1) + "";
      LeadingZeros(m - 1, "");
    }
  }

  // All digits of the layout, and where its point stands.
  lemma LayoutDigits(neg: bool, digits: Digits, n: int)
    ensures var x := LiteralOf(neg, digits, n);
            && ValidLiteral(x) && x.neg == neg
            && x.whole + x.fraction == (if |digits| <= n <= 21 then digits + Zeros(n - |digits|)
                                        else if -6 < n <= 0 then Zeros(1 - n) + digits else digits)
            && |x.whole| + x.exponent == (if -6 < n <= 0 then 1 else n)
  {
    PartsAreDigits(digits, n);
    if -6 < n <= 0 {
      assert "0" + (Zeros(-n) + digits) == Zeros(1 - n) + digits;
    } else if |digits| <= n <= 21 {
      assert digits + Zeros(n - |digits|) + "" == digits + Zeros(n - |digits|);
    }
  }

  /** Each of the four layouts denotes exactly digits times ten to the n - k. */
  lemma LayoutDenotes(neg: bool, digits: Digits, n: int)
    ensures ValidLiteral(LiteralOf(neg, digits, n))
    ensures var magnitude := Shifted(NatOf(digits), n - |digits|);
            Denotes(LiteralOf(neg, digits, n)) == if neg then -magnitude else magnitude
  {
    LayoutDigits(neg, digits, n);
    var x, k := LiteralOf(neg, digits, n), |digits|;
    if k <= n <= 21 {
      TrailingZeros(digits, n - k);
    } else if -6 < n <= 0 {
      LeadingZeros(1 - n, digits);
    }
  }

  // ---------------------------------------------------------------------------
  // Back to sign, digits and exponent
  // ---------------------------------------------------------------------------

  function DropZeros(s: string): (r: string)
    ensures |r| <= |s| && (r == "" || r[0] != '0')
  {
    if s == "" || s[0] != '0' then s else DropZeros(s[1..])
  }

  function TrimZeros(s: string): (r: string)
    ensures |r| <= |s| && r == s[..|r|] && (r == "" || r[|r| - 1] != '0')
  {
    if s == "" || s[|s| - 1] != '0' then s else TrimZeros(s[..|s| - 1])
  }

  lemma {:induction false} DropsZeros(m: nat, d: string)
    requires d != "" && d[0] != '0'
    ensures DropZeros(Zeros(m) + d) == d
    decreases m
  {
    if m == 0 {
      assert Zeros(0) + d == d;
    } else {
      assert (Zeros(m) + d)[1..] == Zeros(m - 1) + d;
      DropsZeros(m - 1, d);
    }
  }

  lemma {:induction false} TrimsZeros(d: string, m: nat)
    requires d != "" && d[|d| - 1] != '0'
    ensures TrimZeros(d + Zeros(m)) == d
    decreases m
  {
    if m == 0 {
      assert d + Zeros(0) == d;
    } else {
      var s := d + Zeros(m);
      assert s[..|s| - 1] == d + Zeros(m - 1);
      TrimsZeros(d, m - 1);
    }
  }

  lemma {:induction false} DigitsStay(s: string)
    requires AllDigits(s)
    ensures AllDigits(DropZeros(s)) && AllDigits(TrimZeros(s))
    ensures s != "" && s[0] != '0' ==> TrimZeros(s) != "" && TrimZeros(s)[0] == s[0]
    decreases |s|
  {
    if s != "" {
      if s[0] == '0' {
        DigitsStay(s[1..]);
      }
      if s[|s| - 1] == '0' {
        DigitsStay(s[..|s| - 1]);
      }
    }
  }

  /** The number of a literal: no zeros at either end of the digits. */
  function Normalize(x: Literal): Number
    requires ValidLiteral(x)
  {
    var all := x.whole + x.fraction;
    var significant := DropZeros(all);
    if significant == "" then Zero
    else
      assert Shortest(TrimZeros(significant)) by { DigitsStay(all); DigitsStay(significant); }
      Finite(x.neg, TrimZeros(significant), |x.whole| + x.exponent - (|all| - |significant|) - 1)
  }

  lemma Normalized(x: Literal, significant: string, digits: Digits)
    requires ValidLiteral(x) && DropZeros(x.whole + x.fraction) == significant && TrimZeros(significant) == digits
    ensures Normalize(x) == Finite(x.neg, digits, |x.whole| + x.exponent - (|x.whole + x.fraction| - |significant|) - 1)
  {
    hide DropZeros, TrimZeros;
  }

  lemma ShortestStays(digits: Digits)
    ensures DropZeros(digits) == digits && TrimZeros(digits) == digits
  {
  }

  // The digits of a layout once the zeros in front are dropped.
  function Significant(digits: Digits, n: int): string {
    if |digits| <= n <= 21 then digits + Zeros(n - |digits|) else digits
  }

  lemma SignificantDigits(digits: Digits, n: int, all: string)
    requires all == (if |digits| <= n <= 21 then digits + Zeros(n - |digits|) else if -6 < n <= 0 then Zeros(1 - n) + digits else digits)
    ensures DropZeros(all) == Significant(digits, n) && TrimZeros(Significant(digits, n)) == digits
  {
    hide AllDigits;
    ShortestStays(digits);
    if |digits| <= n <= 21 {
      TrimsZeros(digits, n - |digits|);
    } else if -6 < n <= 0 {
      DropsZeros(1 - n, digits);
    }
  }

  lemma NormalizeLayout(neg: bool, digits: Digits, exponent: int)
    ensures ValidLiteral(LiteralOf(neg, digits, exponent + 1))
    ensures Normalize(LiteralOf(neg, digits, exponent + 1)) == Finite(neg, digits, exponent)
  {
    hide DropZeros, TrimZeros, Normalize, LiteralOf, AllDigits;
    var n := exponent + 1;
    var x := LiteralOf(neg, digits, n);
    LayoutDigits(neg, digits, n);
    SignificantDigits(digits, n, x.whole + x.fraction);
    Normalized(x, Significant(digits, n), digits);
  }

  function ReadNumber(s: string): (r: Option<(Number, string)>)
    ensures r.Some? ==> |r.value.1| < |s|
  {
    match ReadLiteral(s)
    case None => None
    case Some((x, rest)) => Some((Normalize(x), rest))
  }

  lemma ZeroReadsBack(rest: string)
    requires Ends(rest)
    ensures ReadNumber("0" + rest) == Some((Zero, rest))
  {
    hide ReadUnsigned;
    ReadUnsignedBack(false, "0", "", None, rest);
    assert "0" + ("" + ("" + rest)) == "0" + rest;
    assert DropZeros("0") == DropZeros("0"[1..]);
  }

  /** Reading a canonical number back recovers its sign, digits and exponent, whatever follows it. */
  lemma NumberReadsBack(x: Number, rest: string)
    requires IsJsonNumber(x) && Ends(rest)
    ensures ReadNumber(NumberText(x) + rest) == Some((x, rest))
  {
    match x
    case Zero => ZeroReadsBack(rest);
    case Finite(neg, digits, exponent) =>
      hide ReadLiteral, Layout, LiteralOf, Normalize;
      LayoutReadsBack(neg, digits, exponent + 1, rest);
      NormalizeLayout(neg, digits, exponent);
  }

  // ---------------------------------------------------------------------------
  // Which of the layouts that denote a number is chosen
  // ---------------------------------------------------------------------------

  lemma ItoaForm(n: nat)
    ensures Itoa(n)[0] == '0' <==> n == 0
  {
    if n >= 10 {
      ItoaForm(n / 10);
    }
  }

  predicate Plain(s: string) {
    forall i :: 0 <= i < |s| ==> s[i] !in "e.+-"
  }

  lemma DigitsArePlain(s: string)
    requires AllDigits(s)
    ensures Plain(s)
  {
  }

  /**
    The form ECMAScript prescribes for 0.digits times ten to the n: an exponent exactly from 10^21 on
    and below 10^-6, with its sign and no leading zero, behind one digit; otherwise a leading zero
    exactly below one; a point exactly when digits follow it, and no zero at the end of those.
   */
  ghost predicate Prescribed(t: string, k: nat, n: int) {
    && t != ""
    && ('e' in t <==> n > 21 || n <= -6)
    && ('.' in t <==> if n > 21 || n <= -6 then k > 1 else n < k)
    && ('+' in t <==> n > 21) && ('-' in t <==> n <= -6)
    && (t[0] == '0' <==> -6 < n <= 0)
    && (n > 21 || n <= -6 ==> |t| > 1 && t[1] in ".e")
    && (-6 < n <= 0 ==> |t| == k + 2 - n && t[1] == '.')
    && (0 < n <= 21 ==> |t| == if n < k then k + 1 else n)
    && (0 < n <= 21 && n < k ==> t[n] == '.')
    && ('.' in t && 'e' !in t ==> t[|t| - 1] != '0')
  }

  lemma Contains(c: char, a: string, b: string)
    ensures c in a + b <==> c in a || c in b
  {
  }

  lemma Whole(digits: Digits, n: int)
    requires |digits| <= n <= 21
    ensures Prescribed(Layout(digits, n), |digits|, n)
  {
    var t := Layout(digits, n);
    assert t == digits + Zeros(n - |digits|) && AllDigits(t);
  }

  lemma Mixed(digits: Digits, n: int)
    requires 0 < n < |digits| && n <= 21
    ensures Prescribed(Layout(digits, n), |digits|, n)
  {
    var t, k := Layout(digits, n), |digits|;
    assert t == digits[..n] + "." + digits[n..] && t[n] == '.' && t[k] == digits[k - 1];
    forall i | 0 <= i < |t| && i != n ensures IsDigit(t[i]) {
      assert t[i] == if i < n then digits[i] else digits[i - 1];
    }
  }

  lemma Small(digits: Digits, n: int)
    requires -6 < n <= 0
    ensures Prescribed(Layout(digits, n), |digits|, n)
  {
    var t, k := Layout(digits, n), |digits|;
    assert t == "0." + Zeros(-n) + digits && t[1] == '.' && t[0] == '0' && t[|t| - 1] == digits[k - 1];
    forall i | 0 <= i < |t| && i != 1 ensures IsDigit(t[i]) {
    }
  }

  function Mantissa(digits: Digits): string {
    digits[..1] + (if |digits| > 1 then "." + digits[1..] else "")
  }

  lemma ScientificText(digits: Digits, n: int)
    requires n > 21 || n <= -6
    ensures Layout(digits, n) == Mantissa(digits) + ("e" + ((if n > 21 then "+" else "-") + Itoa(if n > 21 then n - 1 else 1 - n)))
  {
    hide Itoa;
  }

  lemma Scientific(digits: Digits, n: int)
    requires n > 21 || n <= -6
    ensures Prescribed(Layout(digits, n), |digits|, n)
  {
    ScientificText(digits, n);
    ScientificMarks(digits);
    var power := Itoa(if n > 21 then n - 1 else 1 - n);
    DigitsArePlain(power);
    hide Layout, Itoa;
    var sign := if n > 21 then "+" else "-";
    SplitForm(Layout(digits, n), Mantissa(digits), sign, power, |digits|, n);
  }

  lemma SplitForm(t: string, mantissa: string, sign: string, power: string, k: nat, n: int)
    requires (n > 21 || n <= -6) && k > 0 && t == mantissa + ("e" + (sign + power)) && sign == (if n > 21 then "+" else "-")
    requires Plain(power) && |mantissa| == (if k > 1 then k + 1 else 1) && mantissa[0] != '0' && (k > 1 ==> mantissa[1] == '.')
    requires ('.' in mantissa <==> k > 1) && 'e' !in mantissa && '+' !in mantissa && '-' !in mantissa
    ensures Prescribed(t, k, n)
  {
    Contains('e', mantissa, "e" + (sign + power));
    Contains('.', mantissa, "e" + (sign + power));
    Contains('+', mantissa, "e" + (sign + power));
    Contains('-', mantissa, "e" + (sign + power));
    assert t[|mantissa|] == 'e' && ("e" + (sign + power))[0] == 'e' && ("e" + (sign + power))[1] == sign[0];
    forall i | 2 <= i < |power| + 2 ensures ("e" + (sign + power))[i] == power[i - 2] {
    }
  }

  lemma ScientificMarks(digits: Digits)
    ensures var k, mantissa := |digits|, Mantissa(digits);
            && ('.' in mantissa <==> k > 1) && 'e' !in mantissa && '+' !in mantissa && '-' !in mantissa
            && |mantissa| == (if k > 1 then k + 1 else 1) && mantissa[0] != '0' && (k > 1 ==> mantissa[1] == '.')
  {
    var mantissa := Mantissa(digits);
    forall i | 0 <= i < |mantissa| && i != 1 ensures IsDigit(mantissa[i]) {
      assert mantissa[i] == if i == 0 then digits[0] else digits[i - 1];
    }
  }

  lemma LayoutForm(digits: Digits, n: int)
    ensures Prescribed(Layout(digits, n), |digits|, n)
  {
    hide Layout, Prescribed;
    if |digits| <= n <= 21 {
      Whole(digits, n);
    } else if 0 < n <= 21 {
      Mixed(digits, n);
    } else if -6 < n <= 0 {
      Small(digits, n);
    } else {
      Scientific(digits, n);
    }
  }

  /** The canonical number has the prescribed form; zero, of either sign, is written 0. */
  lemma NumberForm(x: Number)
    requires IsJsonNumber(x)
    ensures match x
            case Zero => NumberText(x) == "0"
            case Finite(neg, digits, exponent) =>
              && (neg ==> NumberText(x) != "" && NumberText(x)[0] == '-')
              && Prescribed(if neg then NumberText(x)[1..] else NumberText(x), |digits|, exponent + 1)
  {
    hide Layout, Prescribed;
    if x.Finite? {
      var text := Layout(x.digits, x.exponent + 1);
      LayoutForm(x.digits, x.exponent + 1);
      assert x.neg ==> NumberText(x) == "-" + text && NumberText(x)[1..] == text;
      assert !x.neg ==> NumberText(x) == "" + text == text;
    }
  }

  /** An exponent has no leading zero. */
  lemma ExponentForm(digits: Digits, n: int)
    requires n > 21 || n <= -6
    ensures var t, at := Layout(digits, n), if |digits| > 1 then |digits| + 1 else 1;
            at + 2 < |t| && t[at] == 'e' && t[at + 1] == (if n > 21 then '+' else '-') && t[at + 2] != '0'
  {
    ScientificText(digits, n);
    ScientificMarks(digits);
    ItoaForm(if n > 21 then n - 1 else 1 - n);
    hide Layout, Itoa, Mantissa;
    var tail := "e" + ((if n > 21 then "+" else "-") + Itoa(if n > 21 then n - 1 else 1 - n));
    assert tail[2] == Itoa(if n > 21 then n - 1 else 1 - n)[0];
  }
}

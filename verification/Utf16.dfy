/** Ordering object keys by UTF-16 code units: utf16Less in internal/provenance/provenance.go. */
module Utf16 {

  // A Dafny char is a Unicode scalar value, as are the runes of a decoded JSON string.

  type Unit = n: int | 0 <= n < 0x10000

  /** utf16.Encode for one rune. */
  function Units(c: char): (u: seq<Unit>)
    ensures 1 <= |u| <= 2
  {
    if c as int < 0x10000 then [c as int]
    else [0xD800 + (c as int - 0x10000) / 0x400, 0xDC00 + (c as int - 0x10000) % 0x400]
  }

  function Encode(s: string): (u: seq<Unit>)
    ensures |s| <= |u|
  {
    if s == "" then [] else Units(s[0]) + Encode(s[1..])
  }

  // Reads one rune back from the front.
  lemma UnitsInjective(c: char, d: char, x: seq<Unit>, y: seq<Unit>)
    requires Units(c) + x == Units(d) + y
    ensures c == d && x == y
  {
    assert (Units(c) + x)[0] == Units(c)[0] && (Units(d) + y)[0] == Units(d)[0];
    if c as int >= 0x10000 && d as int >= 0x10000 {
      assert (Units(c) + x)[1] == Units(c)[1] && (Units(d) + y)[1] == Units(d)[1];
    }
    assert c == d;
    assert x == (Units(c) + x)[|Units(c)|..] && y == (Units(d) + y)[|Units(d)|..];
  }

  lemma {:induction false} EncodeInjective(s: string, t: string)
    requires Encode(s) == Encode(t)
    ensures s == t
    decreases |s|
  {
    if s != "" && t != "" {
      UnitsInjective(s[0], t[0], Encode(s[1..]), Encode(t[1..]));
      EncodeInjective(s[1..], t[1..]);
      assert s == [s[0]] + s[1..] && t == [t[0]] + t[1..];
    }
  }

  /** Lexicographic order on code units: a proper prefix comes first. */
  predicate LexLess(x: seq<Unit>, y: seq<Unit>) {
    y != [] && (x == [] || x[0] < y[0] || (x[0] == y[0] && LexLess(x[1..], y[1..])))
  }

  predicate Less(s: string, t: string) {
    LexLess(Encode(s), Encode(t))
  }

  lemma {:induction false} LexTotal(x: seq<Unit>, y: seq<Unit>)
    ensures LexLess(x, y) || LexLess(y, x) || x == y
    ensures !(LexLess(x, y) && LexLess(y, x))
    decreases |x|
  {
    if x != [] && y != [] {
      LexTotal(x[1..], y[1..]);
      assert x == [x[0]] + x[1..] && y == [y[0]] + y[1..];
    }
  }

  lemma {:induction false} LexTransitive(x: seq<Unit>, y: seq<Unit>, z: seq<Unit>)
    requires LexLess(x, y) && LexLess(y, z)
    ensures LexLess(x, z)
    decreases |x|
  {
    if x != [] && x[0] == y[0] && y[0] == z[0] {
      LexTransitive(x[1..], y[1..], z[1..]);
    }
  }

  /** utf16Less is a strict total order on keys. */
  lemma StrictTotalOrder(s: string, t: string, r: string)
    ensures !Less(s, s)
    ensures Less(s, t) && Less(t, r) ==> Less(s, r)
    ensures s != t ==> Less(s, t) != Less(t, s)
  {
    LexTotal(Encode(s), Encode(s));
    LexTotal(Encode(s), Encode(t));
    if Encode(s) == Encode(t) {
      EncodeInjective(s, t);
    }
    if Less(s, t) && Less(t, r) {
      LexTransitive(Encode(s), Encode(t), Encode(r));
    }
  }

  /** It is not the order of the code points: a surrogate pair sorts below the last rune of the basic plane. */
  lemma NotCodePointOrder()
    ensures var low, high := "\U{FFFF}", "\U{10000}";
            low[0] < high[0] && Less(high, low)
  {
    var low, high := "\U{FFFF}", "\U{10000}";
    assert low[1..] == "" && high[1..] == "";
    assert Encode(low) == [0xFFFF] && Encode(high) == [0xD800, 0xDC00];
  }

  // The first difference decides.
  lemma {:induction false} LexPrefix(x: seq<Unit>, y: seq<Unit>, i: nat)
    requires i <= |x| && i <= |y| && x[..i] == y[..i]
    ensures LexLess(x, y) <==> LexLess(x[i..], y[i..])
    decreases i
  {
    if i == 0 {
      assert x[0..] == x && y[0..] == y;
    } else {
      assert x[0] == x[..i][0] && y[0] == y[..i][0];
      assert x[1..][..i - 1] == x[..i][1..] && y[1..][..i - 1] == y[..i][1..];
      LexPrefix(x[1..], y[1..], i - 1);
      assert x[1..][i - 1..] == x[i..] && y[1..][i - 1..] == y[i..];
    }
  }

  /** utf16Less. */
  method Utf16Less(s: string, t: string) returns (less: bool)
    ensures less == Less(s, t)
  {
    var x, y := Encode(s), Encode(t);
    var i := 0;
    while i < |x| && i < |y|
      invariant i <= |x| && i <= |y| && x[..i] == y[..i]
    {
      if x[i] != y[i] {
        LexPrefix(x, y, i);
        return x[i] < y[i];
      }
      i := i + 1;
    }
    LexPrefix(x, y, i);
    return |x| < |y|;
  }

  // A character outside the basic plane, as its surrogate pair.
  lemma SurrogatePair()
    ensures Encode([0x1F600 as char]) == [0xD83D, 0xDE00]
  {
    assert Encode([0x1F600 as char]) == Units(0x1F600 as char) + Encode("");
  }
}

/**
  A parser that undoes the canonical printer, and what it proves: canonical texts are equal exactly
  when the values are (RFC 8785).
 */
module JcsParser {
  import opened Base
  import opened Utf16
  import opened Jcs
  import opened JcsNumber

  // ---------------------------------------------------------------------------
  // Strings
  // ---------------------------------------------------------------------------

  function HexValue(c: char): (r: Option<nat>)
    ensures r.Some? ==> r.value < 16
  {
    if '0' <= c <= '9' then Some(c as int - '0' as int)
    else if 'a' <= c <= 'f' then Some(c as int - 'a' as int + 10)
    else if 'A' <= c <= 'F' then Some(c as int - 'A' as int + 10)
    else None
  }

  /** Four hexadecimal digits that are not a surrogate. */
  function ReadHex(s: string): (r: Option<(char, string)>)
    ensures r.Some? ==> |r.value.1| < |s|
  {
    if |s| < 4 then None
    else
      match (HexValue(s[0]), HexValue(s[1]), HexValue(s[2]), HexValue(s[3]))
      case (Some(a), Some(b), Some(c), Some(d)) =>
        var code := ((a * 16 + b) * 16 + c) * 16 + d;
        if 0xD800 <= code < 0xE000 then None else Some((code as char, s[4..]))
      case _ => None
  }

  /** The rest of an escape sequence, after its backslash. */
  function ReadEscape(s: string): (r: Option<(char, string)>)
    ensures r.Some? ==> |r.value.1| < |s|
  {
    if s == "" then None
    else
      match s[0]
      case '"' => Some(('"', s[1..]))
      case '\\' => Some(('\\', s[1..]))
      case '/' => Some(('/', s[1..]))
      case 'b' => Some((8 as char, s[1..]))
      case 'f' => Some((12 as char, s[1..]))
      case 'n' => Some(('\n', s[1..]))
      case 'r' => Some(('\r', s[1..]))
      case 't' => Some(('\t', s[1..]))
      case 'u' => ReadHex(s[1..])
      case _ => None
  }

  /** The characters up to the closing quote. */
  function ReadChars(s: string): (r: Option<(string, string)>)
    ensures r.Some? ==> |r.value.1| < |s|
    decreases |s|
  {
    if s == "" || s[0] as int < 0x20 then None
    else if s[0] == '"' then Some(("", s[1..]))
    else
      match (if s[0] == '\\' then ReadEscape(s[1..]) else Some((s[0], s[1..])))
      case None => None
      case Some((c, t)) =>
        match ReadChars(t)
        case None => None
        case Some((chars, rest)) => Some(([c] + chars, rest))
  }

  lemma HexReadsBack(n: nat)
    requires n < 16
    ensures HexValue(HexDigit(n)) == Some(n)
  {
  }

  lemma EscapeReadsBack(c: char, t: string)
    ensures var s := Escape(c) + t;
            if s[0] == '\\' then ReadEscape(s[1..]) == Some((c, t)) else s[0] == c && s[0] as int >= 0x20 && s[0] != '"' && s[1..] == t
  {
    var s, e := Escape(c) + t, Escape(c);
    if |e| == 1 {
      assert s[1..] == t;
    } else if |e| == 2 {
      assert s[1..] == [e[1]] + t && s[1..][1..] == t;
    } else {
      HexReadsBack(c as int / 16);
      HexReadsBack(c as int % 16);
      var hex := "00" + [HexDigit(c as int / 16), HexDigit(c as int % 16)];
      assert s[1..] == "u" + (hex + t) && s[1..][1..] == hex + t && (hex + t)[4..] == t;
    }
  }

  lemma {:induction false} CharsReadBack(chars: string, rest: string)
    ensures ReadChars(Escaped(chars) + ("\"" + rest)) == Some((chars, rest))
    decreases |chars|
  {
    if chars == "" {
      assert Escaped(chars) + ("\"" + rest) == "\"" + rest;
    } else {
      var t := Escaped(chars[1..]) + ("\"" + rest);
      assert Escaped(chars) + ("\"" + rest) == Escape(chars[0]) + t;
      EscapeReadsBack(chars[0], t);
      CharsReadBack(chars[1..], rest);
      assert [chars[0]] + chars[1..] == chars;
    }
  }

  function ReadString(s: string): (r: Option<(string, string)>)
    ensures r.Some? ==> |r.value.1| < |s|
  {
    if s == "" || s[0] != '"' then None else ReadChars(s[1..])
  }

  lemma StringReadsBack(chars: string, rest: string)
    ensures ReadString(StringText(chars) + rest) == Some((chars, rest))
  {
    assert (StringText(chars) + rest)[1..] == Escaped(chars) + ("\"" + rest);
    CharsReadBack(chars, rest);
  }

  // ---------------------------------------------------------------------------
  // Of all texts of a string the canonical one is the shortest
  // ---------------------------------------------------------------------------

  /** No hexadecimal escape before the closing quote has an upper-case digit. */
  predicate LowerEscapes(s: string) {
    if s == "" || s[0] == '"' then true
    else if s[0] != '\\' then LowerEscapes(s[1..])
    else if |s| >= 6 && s[1] == 'u' then (forall i :: 2 <= i < 6 ==> s[i] !in "ABCDEF") && LowerEscapes(s[6..])
    else |s| < 2 || LowerEscapes(s[2..])
  }

  // One character, read from a text of s[..n], against the canonical way to write it.
  lemma EscapeIsShortest(s: string, c: char, t: string)
    requires s != "" && s[0] == '\\' && ReadEscape(s[1..]) == Some((c, t))
    ensures |s| > 1 && |Escape(c)| + |t| <= |s|
    ensures |Escape(c)| + |t| == |s| && (|s| >= 6 && s[1] == 'u' ==> forall i :: 2 <= i < 6 ==> s[i] !in "ABCDEF") ==> s == Escape(c) + t
  {
    if s[1] == 'u' {
      HexEscape(s, c, t);
    } else {
      var e := s[1..];
      assert t == e[1..] && s == [s[0], e[0]] + t;
      hide ReadHex;
    }
  }

  lemma FourDigits(s: string, c: char, t: string)
    requires |s| > 1 && s[1] == 'u' && ReadEscape(s[1..]) == Some((c, t))
    ensures |s| >= 6 && t == s[6..]
    ensures HexValue(s[2]).Some? && HexValue(s[3]).Some? && HexValue(s[4]).Some? && HexValue(s[5]).Some?
    ensures ((HexValue(s[2]).value * 16 + HexValue(s[3]).value) * 16 + HexValue(s[4]).value) * 16 + HexValue(s[5]).value == c as int
  {
    var h := s[1..][1..];
    hide HexValue;
    assert ReadHex(h) == Some((c, t));
    assert t == h[4..] && s[6..] == t;
    assert s[2] == h[0] && s[3] == h[1] && s[4] == h[2] && s[5] == h[3];
  }

  lemma LongEscape(c: char)
    ensures |Escape(c)| <= 6
    ensures |Escape(c)| == 6 ==> c as int < 0x20 && Escape(c) == "\\u00" + [HexDigit(c as int / 16), HexDigit(c as int % 16)]
  {
    hide HexDigit;
  }

  lemma HexEscape(s: string, c: char, t: string)
    requires |s| > 1 && s[0] == '\\' && s[1] == 'u' && ReadEscape(s[1..]) == Some((c, t))
    ensures |s| >= 6 && t == s[6..] && |Escape(c)| <= 6
    ensures |Escape(c)| == 6 && (forall i :: 2 <= i < 6 ==> s[i] !in "ABCDEF") ==> s == Escape(c) + t
  {
    FourDigits(s, c, t);
    LongEscape(c);
    hide HexValue, HexDigit, ReadEscape, ReadHex, Escape;
    if |Escape(c)| == 6 && forall i :: 2 <= i < 6 ==> s[i] !in "ABCDEF" {
      HexIsCanonical(s[2], s[3], s[4], s[5], c as int);
      assert s[..6] == Escape(c) && s == s[..6] + s[6..];
    }
  }

  lemma HexIsCanonical(a: char, b: char, c: char, d: char, code: nat)
    requires HexValue(a).Some? && HexValue(b).Some? && HexValue(c).Some? && HexValue(d).Some? && code < 0x20
    requires a !in "ABCDEF" && b !in "ABCDEF" && c !in "ABCDEF" && d !in "ABCDEF"
    requires ((HexValue(a).value * 16 + HexValue(b).value) * 16 + HexValue(c).value) * 16 + HexValue(d).value == code
    ensures a == '0' && b == '0' && c == HexDigit(code / 16) && d == HexDigit(code % 16)
  {
    HexIsDigit(a);
    HexIsDigit(b);
    HexIsDigit(c);
    HexIsDigit(d);
  }

  lemma HexIsDigit(c: char)
    requires HexValue(c).Some? && c !in "ABCDEF"
    ensures c == HexDigit(HexValue(c).value)
  {
  }

  // The first character of a text that is read, what follows it, and what is read from that.
  lemma FirstCharacter(s: string, chars: string, rest: string) returns (c: char, t: string)
    requires ReadChars(s) == Some((chars, rest)) && s[0] != '"'
    ensures chars != "" && c == chars[0] && |t| < |s| && ReadChars(t) == Some((chars[1..], rest))
    ensures |Escape(c)| + |t| <= |s|
    ensures |Escape(c)| + |t| == |s| && LowerEscapes(s) ==> s == Escape(c) + t && LowerEscapes(t)
  {
    var first := (if s[0] == '\\' then ReadEscape(s[1..]) else Some((s[0], s[1..]))).value;
    c, t := first.0, first.1;
    var more := ReadChars(t).value.0;
    assert chars == [c] + more && chars[1..] == more;
    hide ReadChars;
    if s[0] == '\\' {
      EscapeIsShortest(s, c, t);
      if s[1] == 'u' {
        assert t == s[1..][1..][4..] == s[6..];
      } else {
        assert t == s[1..][1..] == s[2..];
      }
      hide ReadEscape, Escape;
    } else {
      assert Escape(c) == [c] && s == [c] + t;
    }
  }

  lemma ClosingQuote(s: string, chars: string, rest: string)
    requires ReadChars(s) == Some((chars, rest)) && s[0] == '"'
    ensures chars == "" && Escaped(chars) == "" && s == "\"" + rest
  {
  }

  lemma SomethingRead(s: string, chars: string, rest: string)
    requires ReadChars(s) == Some((chars, rest))
    ensures s != ""
  {
  }

  lemma EscapedUnfolds(chars: string)
    requires chars != ""
    ensures Escaped(chars) == Escape(chars[0]) + Escaped(chars[1..])
  {
  }

  lemma {:induction false} CharsAreShortest(s: string, chars: string, rest: string)
    requires ReadChars(s) == Some((chars, rest))
    ensures |Escaped(chars)| + 1 + |rest| <= |s|
    ensures |Escaped(chars)| + 1 + |rest| == |s| && LowerEscapes(s) ==> s == Escaped(chars) + ("\"" + rest)
    decreases |s|
  {
    hide *;
    SomethingRead(s, chars, rest);
    if s[0] == '"' {
      ClosingQuote(s, chars, rest);
    } else {
      var c, t := FirstCharacter(s, chars, rest);
      CharsAreShortest(t, chars[1..], rest);
      EscapedUnfolds(chars);
      Concat(Escape(c), Escaped(chars[1..]), "\"" + rest);
    }
  }

  lemma DigitIsLower(n: nat)
    requires n < 16
    ensures HexDigit(n) !in "ABCDEF"
  {
  }

  lemma EscapeIsLower(c: char, t: string)
    requires LowerEscapes(t)
    ensures LowerEscapes(Escape(c) + t)
  {
    var e, s := Escape(c), Escape(c) + t;
    if |e| == 6 {
      DigitIsLower(c as int / 16);
      DigitIsLower(c as int % 16);
      assert s[6..] == t && s[0] == '\\' && s[1] == 'u' && s[2] == '0' && s[3] == '0' && s[4] == e[4] && s[5] == e[5];
      hide HexDigit;
    } else if |e| == 2 {
      assert s[2..] == t && s[0] == '\\' && s[1] == e[1] && s[1] != 'u';
    } else {
      assert s[1..] == t && s[0] == c;
    }
  }

  lemma {:induction false} EscapedIsLower(chars: string, rest: string)
    ensures LowerEscapes(Escaped(chars) + ("\"" + rest))
    decreases |chars|
  {
    if chars == "" {
      assert Escaped(chars) + ("\"" + rest) == "\"" + rest;
    } else {
      hide Escape, LowerEscapes;
      var t := Escaped(chars[1..]) + ("\"" + rest);
      EscapedIsLower(chars[1..], rest);
      EscapeIsLower(chars[0], t);
      assert Escaped(chars) + ("\"" + rest) == Escape(chars[0]) + t;
    }
  }

  /**
    Of all texts that are read as the string, the canonical one is among the shortest, and the only
    one of them without an upper-case digit in a hexadecimal escape.
   */
  lemma StringTextIsShortest(chars: string, u: string)
    requires ReadString(u) == Some((chars, ""))
    ensures |StringText(chars)| <= |u|
    ensures LowerEscapes(StringText(chars)[1..])
    ensures |StringText(chars)| == |u| && LowerEscapes(u[1..]) ==> u == StringText(chars)
  {
    CharsAreShortest(u[1..], chars, "");
    EscapedIsLower(chars, "");
    assert StringText(chars)[1..] == Escaped(chars) + ("\"" + "");
    assert u == [u[0]] + u[1..];
    assert StringText(chars) == "\"" + (Escaped(chars) + ("\"" + ""));
  }

  // ---------------------------------------------------------------------------
  // Values
  // ---------------------------------------------------------------------------

  function ReadWord(word: string, v: Json, s: string): (r: Option<(Json, string)>)
    requires word != ""
    ensures r.Some? ==> |r.value.1| < |s|
  {
    if |word| <= |s| && s[..|word|] == word then Some((v, s[|word|..])) else None
  }

  function ReadValue(s: string): (r: Option<(Json, string)>)
    ensures r.Some? ==> |r.value.1| < |s|
    decreases |s|, 0
  {
    if s == "" then None
    else if s[0] == 'n' then ReadWord("null", Null, s)
    else if s[0] == 't' then ReadWord("true", Bool(true), s)
    else if s[0] == 'f' then ReadWord("false", Bool(false), s)
    else if s[0] == '"' then
      match ReadString(s)
      case None => None
      case Some((chars, rest)) => Some((Str(chars), rest))
    else if s[0] == '[' then
      if |s| > 1 && s[1] == ']' then Some((Arr([]), s[2..]))
      else
        match ReadItems(s[1..])
        case None => None
        case Some((items, rest)) => Some((Arr(items), rest))
    else if s[0] == '{' then
      if |s| > 1 && s[1] == '}' then Some((Obj(map[]), s[2..]))
      else
        match ReadMembers(s[1..])
        case None => None
        case Some((members, rest)) => Some((Obj(members), rest))
    else
      match ReadNumber(s)
      case None => None
      case Some((x, rest)) => Some((Num(x), rest))
  }

  /** One or more values up to the closing bracket. */
  function ReadItems(s: string): (r: Option<(seq<Json>, string)>)
    ensures r.Some? ==> |r.value.1| < |s|
    decreases |s|, 1
  {
    match ReadValue(s)
    case None => None
    case Some((v, t)) =>
      if t == "" then None
      else if t[0] == ']' then Some(([v], t[1..]))
      else if t[0] != ',' then None
      else
        match ReadItems(t[1..])
        case None => None
        case Some((items, rest)) => Some(([v] + items, rest))
  }

  /** One or more members up to the closing brace; of two with the same key the later one counts. */
  function ReadMembers(s: string): (r: Option<(map<string, Json>, string)>)
    ensures r.Some? ==> |r.value.1| < |s|
    decreases |s|, 1
  {
    match ReadString(s)
    case None => None
    case Some((key, t)) =>
      if t == "" || t[0] != ':' then None
      else
        match ReadValue(t[1..])
        case None => None
        case Some((v, u)) =>
          if u == "" then None
          else if u[0] == '}' then Some((map[key := v], u[1..]))
          else if u[0] != ',' then None
          else
            match ReadMembers(u[1..])
            case None => None
            case Some((members, rest)) => Some((map[key := v] + members, rest))
  }

  // ---------------------------------------------------------------------------
  // Reading back what was written
  // ---------------------------------------------------------------------------

  lemma NumberStarts(x: Number)
    requires IsJsonNumber(x)
    ensures NumberText(x) != "" && (NumberText(x)[0] == '-' || IsDigit(NumberText(x)[0]))
  {
  }

  /** What the first character of a canonical text tells. */
  lemma TextStarts(v: Json)
    requires IsJson(v)
    ensures Text(v) != "" && Text(v)[0] !in "]},:"
  {
    match v
    case Num(x) => NumberStarts(x);
    case _ =>
  }

  // One step of the parser on texts of each shape.

  lemma ReadsWord(word: string, v: Json, rest: string)
    requires (word, v) in {("null", Null), ("true", Bool(true)), ("false", Bool(false))}
    ensures ReadValue(word + rest) == Some((v, rest))
  {
    assert (word + rest)[..|word|] == word && (word + rest)[|word|..] == rest;
  }

  lemma ReadsNumber(s: string, x: Number, rest: string)
    requires s != "" && (s[0] == '-' || IsDigit(s[0])) && ReadNumber(s) == Some((x, rest))
    ensures ReadValue(s) == Some((Num(x), rest))
  {
    hide ReadItems, ReadMembers, ReadNumber;
  }

  lemma ReadsText(chars: string, rest: string)
    ensures ReadValue(StringText(chars) + rest) == Some((Str(chars), rest))
  {
    StringReadsBack(chars, rest);
  }

  lemma ReadsArray(t: string, items: seq<Json>, rest: string)
    requires t != "" && t[0] != ']' && ReadItems(t) == Some((items, rest))
    ensures ReadValue("[" + t) == Some((Arr(items), rest))
  {
    hide ReadItems, ReadMembers, ReadNumber, ReadString;
    assert ("[" + t)[1..] == t;
  }

  lemma ReadsLastItem(s: string, v: Json, rest: string)
    requires ReadValue(s) == Some((v, "]" + rest))
    ensures ReadItems(s) == Some(([v], rest))
  {
    assert ("]" + rest)[1..] == rest;
  }

  lemma ReadsItem(s: string, v: Json, t: string, items: seq<Json>, rest: string)
    requires ReadValue(s) == Some((v, "," + t)) && ReadItems(t) == Some((items, rest))
    ensures ReadItems(s) == Some(([v] + items, rest))
  {
    assert ("," + t)[1..] == t;
  }

  lemma ReadsObject(t: string, members: map<string, Json>, rest: string)
    requires t != "" && t[0] != '}' && ReadMembers(t) == Some((members, rest))
    ensures ReadValue("{" + t) == Some((Obj(members), rest))
  {
    hide ReadItems, ReadMembers, ReadNumber, ReadString;
    assert ("{" + t)[1..] == t;
  }

  lemma ReadsLastMember(key: string, s: string, v: Json, rest: string)
    requires ReadValue(s) == Some((v, "}" + rest))
    ensures ReadMembers(StringText(key) + (":" + s)) == Some((map[key := v], rest))
  {
    StringReadsBack(key, ":" + s);
    assert (":" + s)[1..] == s && ("}" + rest)[1..] == rest;
  }

  lemma ReadsMember(key: string, s: string, v: Json, t: string, members: map<string, Json>, rest: string)
    requires ReadValue(s) == Some((v, "," + t)) && ReadMembers(t) == Some((members, rest))
    ensures ReadMembers(StringText(key) + (":" + s)) == Some((map[key := v] + members, rest))
  {
    StringReadsBack(key, ":" + s);
    assert (":" + s)[1..] == s && ("," + t)[1..] == t;
  }

  // Texts in pieces.
  lemma Pieces(open: string, a: string, b: string, close: string, rest: string)
    ensures (open + (a + b) + close) + rest == open + (a + (b + (close + rest)))
  {
  }

  lemma MorePieces(comma: string, a: string, b: string, after: string)
    ensures (comma + a + b) + after == comma + (a + (b + after))
  {
  }

  /** The parser undoes the printer, whatever text follows (after a number: nothing that could continue it). */
  lemma {:induction false} ValueReadsBack(v: Json, rest: string)
    requires IsJson(v) && (v.Num? ==> Ends(rest))
    ensures ReadValue(Text(v) + rest) == Some((v, rest))
    decreases v, 2, 0
  {
    match v
    case Null => ReadsWord("null", v, rest);
    case Bool(b) => ReadsWord(if b then "true" else "false", v, rest);
    case Str(chars) => ReadsText(chars, rest);
    case Num(x) =>
      NumberStarts(x);
      NumberReadsBack(x, rest);
      assert (NumberText(x) + rest)[0] == NumberText(x)[0];
      ReadsNumber(NumberText(x) + rest, x, rest);
    case Arr(items) => ArrayReadsBack(v, rest);
    case Obj(members) => ObjectReadsBack(v, rest);
  }

  /** The text of the items from index i on, up to and including the bracket and what follows it. */
  ghost function ItemsText(v: Json, i: nat, rest: string): string
    requires v.Arr? && i < |v.items|
  {
    Text(v.items[i]) + (ItemsFrom(v, i + 1) + ("]" + rest))
  }

  lemma ArrayText(v: Json, rest: string)
    requires v.Arr? && v.items != []
    ensures Text(v) + rest == "[" + ItemsText(v, 0, rest)
  {
    assert ItemsFrom(v, 0) == Text(v.items[0]) + ItemsFrom(v, 1);
    Pieces("[", Text(v.items[0]), ItemsFrom(v, 1), "]", rest);
  }

  lemma AfterItem(v: Json, i: nat, rest: string)
    requires v.Arr? && i < |v.items|
    ensures ItemsFrom(v, i + 1) + ("]" + rest) == if i + 1 == |v.items| then "]" + rest else "," + ItemsText(v, i + 1, rest)
  {
    if i + 1 < |v.items| {
      MorePieces(",", Text(v.items[i + 1]), ItemsFrom(v, i + 2), "]" + rest);
    }
  }

  lemma ArrayReadsBack(v: Json, rest: string)
    requires IsJson(v) && v.Arr?
    ensures ReadValue(Text(v) + rest) == Some((v, rest))
    decreases v, 1, |v.items| + 1
  {
    hide ReadItems, ReadValue;
    if v.items == [] {
      assert Text(v) == "[" + "" + "]";
      assert Text(v) + rest == "[]" + rest;
      EmptyReadsBack(rest);
    } else {
      ArrayText(v, rest);
      TextStarts(v.items[0]);
      ItemsReadBack(v, 0, rest);
      assert v.items[0..] == v.items;
      ReadsArray(ItemsText(v, 0, rest), v.items, rest);
    }
  }

  lemma {:induction false} ItemsReadBack(v: Json, i: nat, rest: string)
    requires IsJson(v) && v.Arr? && i < |v.items|
    ensures ReadItems(ItemsText(v, i, rest)) == Some((v.items[i..], rest))
    decreases v, 1, |v.items| - i
  {
    hide ReadItems, ReadValue, Text, ItemsFrom;
    AfterItem(v, i, rest);
    ValueReadsBack(v.items[i], ItemsFrom(v, i + 1) + ("]" + rest));
    if i + 1 == |v.items| {
      ReadsLastItem(ItemsText(v, i, rest), v.items[i], rest);
      assert v.items[i..] == [v.items[i]];
    } else {
      ItemsReadBack(v, i + 1, rest);
      ReadsItem(ItemsText(v, i, rest), v.items[i], ItemsText(v, i + 1, rest), v.items[i + 1..], rest);
      assert v.items[i..] == [v.items[i]] + v.items[i + 1..];
    }
  }

  ghost function Members(v: Json, keys: seq<string>): map<string, Json>
    requires v.Obj? && forall k :: k in keys ==> k in v.members
  {
    map k | k in keys :: v.members[k]
  }

  /** The text of a value and of the members after it, up to and including the brace and what follows it. */
  ghost function ValueText(v: Json, keys: seq<string>, i: nat, rest: string): string
    requires v.Obj? && i < |keys| && forall k :: k in keys ==> k in v.members
  {
    Text(v.members[keys[i]]) + (MembersFrom(v, keys, i + 1) + ("}" + rest))
  }

  ghost function MembersText(v: Json, keys: seq<string>, i: nat, rest: string): string
    requires v.Obj? && i < |keys| && forall k :: k in keys ==> k in v.members
  {
    StringText(keys[i]) + (":" + ValueText(v, keys, i, rest))
  }

  lemma KeyPieces(comma: string, key: string, x: string, more: string, after: string)
    ensures ((comma + key + ":") + x + more) + after == comma + (key + (":" + (x + (more + after))))
  {
  }

  lemma MembersPieces(v: Json, keys: seq<string>, i: nat, rest: string)
    requires v.Obj? && i < |keys| && forall k :: k in keys ==> k in v.members
    ensures MembersFrom(v, keys, i) + ("}" + rest) == (if i == 0 then "" else ",") + MembersText(v, keys, i, rest)
  {
    KeyPieces(if i == 0 then "" else ",", StringText(keys[i]), Text(v.members[keys[i]]), MembersFrom(v, keys, i + 1), "}" + rest);
  }

  lemma LastMember(v: Json, keys: seq<string>, rest: string)
    requires v.Obj? && forall k :: k in keys ==> k in v.members
    ensures MembersFrom(v, keys, |keys|) + ("}" + rest) == "}" + rest
  {
  }

  lemma ObjectText(v: Json, rest: string)
    requires v.Obj? && SortedKeys(v.members.Keys) != []
    ensures Text(v) + rest == "{" + MembersText(v, SortedKeys(v.members.Keys), 0, rest)
  {
    var keys := SortedKeys(v.members.Keys);
    var inner := MembersFrom(v, keys, 0);
    MembersPieces(v, keys, 0, rest);
    assert "" + MembersText(v, keys, 0, rest) == MembersText(v, keys, 0, rest);
    Pieces("{", "", inner, "}", rest);
    assert "" + inner == inner && "" + (inner + ("}" + rest)) == inner + ("}" + rest);
  }

  lemma EmptyReadsBack(rest: string)
    ensures ReadValue("[]" + rest) == Some((Arr([]), rest)) && ReadValue("{}" + rest) == Some((Obj(map[]), rest))
  {
    hide ReadItems, ReadMembers, ReadNumber;
    assert ("[]" + rest)[2..] == rest && ("{}" + rest)[2..] == rest;
  }

  lemma ObjectReadsBack(v: Json, rest: string)
    requires IsJson(v) && v.Obj?
    ensures ReadValue(Text(v) + rest) == Some((v, rest))
    decreases v, 1, |SortedKeys(v.members.Keys)| + 1
  {
    hide ReadMembers, ReadValue, Less;
    var keys := SortedKeys(v.members.Keys);
    if keys == [] {
      assert v.members == map[];
      assert Text(v) == "{" + "" + "}";
      assert Text(v) + rest == "{}" + rest;
      EmptyReadsBack(rest);
    } else {
      ObjectText(v, rest);
      MembersReadBack(v, keys, 0, rest);
      AllMembers(v);
      assert keys[0..] == keys;
      assert MembersText(v, keys, 0, rest)[0] == '"';
      ReadsObject(MembersText(v, keys, 0, rest), v.members, rest);
    }
  }

  lemma AllMembers(v: Json)
    requires v.Obj?
    ensures Members(v, SortedKeys(v.members.Keys)) == v.members
  {
  }

  lemma JsonMember(v: Json, key: string)
    requires IsJson(v) && v.Obj? && key in v.members
    ensures IsJson(v.members[key])
  {
  }

  lemma MembersGrow(v: Json, keys: seq<string>, i: nat)
    requires v.Obj? && i < |keys| && forall k :: k in keys ==> k in v.members
    ensures Members(v, keys[i..]) == map[keys[i] := v.members[keys[i]]] + Members(v, keys[i + 1..])
    ensures i + 1 == |keys| ==> Members(v, keys[i..]) == map[keys[i] := v.members[keys[i]]]
  {
    assert keys[i..] == [keys[i]] + keys[i + 1..];
  }

  lemma {:induction false} MembersReadBack(v: Json, keys: seq<string>, i: nat, rest: string)
    requires IsJson(v) && v.Obj? && i < |keys| && forall k :: k in keys ==> k in v.members
    ensures ReadMembers(MembersText(v, keys, i, rest)) == Some((Members(v, keys[i..]), rest))
    decreases v, 1, |keys| - i
  {
    hide ReadMembers, ReadValue, Text, StringText, IsJson;
    assert IsJson(v.members[keys[i]]) by { JsonMember(v, keys[i]); }
    var key, x := keys[i], v.members[keys[i]];
    MembersGrow(v, keys, i);
    if i + 1 == |keys| {
      assert MembersFrom(v, keys, i + 1) + ("}" + rest) == "}" + rest by { LastMember(v, keys, rest); }
      ValueReadsBack(x, "}" + rest);
      ReadsLastMember(key, ValueText(v, keys, i, rest), x, rest);
    } else {
      MembersPieces(v, keys, i + 1, rest);
      ValueReadsBack(x, "," + MembersText(v, keys, i + 1, rest));
      MembersReadBack(v, keys, i + 1, rest);
      ReadsMember(key, ValueText(v, keys, i, rest), x, MembersText(v, keys, i + 1, rest), Members(v, keys[i + 1..]), rest);
    }
  }

  // ---------------------------------------------------------------------------
  // Main results
  // ---------------------------------------------------------------------------

  /** Canonical text decides equality of JSON values: objects as unordered maps, numbers as doubles. */
  lemma CanonicalDecides(a: Json, b: Json)
    requires IsJson(a) && IsJson(b)
    ensures Text(a) == Text(b) <==> a == b
  {
    ValueReadsBack(a, "");
    ValueReadsBack(b, "");
    assert Text(a) + "" == Text(a) && Text(b) + "" == Text(b);
  }

  /** No canonical text of a value other than a number is a proper prefix of another canonical text. */
  lemma CanonicalPrefixFree(a: Json, b: Json)
    requires IsJson(a) && IsJson(b) && !a.Num? && Text(a) <= Text(b)
    ensures a == b
  {
    var rest := Text(b)[|Text(a)|..];
    assert Text(b) == Text(a) + rest && Text(b) + "" == Text(b);
    ValueReadsBack(a, rest);
    ValueReadsBack(b, "");
  }

  /** A JSON value always has a canonical text. */
  lemma {:induction false} JsonIsEncodable(v: Json)
    requires IsJson(v)
    ensures Encodable(v)
    decreases v
  {
    match v
    case Arr(items) =>
      forall i | 0 <= i < |items| ensures Encodable(items[i]) {
        JsonIsEncodable(items[i]);
      }
    case Obj(members) =>
      forall k | k in members ensures Encodable(members[k]) {
        JsonIsEncodable(members[k]);
      }
    case _ =>
  }

  // A value with a NaN or an infinity somewhere in it is not refused, but its text is not JSON.

  lemma NonFiniteIsNotJson(x: Number, rest: string)
    requires x.NotANumber? || x.Infinite?
    ensures Encodable(Num(x)) && ReadValue(NumberText(x) + rest) == None
  {
    assert Layout("NaN", 1) == "N" + "." + "aN";
    assert Layout("+Inf", 1) == "+" + "." + "Inf";
    if x.Infinite? && x.neg {
      assert NumberText(x) == "-" + Layout("+Inf", 1);
      assert (NumberText(x) + rest)[1..][0] == '+';
    } else {
      assert (NumberText(x) + rest)[0] == NumberText(x)[0];
    }
  }

  lemma NoItem(s: string)
    requires ReadValue(s) == None
    ensures ReadItems(s) == None
  {
  }

  lemma NoMoreItems(s: string, v: Json, t: string)
    requires ReadValue(s) == Some((v, "," + t)) && ReadItems(t) == None
    ensures ReadItems(s) == None
  {
    assert ("," + t)[1..] == t;
  }

  lemma NoArray(t: string)
    requires t != "" && t[0] != ']' && ReadItems(t) == None
    ensures ReadValue("[" + t) == None
  {
    assert ("[" + t)[1..] == t;
  }

  lemma NoMember(key: string, s: string)
    requires ReadValue(s) == None
    ensures ReadMembers(StringText(key) + (":" + s)) == None
  {
    StringReadsBack(key, ":" + s);
    assert (":" + s)[1..] == s;
  }

  lemma NoMoreMembers(key: string, s: string, v: Json, t: string)
    requires ReadValue(s) == Some((v, "," + t)) && ReadMembers(t) == None
    ensures ReadMembers(StringText(key) + (":" + s)) == None
  {
    StringReadsBack(key, ":" + s);
    assert (":" + s)[1..] == s && ("," + t)[1..] == t;
  }

  lemma NoObject(t: string)
    requires t != "" && t[0] != '}' && ReadMembers(t) == None
    ensures ReadValue("{" + t) == None
  {
    assert ("{" + t)[1..] == t;
  }

  lemma EncodableStarts(v: Json)
    requires Encodable(v)
    ensures Text(v) != "" && Text(v)[0] !in "]},:"
  {
    if v.Num? && !IsJsonNumber(v.number) {
      assert Layout("NaN", 1) == "N" + "." + "aN";
      assert Layout("+Inf", 1) == "+" + "." + "Inf";
    } else if v.Num? {
      NumberStarts(v.number);
    }
  }

  lemma {:induction false} NotJson(v: Json, rest: string)
    requires Encodable(v) && !IsJson(v)
    ensures ReadValue(Text(v) + rest) == None
    decreases v, 2, 0
  {
    match v
    case Num(x) => NonFiniteIsNotJson(x, rest);
    case Arr(items) =>
      var i :| 0 <= i < |items| && !IsJson(items[i]);
      ArrayText(v, rest);
      EncodableStarts(items[0]);
      ItemsNotJson(v, 0, i, rest);
      NoArray(ItemsText(v, 0, rest));
    case Obj(members) =>
      var key :| key in members && !IsJson(members[key]);
      var keys := SortedKeys(members.Keys);
      var i :| 0 <= i < |keys| && keys[i] == key;
      ObjectText(v, rest);
      MembersNotJson(v, keys, 0, i, rest);
      assert MembersText(v, keys, 0, rest)[0] == '"';
      NoObject(MembersText(v, keys, 0, rest));
  }

  lemma {:induction false} ItemsNotJson(v: Json, i: nat, bad: nat, rest: string)
    requires Encodable(v) && v.Arr? && i <= bad < |v.items| && !IsJson(v.items[bad])
    ensures ReadItems(ItemsText(v, i, rest)) == None
    decreases v, 1, |v.items| - i
  {
    assert Encodable(v.items[i]);
    hide ReadItems, ReadValue, Text, Encodable, IsJson;
    AfterItem(v, i, rest);
    var x, after := v.items[i], ItemsFrom(v, i + 1) + ("]" + rest);
    assert ItemsText(v, i, rest) == Text(x) + after;
    hide ItemsText, ItemsFrom;
    if IsJson(x) {
      assert i < bad;
      ValueReadsBack(x, after);
      ItemsNotJson(v, i + 1, bad, rest);
      NoMoreItems(ItemsText(v, i, rest), x, ItemsText(v, i + 1, rest));
    } else {
      NotJson(x, after);
      NoItem(ItemsText(v, i, rest));
    }
  }

  lemma {:induction false} MembersNotJson(v: Json, keys: seq<string>, i: nat, bad: nat, rest: string)
    requires Encodable(v) && v.Obj? && i <= bad < |keys| && forall k :: k in keys ==> k in v.members
    requires !IsJson(v.members[keys[bad]])
    ensures ReadMembers(MembersText(v, keys, i, rest)) == None
    decreases v, 1, |keys| - i
  {
    hide ReadMembers, ReadValue, Text, StringText;
    var key, x := keys[i], v.members[keys[i]];
    if IsJson(x) {
      MembersPieces(v, keys, i + 1, rest);
      ValueReadsBack(x, "," + MembersText(v, keys, i + 1, rest));
      MembersNotJson(v, keys, i + 1, bad, rest);
      NoMoreMembers(key, ValueText(v, keys, i, rest), x, MembersText(v, keys, i + 1, rest));
    } else {
      NotJson(x, MembersFrom(v, keys, i + 1) + ("}" + rest));
      NoMember(key, ValueText(v, keys, i, rest));
    }
  }

  /** Of the values that are not refused, exactly those without a NaN or an infinity get a JSON text. */
  lemma TextIsJsonExactly(v: Json)
    requires Encodable(v)
    ensures IsJson(v) ==> ReadValue(Text(v)) == Some((v, ""))
    ensures !IsJson(v) ==> ReadValue(Text(v)) == None
  {
    assert Text(v) + "" == Text(v);
    if IsJson(v) {
      ValueReadsBack(v, "");
    } else {
      NotJson(v, "");
    }
  }

  // ---------------------------------------------------------------------------
  // One text in full
  // ---------------------------------------------------------------------------

  lemma TwoKeys()
    ensures SortedKeys({"a", "b"}) == ["a", "b"]
  {
    assert Less("a", "b");
    assert Ascending(["a", "b"]);
    AscendingUnique(SortedKeys({"a", "b"}), ["a", "b"]);
  }

  lemma TwoMembers(v: Json, keys: seq<string>, x: string, y: string)
    requires v.Obj? && |keys| == 2 && keys[0] in v.members && keys[1] in v.members
    requires Text(v.members[keys[0]]) == x && Text(v.members[keys[1]]) == y
    ensures MembersFrom(v, keys, 0) == KeyText(keys[0], true) + x + (KeyText(keys[1], false) + y)
  {
    hide Text, KeyText;
    assert MembersFrom(v, keys, 2) == "";
    assert MembersFrom(v, keys, 1) == KeyText(keys[1], false) + y + "" == KeyText(keys[1], false) + y;
  }

  lemma KeyTexts()
    ensures KeyText("a", true) == "\"a\":" && KeyText("b", false) == ",\"b\":"
  {
    assert Escaped("a") == Escape('a') + Escaped("") == "a" && Escaped("b") == Escape('b') + Escaped("") == "b";
  }

  /** Elements in order, members in key order, no white space, short escapes. */
  lemma CanonicalExamples()
    ensures Text(Arr([Null, Str("\n"), Num(Zero)])) == "[null,\"\\n\",0]"
    ensures Text(Obj(map["b" := Bool(true), "a" := Null])) == "{\"a\":null,\"b\":true}"
  {
    ListExample();
    ObjectExample();
  }

  lemma ListExample()
    ensures Text(Arr([Null, Str("\n"), Num(Zero)])) == "[null,\"\\n\",0]"
  {
    var list := Arr([Null, Str("\n"), Num(Zero)]);
    assert Escaped("\n") == Escape('\n') + Escaped("") == "\\n";
    assert Text(Str("\n")) == "\"\\n\"";
    assert ItemsFrom(list, 3) == "" && ItemsFrom(list, 2) == ",0";
    assert ItemsFrom(list, 1) == ",\"\\n\",0" && ItemsFrom(list, 0) == "null,\"\\n\",0";
  }

  lemma ObjectExample()
    ensures Text(Obj(map["b" := Bool(true), "a" := Null])) == "{\"a\":null,\"b\":true}"
  {
    var v := Obj(map["b" := Bool(true), "a" := Null]);
    TwoKeys();
    KeyTexts();
    assert v.members.Keys == {"a", "b"};
    assert Text(Null) == "null" && Text(Bool(true)) == "true" && v.members["a"] == Null && v.members["b"] == Bool(true);
    TwoMembers(v, ["a", "b"], "null", "true");
    assert Text(v) == "{" + MembersFrom(v, ["a", "b"], 0) + "}";
    hide *;
  }
}

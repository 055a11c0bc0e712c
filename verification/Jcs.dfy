/**
  internal/provenance/provenance.go: JSON values and their canonical text (RFC 8785). The printing
  methods append to a buffer; the functions say what they append.
 */
module Jcs {
  import opened Base
  import opened Utf16

  // ---------------------------------------------------------------------------
  // Values
  // ---------------------------------------------------------------------------

  predicate AllDigits(s: string) {
    forall i :: 0 <= i < |s| ==> IsDigit(s[i])
  }

  /** Shortest digits carry no zero at either end. */
  predicate Shortest(digits: string) {
    digits != "" && AllDigits(digits) && digits[0] != '0' && digits[|digits| - 1] != '0'
  }

  type Digits = s: string | Shortest(s) witness "1"

  /**
    A number as the library's shortest round-trip formatting of its double hands it over: for Finite,
    the value is d.ddd times ten to the exponent. Unreadable is a literal that ParseFloat refuses.
   */
  datatype Number = Zero | Finite(neg: bool, digits: Digits, exponent: int) | NotANumber | Infinite(neg: bool) | Unreadable

  // Other stands for every Go value that is none of the JSON types.
  datatype Json =
    | Null
    | Bool(b: bool)
    | Str(text: string)
    | Num(number: Number)
    | Arr(items: seq<Json>)
    | Obj(members: map<string, Json>)
    | Other

  /** A number JSON can express. */
  predicate IsJsonNumber(x: Number) {
    x.Zero? || x.Finite?
  }

  /** A JSON value: what decoding a document yields, unless a literal is out of range. */
  predicate IsJson(v: Json) {
    match v
    case Num(x) => IsJsonNumber(x)
    case Arr(items) => forall i :: 0 <= i < |items| ==> IsJson(items[i])
    case Obj(members) => forall k :: k in members ==> IsJson(members[k])
    case Other => false
    case _ => true
  }

  /** A value Canonicalize has a text for. */
  predicate Encodable(v: Json) {
    match v
    case Num(x) => !x.Unreadable?
    case Arr(items) => forall i :: 0 <= i < |items| ==> Encodable(items[i])
    case Obj(members) => forall k :: k in members ==> Encodable(members[k])
    case Other => false
    case _ => true
  }

  // ---------------------------------------------------------------------------
  // Numbers
  // ---------------------------------------------------------------------------

  // strings.Repeat("0", n)
  function Zeros(n: nat): (z: string)
    ensures |z| == n && forall i :: 0 <= i < n ==> z[i] == '0'
  {
    seq(n, _ => '0')
  }

  function Digit(n: nat): (c: char)
    requires n < 10
    ensures IsDigit(c)
  {
    ('0' as int + n) as char
  }

  // strconv.Itoa of a non-negative int
  function Itoa(n: nat): (s: string)
    ensures s != "" && AllDigits(s)
  {
    if n < 10 then [Digit(n)] else Itoa(n / 10) + [Digit(n % 10)]
  }

  /** The ECMAScript layout of 0.digits times ten to the n, for the four ranges of n. */
  function Layout(digits: string, n: int): string
    requires digits != ""
  {
    var k := |digits|;
    if k <= n <= 21 then digits + Zeros(n - k)
    else if 0 < n <= 21 then digits[..n] + "." + digits[n..]
    else if -6 < n <= 0 then "0." + Zeros(-n) + digits
    else
      digits[..1] + (if k > 1 then "." + digits[1..] else "")
      + "e" + (if n - 1 < 0 then "-" + Itoa(1 - n) else "+" + Itoa(n - 1))
  }

  /** canonicalNumber. NaN and the infinities have no 'e' in their formatting and are laid out as if digits. */
  function CanonicalNumber(x: Number): Result<string, ()>
  {
    match x
    case Zero => Ok("0")
    case Finite(neg, digits, exponent) => Ok((if neg then "-" else "") + Layout(digits, exponent + 1))
    case NotANumber => Ok(Layout("NaN", 1))
    case Infinite(neg) => Ok((if neg then "-" else "") + Layout("+Inf", 1))
    case Unreadable => Err(())
  }

  function NumberText(x: Number): string {
    match CanonicalNumber(x) case Ok(text) => text case Err(_) => ""
  }

  // ---------------------------------------------------------------------------
  // Strings
  // ---------------------------------------------------------------------------

  function HexDigit(n: nat): char
    requires n < 16
  {
    "0123456789abcdef"[n]
  }

  function Escape(c: char): (e: string)
    ensures e != ""
  {
    if c == '"' then "\\\""
    else if c == '\\' then "\\\\"
    else if c as int == 8 then "\\b"
    else if c as int == 12 then "\\f"
    else if c == '\n' then "\\n"
    else if c == '\r' then "\\r"
    else if c == '\t' then "\\t"
    else if c as int < 0x20 then "\\u00" + [HexDigit(c as int / 16), HexDigit(c as int % 16)]
    else [c]
  }

  function Escaped(s: string): string {
    if s == "" then "" else Escape(s[0]) + Escaped(s[1..])
  }

  function StringText(s: string): string {
    "\"" + Escaped(s) + "\""
  }

  // ---------------------------------------------------------------------------
  // Key order
  // ---------------------------------------------------------------------------

  ghost predicate Ascending(keys: seq<string>) {
    forall i, j :: 0 <= i < j < |keys| ==> Less(keys[i], keys[j])
  }

  ghost function Least(keys: set<string>): (least: string)
    requires keys != {}
    ensures least in keys && forall k :: k in keys ==> k == least || Less(least, k)
  {
    var x :| x in keys;
    if keys == {x} then x
    else
      var y := Least(keys - {x});
      assert forall k :: k in keys ==> k == x || k in keys - {x};
      StrictTotalOrder(x, y, x);
      if Less(x, y) then
        assert forall k :: k in keys - {x} ==> Less(x, k) by { LessThanAll(x, y, keys - {x}); }
        x
      else y
  }

  lemma LessThanAll(x: string, y: string, keys: set<string>)
    requires Less(x, y) && forall k :: k in keys ==> k == y || Less(y, k)
    ensures forall k :: k in keys ==> Less(x, k)
  {
    forall k | k in keys ensures Less(x, k) {
      StrictTotalOrder(x, y, k);
    }
  }

  /** The keys in UTF-16 order. */
  ghost function SortedKeys(keys: set<string>): (r: seq<string>)
    ensures Ascending(r) && Enumerates(r, keys)
    decreases |keys|
  {
    if keys == {} then []
    else
      var k := Least(keys);
      assert forall i :: 0 <= i < |SortedKeys(keys - {k})| ==> SortedKeys(keys - {k})[i] in keys - {k};
      StrictTotalOrder(k, k, k);
      [k] + SortedKeys(keys - {k})
  }

  /** There is only one ascending enumeration. */
  lemma {:induction false} AscendingUnique(a: seq<string>, b: seq<string>)
    requires Ascending(a) && Ascending(b) && forall k :: k in a <==> k in b
    ensures a == b
    decreases |a|
  {
    assert |a| > 0 ==> a[0] in a;
    assert |b| > 0 ==> b[0] in b;
    if a != [] {
      var i :| 0 <= i < |b| && b[i] == a[0];
      var j :| 0 <= j < |a| && a[j] == b[0];
      StrictTotalOrder(a[0], b[0], a[0]);
      assert a[0] == b[0];
      forall k ensures k in a[1..] <==> k in b[1..] {
        StrictTotalOrder(k, k, k);
        assert k in a <==> k == a[0] || k in a[1..];
        assert k in b <==> k == b[0] || k in b[1..];
      }
      AscendingUnique(a[1..], b[1..]);
    }
  }

  // ---------------------------------------------------------------------------
  // Canonical text
  // ---------------------------------------------------------------------------

  ghost function Text(v: Json): string
    decreases v, 2, 0
  {
    match v
    case Null => "null"
    case Bool(b) => if b then "true" else "false"
    case Str(s) => StringText(s)
    case Num(x) => NumberText(x)
    case Arr(items) => "[" + ItemsFrom(v, 0) + "]"
    case Obj(members) => "{" + MembersFrom(v, SortedKeys(members.Keys), 0) + "}"
    case Other => ""
  }

  /** The elements from index i on, with the commas before them. */
  ghost function ItemsFrom(v: Json, i: nat): string
    requires v.Arr? && i <= |v.items|
    decreases v, 1, |v.items| - i
  {
    if i == |v.items| then ""
    else (if i > 0 then "," else "") + Text(v.items[i]) + ItemsFrom(v, i + 1)
  }

  /** What precedes a member's value. */
  function KeyText(key: string, first: bool): string {
    (if first then "" else ",") + StringText(key) + ":"
  }

  /** The members from index i of the key list on, with the commas before them. */
  ghost function MembersFrom(v: Json, keys: seq<string>, i: nat): string
    requires v.Obj? && i <= |keys| && forall k :: k in keys ==> k in v.members
    decreases v, 1, |keys| - i
  {
    if i == |keys| then ""
    else KeyText(keys[i], i == 0) + Text(v.members[keys[i]]) + MembersFrom(v, keys, i + 1)
  }

  // ---------------------------------------------------------------------------
  // Printing
  // ---------------------------------------------------------------------------

  class Buffer {
    var text: string

    constructor ()
      ensures text == ""
    {
      text := "";
    }

    method Write(s: string)
      modifies this
      ensures text == old(text) + s
    {
      text := text + s;
    }
  }

  method CanonicalString(buffer: Buffer, value: string)
    modifies buffer
    ensures buffer.text == old(buffer.text) + StringText(value)
  {
    ghost var start, done := buffer.text + "\"", "";
    buffer.Write("\"");
    var i := 0;
    assert value[0..] == value;
    while i < |value|
      invariant i <= |value|
      invariant buffer.text == start + done && done + Escaped(value[i..]) == Escaped(value)
    {
      assert value[i..][1..] == value[i + 1..];
      Advance(start, done, Escape(value[i]), Escaped(value[i + 1..]), Escaped(value));
      buffer.Write(Escape(value[i]));
      done := done + Escape(value[i]);
      i := i + 1;
    }
    assert done == Escaped(value);
    Enclosed(old(buffer.text), "\"", done, "\"");
    buffer.Write("\"");
  }

  // One more piece of a text written in pieces.
  lemma Advance(start: string, done: string, item: string, rest: string, whole: string)
    requires done + (item + rest) == whole
    ensures (start + done) + item == start + (done + item) && (done + item) + rest == whole
  {
  }

  lemma Enclosed(start: string, open: string, s: string, close: string)
    ensures ((start + open) + s) + close == start + (open + s + close)
  {
  }

  // Concatenation associates.
  lemma Concat(a: string, b: string, c: string)
    ensures (a + b) + c == a + (b + c)
  {
  }

  lemma InsertionAscends(sorted: seq<string>, i: nat, key: string)
    requires Ascending(sorted) && i <= |sorted| && key !in sorted
    requires forall j :: 0 <= j < i ==> Less(sorted[j], key)
    requires i < |sorted| ==> !Less(sorted[i], key)
    ensures Ascending(sorted[..i] + [key] + sorted[i..])
  {
    forall j | i <= j < |sorted| ensures Less(key, sorted[j]) {
      StrictTotalOrder(sorted[i], key, key);
      StrictTotalOrder(key, sorted[i], sorted[j]);
    }
  }

  // One step of the library's sort: puts a key among keys already in order.
  method InsertKey(sorted: seq<string>, key: string) returns (r: seq<string>)
    requires Ascending(sorted) && key !in sorted
    ensures Ascending(r) && forall k :: k in r <==> k in sorted || k == key
  {
    var i := 0;
    while i < |sorted|
      invariant i <= |sorted| && forall j :: 0 <= j < i ==> Less(sorted[j], key)
    {
      var before := Utf16Less(sorted[i], key);
      if !before {
        break;
      }
      i := i + 1;
    }
    InsertionAscends(sorted, i, key);
    assert sorted == sorted[..i] + sorted[i..];
    r := sorted[..i] + [key] + sorted[i..];
  }

  // sort.Slice by utf16Less. Any sort gives this result, because the order is strict and total.
  method SortKeys(keys: seq<string>) returns (sorted: seq<string>)
    requires forall i, j :: 0 <= i < j < |keys| ==> keys[i] != keys[j]
    ensures Ascending(sorted) && forall k :: k in sorted <==> k in keys
  {
    sorted := [];
    for i := 0 to |keys|
      invariant Ascending(sorted) && forall k :: k in sorted <==> k in keys[..i]
    {
      sorted := InsertKey(sorted, keys[i]);
      assert keys[..i + 1] == keys[..i] + [keys[i]];
    }
    assert keys[..|keys|] == keys;
  }

  // The keys in whatever order the map yields them.
  method CollectKeys(members: map<string, Json>) returns (keys: seq<string>)
    ensures Enumerates(keys, members.Keys)
  {
    keys := [];
    var left := members.Keys;
    while left != {}
      invariant left <= members.Keys && Enumerates(keys, members.Keys - left)
      decreases |left|
    {
      var k :| k in left;
      keys := keys + [k];
      left := left - {k};
    }
  }

  /** canonicalValue: false when it returns an error. */
  method CanonicalValue(buffer: Buffer, value: Json) returns (ok: bool)
    modifies buffer
    ensures ok <==> Encodable(value)
    ensures ok ==> buffer.text == old(buffer.text) + Text(value)
    decreases value, 1
  {
    match value {
      case Null =>
        buffer.Write("null");
        return true;
      case Bool(b) =>
        buffer.Write(if b then "true" else "false");
        return true;
      case Str(s) =>
        CanonicalString(buffer, s);
        return true;
      case Num(x) =>
        match CanonicalNumber(x) {
          case Err(_) => return false;
          case Ok(formatted) =>
            buffer.Write(formatted);
            return true;
        }
      case Arr(items) =>
        ok := CanonicalItems(buffer, value);
      case Obj(members) =>
        ok := CanonicalMembers(buffer, value);
      case Other =>
        return false;
    }
  }

  // The comma before every item but the first, and the item.
  method CanonicalItem(buffer: Buffer, value: Json, i: nat) returns (ok: bool)
    requires value.Arr? && i < |value.items|
    modifies buffer
    ensures ok <==> Encodable(value.items[i])
    ensures ok ==> buffer.text == old(buffer.text) + ((if i > 0 then "," else "") + Text(value.items[i]))
    decreases value, 0, 0
  {
    ghost var start := buffer.text;
    if i > 0 {
      buffer.Write(",");
    }
    ok := CanonicalValue(buffer, value.items[i]);
    Concat(start, if i > 0 then "," else "", Text(value.items[i]));
  }

  method CanonicalItems(buffer: Buffer, value: Json) returns (ok: bool)
    requires value.Arr?
    modifies buffer
    ensures ok <==> Encodable(value)
    ensures ok ==> buffer.text == old(buffer.text) + Text(value)
    decreases value, 0, 1
  {
    ghost var start, done := buffer.text + "[", "";
    buffer.Write("[");
    var i := 0;
    while i < |value.items|
      invariant i <= |value.items| && forall j :: 0 <= j < i ==> Encodable(value.items[j])
      invariant buffer.text == start + done && done + ItemsFrom(value, i) == ItemsFrom(value, 0)
    {
      var fine := CanonicalItem(buffer, value, i);
      if !fine {
        return false;
      }
      ghost var item := (if i > 0 then "," else "") + Text(value.items[i]);
      Advance(start, done, item, ItemsFrom(value, i + 1), ItemsFrom(value, 0));
      done := done + item;
      i := i + 1;
    }
    Enclosed(old(buffer.text), "[", done, "]");
    buffer.Write("]");
    return true;
  }

  method CanonicalKey(buffer: Buffer, key: string, first: bool)
    modifies buffer
    ensures buffer.text == old(buffer.text) + KeyText(key, first)
  {
    ghost var start, comma := buffer.text, if first then "" else ",";
    if !first {
      buffer.Write(",");
    }
    CanonicalString(buffer, key);
    buffer.Write(":");
    Enclosed(start, comma, StringText(key), ":");
  }

  method CanonicalMember(buffer: Buffer, value: Json, key: string, first: bool) returns (ok: bool)
    requires value.Obj? && key in value.members
    modifies buffer
    ensures ok <==> Encodable(value.members[key])
    ensures ok ==> buffer.text == old(buffer.text) + (KeyText(key, first) + Text(value.members[key]))
    decreases value, 0, 0
  {
    ghost var start := buffer.text;
    CanonicalKey(buffer, key, first);
    ok := CanonicalValue(buffer, value.members[key]);
    Concat(start, KeyText(key, first), Text(value.members[key]));
  }

  // The keys of an object in UTF-16 order.
  method OrderedKeys(members: map<string, Json>) returns (keys: seq<string>)
    ensures keys == SortedKeys(members.Keys)
  {
    keys := CollectKeys(members);
    keys := SortKeys(keys);
    AscendingUnique(keys, SortedKeys(members.Keys));
  }

  method CanonicalMembers(buffer: Buffer, value: Json) returns (ok: bool)
    requires value.Obj?
    modifies buffer
    ensures ok <==> Encodable(value)
    ensures ok ==> buffer.text == old(buffer.text) + Text(value)
    decreases value, 0, 2
  {
    hide EncodableFrom, KeyText, MembersFrom;
    ghost var start := buffer.text;
    var keys := OrderedKeys(value.members);
    buffer.Write("{");
    ok := MemberLoop(buffer, value, keys);
    EncodableByKeys(value, keys, 0);
    if !ok {
      return;
    }
    Enclosed(start, "{", MembersFrom(value, keys, 0), "}");
    buffer.Write("}");
  }

  predicate EncodableFrom(value: Json, keys: seq<string>, i: nat)
    requires value.Obj? && i <= |keys| && forall k :: k in keys ==> k in value.members
    decreases |keys| - i
  {
    i == |keys| || (Encodable(value.members[keys[i]]) && EncodableFrom(value, keys, i + 1))
  }

  lemma {:induction false} EncodableByKeys(value: Json, keys: seq<string>, i: nat)
    requires value.Obj? && i <= |keys| && forall k :: k in keys ==> k in value.members
    ensures EncodableFrom(value, keys, i) <==> forall j :: i <= j < |keys| ==> Encodable(value.members[keys[j]])
    decreases |keys| - i
  {
    if i < |keys| {
      EncodableByKeys(value, keys, i + 1);
    }
  }

  method MemberLoop(buffer: Buffer, value: Json, keys: seq<string>) returns (ok: bool)
    requires value.Obj? && forall k :: k in keys ==> k in value.members
    modifies buffer
    ensures ok <==> EncodableFrom(value, keys, 0)
    ensures ok ==> buffer.text == old(buffer.text) + MembersFrom(value, keys, 0)
    decreases value, 0, 1
  {
    hide Text, KeyText, Encodable;
    ghost var start, done := buffer.text, "";
    var i := 0;
    while i < |keys|
      invariant i <= |keys| && (EncodableFrom(value, keys, i) <==> EncodableFrom(value, keys, 0))
      invariant buffer.text == start + done && done + MembersFrom(value, keys, i) == MembersFrom(value, keys, 0)
    {
      var fine := CanonicalMember(buffer, value, keys[i], i == 0);
      if !fine {
        return false;
      }
      ghost var item := KeyText(keys[i], i == 0) + Text(value.members[keys[i]]);
      Advance(start, done, item, MembersFrom(value, keys, i + 1), MembersFrom(value, keys, 0));
      done := done + item;
      i := i + 1;
    }
    return true;
  }

  /** Canonicalize: the canonical text, whatever order the maps yield their keys in, or an error exactly when there is none. */
  method Canonicalize(value: Json) returns (r: Result<string, ()>)
    ensures r == if Encodable(value) then Ok(Text(value)) else Err(())
  {
    var buffer := new Buffer();
    var ok := CanonicalValue(buffer, value);
    if ok {
      assert "" + Text(value) == Text(value);
      return Ok(buffer.text);
    } else {
      return Err(());
    }
  }
}

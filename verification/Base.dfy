/** Small datatypes and text predicates shared by every module. */
module Base {

  datatype Option<+T> = None | Some(value: T)

  datatype Result<+T, +E> = Ok(value: T) | Err(error: E)

  predicate IsDigit(c: char) {
    '0' <= c <= '9'
  }

  predicate IsAlphanumeric(c: char) {
    IsDigit(c) || 'a' <= c <= 'z' || 'A' <= c <= 'Z'
  }

  // Go's unicode.IsSpace, as strings.TrimSpace uses it.
  predicate IsSpace(c: char) {
    var code := c as int;
    || c == ' ' || 9 <= code <= 13 || code == 0x85 || code == 0xA0 || code == 0x1680 || 0x2000 <= code <= 0x200A
    || code == 0x2028 || code == 0x2029 || code == 0x202F || code == 0x205F || code == 0x3000
  }

  /** strings.TrimSpace(s) == "" */
  predicate Blank(s: string) {
    forall i :: 0 <= i < |s| ==> IsSpace(s[i])
  }

  /** strings.TrimSpace(s) == s for a non-empty s. */
  predicate CanonicalText(s: string) {
    s != "" && !IsSpace(s[0]) && !IsSpace(s[|s| - 1])
  }

  /** The pattern ^[A-Za-z0-9][A-Za-z0-9._:-]{0,127}$ used for every identifier column. */
  predicate Identifier(s: string) {
    && 1 <= |s| <= 128
    && IsAlphanumeric(s[0])
    && forall i :: 1 <= i < |s| ==> IsAlphanumeric(s[i]) || s[i] in "._:-"
  }

  /** The characters of an identifier by their codes: up to 128 letters, digits and, except in front, any of - . : _ */
  lemma IdentifiersExactly(s: string)
    ensures Identifier(s) <==>
              && s != "" && |s| <= 128
              && !(s[0] as int in {45, 46, 58, 95})
              && forall i :: 0 <= i < |s| ==>
                   var code := s[i] as int;
                   48 <= code <= 57 || 65 <= code <= 90 || 97 <= code <= 122 || code in {45, 46, 58, 95}
  {
    forall i | 1 <= i < |s| ensures s[i] in "._:-" <==> s[i] as int in {45, 46, 58, 95} {
      Punctuation(s[i]);
    }
    if s != "" {
      Punctuation(s[0]);
    }
  }

  lemma Punctuation(c: char)
    ensures c in "._:-" <==> c as int in {45, 46, 58, 95}
  {
    var marks := "._:-";
    assert marks[0] == '.' && marks[1] == '_' && marks[2] == ':' && marks[3] == '-';
  }

  /** An enumeration of a finite set: the order in which Go ranges over a map. */
  ghost predicate Enumerates<T(!new)>(order: seq<T>, keys: set<T>) {
    && (forall i, j :: 0 <= i < j < |order| ==> order[i] != order[j])
    && (forall k :: k in keys <==> k in order)
  }
}

/**
  internal/provenance/provenance.go: what an envelope signature covers. The JSON decoder is a library;
  its result, a value and the text left behind it, is an argument.
 */
module Provenance {
  import opened Base
  import opened Jcs
  import opened JcsParser

  datatype Refusal = Malformed | TrailingData | NotAnObject | NoProvenance | NotCanonical

  datatype Signed = Signed(payload: string, signature: string)

  // ---------------------------------------------------------------------------
  // decodeJSON
  // ---------------------------------------------------------------------------

  function SkipSpace(s: string): (r: string)
    ensures |r| <= |s|
  {
    if s != "" && s[0] in " \t\r\n" then SkipSpace(s[1..]) else s
  }

  /** Decoder.More: another value follows. A closing bracket or brace does not count as one. */
  predicate More(rest: string) {
    var s := SkipSpace(rest);
    s != "" && s[0] != ']' && s[0] != '}'
  }

  function DecodeJson(decoded: Option<(Json, string)>): Result<Json, Refusal> {
    match decoded
    case None => Err(Malformed)
    case Some((document, rest)) => if More(rest) then Err(TrailingData) else Ok(document)
  }

  /** Trailing text is refused unless it is white space or starts with a closing bracket or brace. */
  lemma {:induction false} TrailingDataExactly(document: Json, rest: string)
    ensures DecodeJson(Some((document, rest))) == Err(TrailingData) <==>
              exists i :: 0 <= i < |rest| && rest[i] !in " \t\r\n]}" && forall j :: 0 <= j < i ==> rest[j] in " \t\r\n"
    decreases |rest|
  {
    if rest != "" && rest[0] in " \t\r\n" {
      var tail := rest[1..];
      TrailingDataExactly(document, tail);
      assert SkipSpace(rest) == SkipSpace(tail);
      if i :| 0 <= i < |tail| && tail[i] !in " \t\r\n]}" && forall j :: 0 <= j < i ==> tail[j] in " \t\r\n" {
        forall j | 0 <= j < i + 1 ensures rest[j] in " \t\r\n" {
          if j > 0 {
            assert rest[j] == tail[j - 1];
          }
        }
        assert rest[i + 1] == tail[i];
      }
      if i :| 0 <= i < |rest| && rest[i] !in " \t\r\n]}" && forall j :: 0 <= j < i ==> rest[j] in " \t\r\n" {
        assert tail[i - 1] == rest[i];
        forall j | 0 <= j < i - 1 ensures tail[j] in " \t\r\n" {
          assert tail[j] == rest[j + 1];
        }
      }
    } else if rest != "" {
      assert SkipSpace(rest) == rest;
    }
  }

  // ---------------------------------------------------------------------------
  // SignedPayload
  // ---------------------------------------------------------------------------

  predicate IsEnvelope(v: Json) {
    v.Obj? && "provenance" in v.members && v.members["provenance"].Obj?
  }

  /** The envelope without provenance.signature. */
  function Unsigned(v: Json): (u: Json)
    requires IsEnvelope(v)
    ensures IsEnvelope(u)
  {
    v.(members := v.members["provenance" := Obj(v.members["provenance"].members - {"signature"})])
  }

  function SignatureOf(v: Json): string
    requires IsEnvelope(v)
  {
    var provenance := v.members["provenance"].members;
    if "signature" in provenance && provenance["signature"].Str? then provenance["signature"].text else ""
  }

  method SignedPayload(decoded: Option<(Json, string)>) returns (r: Result<Signed, Refusal>)
    ensures match DecodeJson(decoded)
            case Err(e) => r == Err(e)
            case Ok(document) =>
              if !document.Obj? then r == Err(NotAnObject)
              else if !IsEnvelope(document) then r == Err(NoProvenance)
              else if !Encodable(Unsigned(document)) then r == Err(NotCanonical)
              else r == Ok(Signed(Text(Unsigned(document)), SignatureOf(document)))
  {
    var document;
    match DecodeJson(decoded) {
      case Err(e) => return Err(e);
      case Ok(d) => document := d;
    }
    if !document.Obj? {
      return Err(NotAnObject);
    }
    if "provenance" !in document.members || !document.members["provenance"].Obj? {
      return Err(NoProvenance);
    }
    var provenance := document.members["provenance"].members;
    var signature := "";
    if "signature" in provenance && provenance["signature"].Str? {
      signature := provenance["signature"].text;
    }
    provenance := provenance - {"signature"};
    document := Obj(document.members["provenance" := Obj(provenance)]);
    var canonical := Canonicalize(document);
    match canonical {
      case Err(_) => return Err(NotCanonical);
      case Ok(text) => return Ok(Signed(text, signature));
    }
  }

  /** The envelope carrying a signature, as the publisher embeds it after signing. */
  function WithSignature(v: Json, signature: string): Json
    requires IsEnvelope(v)
  {
    v.(members := v.members["provenance" := Obj(v.members["provenance"].members["signature" := Str(signature)])])
  }

  /** Embedding a signature changes neither the payload nor anything but the signature read back. */
  lemma SignatureIsNotCovered(v: Json, signature: string)
    requires IsEnvelope(v)
    ensures IsEnvelope(WithSignature(v, signature))
    ensures Unsigned(WithSignature(v, signature)) == Unsigned(v)
    ensures SignatureOf(WithSignature(v, signature)) == signature
  {
    var p := v.members["provenance"].members;
    assert p["signature" := Str(signature)] - {"signature"} == p - {"signature"};
    var s := WithSignature(v, signature);
    assert Unsigned(s).members == Unsigned(v).members;
  }

  /** What is signed reads as unsigned, and taking the signature out again changes nothing. */
  lemma UnsignedIsUnsigned(v: Json)
    requires IsEnvelope(v)
    ensures SignatureOf(Unsigned(v)) == "" && Unsigned(Unsigned(v)) == Unsigned(v)
  {
    var p := v.members["provenance"].members;
    assert (p - {"signature"}) - {"signature"} == p - {"signature"};
    assert Unsigned(Unsigned(v)).members == Unsigned(v).members;
  }

  /** Everything but provenance.signature is the same. */
  ghost predicate SameButSignature(a: Json, b: Json)
    requires IsEnvelope(a) && IsEnvelope(b)
  {
    var p, q := a.members["provenance"].members, b.members["provenance"].members;
    && (forall k :: k != "provenance" ==> (k in a.members <==> k in b.members) && (k in a.members ==> a.members[k] == b.members[k]))
    && (forall k :: k != "signature" ==> (k in p <==> k in q) && (k in p ==> p[k] == q[k]))
  }

  lemma UnsignedExactly(a: Json, b: Json)
    requires IsEnvelope(a) && IsEnvelope(b)
    ensures Unsigned(a) == Unsigned(b) <==> SameButSignature(a, b)
  {
    var x, y := Unsigned(a), Unsigned(b);
    var p, q := a.members["provenance"].members, b.members["provenance"].members;
    if SameButSignature(a, b) {
      assert p - {"signature"} == q - {"signature"};
      assert x.members == y.members;
    }
    if x == y {
      assert x.members["provenance"].members == y.members["provenance"].members;
      forall k | k != "signature" ensures (k in p <==> k in q) && (k in p ==> p[k] == q[k]) {
        assert k in p <==> k in x.members["provenance"].members;
        assert k in q <==> k in y.members["provenance"].members;
      }
      forall k | k != "provenance" ensures (k in a.members <==> k in b.members) && (k in a.members ==> a.members[k] == b.members[k]) {
        assert k in a.members <==> k in x.members;
        assert k in b.members <==> k in y.members;
      }
    }
  }

  /**
    The signed payload covers the whole envelope but its signature: two envelopes have the same
    payload exactly when they agree on everything else.
   */
  lemma PayloadCoversTheRest(a: Json, b: Json)
    requires IsEnvelope(a) && IsEnvelope(b) && IsJson(Unsigned(a)) && IsJson(Unsigned(b))
    ensures Text(Unsigned(a)) == Text(Unsigned(b)) <==> SameButSignature(a, b)
  {
    CanonicalDecides(Unsigned(a), Unsigned(b));
    UnsignedExactly(a, b);
  }
}

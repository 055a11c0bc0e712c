/** internal/isr/classification.go: the ordered sensitivity labels. */
module Classification {

  // The Go type is a string; Unknown stands for every string outside the approved set.
  datatype Label = Unclassified | Restricted | Confidential | Secret | Unknown(raw: string)

  // ParseClassification succeeds.
  predicate Known(level: Label) {
    !level.Unknown?
  }

  // Unknown labels rank as Secret so that comparisons fail closed.
  function Rank(level: Label): (r: nat)
  {
    match level
    case Unclassified => 0
    case Restricted => 1
    case Confidential => 2
    case _ => 3
  }

  predicate Covers(clearance: Label, level: Label) {
    Known(clearance) && Known(level) && Rank(clearance) >= Rank(level)
  }

  function Max(a: Label, b: Label): (m: Label)
  {
    if Rank(a) >= Rank(b) then a else b
  }

  /** The most sensitive of two approved labels is readable exactly by those who may read both. */
  lemma MaxIsLeastUpperBound(clearance: Label, a: Label, b: Label)
    requires Known(a) && Known(b)
    ensures Known(Max(a, b))
    ensures Covers(clearance, Max(a, b)) <==> Covers(clearance, a) && Covers(clearance, b)
  {
  }

  /** On approved labels the rank identifies the label, so Max is commutative and associative. */
  lemma RankIsInjective(a: Label, b: Label)
    requires Known(a) && Known(b) && Rank(a) == Rank(b)
    ensures a == b
  {
  }
}

/** The key under which two-site observables are stored: a source site and the
    displacement (dx, dy) to the target site, ordered like `std::tie`. */
module Bonds {

  datatype Bond = Bond(sourceSite: int, dx: int, dy: int)

  /** Lexicographic "less than" on (sourceSite, dx, dy). */
  predicate Less(a: Bond, b: Bond)
  {
    a.sourceSite < b.sourceSite
    || (a.sourceSite == b.sourceSite && a.dx < b.dx)
    || (a.sourceSite == b.sourceSite && a.dx == b.dx && a.dy < b.dy)
  }

  /** Two keys are equivalent for an ordered map when neither is less than the other. */
  predicate Equivalent(a: Bond, b: Bond)
  {
    !Less(a, b) && !Less(b, a)
  }

  lemma LessIrreflexive(a: Bond)
    ensures !Less(a, a)
  {
  }

  lemma LessAsymmetric(a: Bond, b: Bond)
    ensures Less(a, b) ==> !Less(b, a)
  {
  }

  lemma LessTransitive(a: Bond, b: Bond, c: Bond)
    requires Less(a, b) && Less(b, c)
    ensures Less(a, c)
  {
  }

  /** Exactly one of a < b, a == b, b < a holds. */
  lemma LessTrichotomy(a: Bond, b: Bond)
    ensures Less(a, b) || a == b || Less(b, a)
    ensures a == b ==> !Less(a, b) && !Less(b, a)
  {
  }

  /** The ordered-map equivalence induced by Less is plain equality of the three
      fields, so a map keyed by Bond identifies exactly the keys with equal
      (sourceSite, dx, dy): a later write with the same key overwrites. */
  lemma EquivalentIsEquality(a: Bond, b: Bond)
    ensures Equivalent(a, b) <==> a == b
  {
  }

  /** Less agrees with the order on the source site first. */
  lemma LessBySourceFirst(a: Bond, b: Bond)
    requires a.sourceSite != b.sourceSite
    ensures Less(a, b) <==> a.sourceSite < b.sourceSite
  {
  }
}

/** The utility U as a dot product of coefficients and features. A
    coefficient is declared as `Beta(name, initial value, lower bound, upper
    bound, status)`; a non-zero status holds it at its initial value during
    estimation. The values the optimiser returns (or a saved estimation
    provides) are a parameter `coef`; `Admissible` says what they must respect. */
module LinearPredictor {
  import opened Common

  datatype Beta = Beta(name: string, init: real, lower: Option<real>, upper: Option<real>, status: int) {
    predicate Fixed() {
      status != 0
    }
  }

  /** A fixed coefficient keeps its initial value; any value stays within its bounds. */
  predicate Admissible(b: Beta, v: real) {
    && (b.Fixed() ==> v == b.init)
    && (b.lower.Some? ==> b.lower.value <= v)
    && (b.upper.Some? ==> v <= b.upper.value)
  }

  /** One `beta * feature` summand of U. */
  datatype Term = Term(beta: Beta, feature: real)

  /** A term whose coefficient is fixed at zero: it switches a feature off. */
  predicate SwitchedOff(t: Term) {
    t.beta.Fixed() && t.beta.init == 0.0
  }

  predicate Active(t: Term) {
    !SwitchedOff(t)
  }

  predicate AllAdmissible(terms: seq<Term>, coef: string -> real) {
    forall i :: 0 <= i < |terms| ==> Admissible(terms[i].beta, coef(terms[i].beta.name))
  }

  /** sum over the terms of coef(beta.name) * feature */
  function Dot(terms: seq<Term>, coef: string -> real): real {
    if terms == [] then 0.0
    else coef(terms[0].beta.name) * terms[0].feature + Dot(terms[1..], coef)
  }

  /** A coefficient fixed at 0 contributes nothing to U, whatever the value of
      its feature: changing that feature leaves U unchanged. */
  lemma {:induction false} SwitchedOffFeatureIgnored(terms: seq<Term>, coef: string -> real, i: int, x: real)
    requires 0 <= i < |terms|
    requires SwitchedOff(terms[i]) && Admissible(terms[i].beta, coef(terms[i].beta.name))
    ensures Dot(terms[i := Term(terms[i].beta, x)], coef) == Dot(terms, coef)
  {
    var terms' := terms[i := Term(terms[i].beta, x)];
    if i == 0 {
      assert terms'[1..] == terms[1..];
    } else {
      assert terms'[1..] == terms[1..][i - 1 := Term(terms[i].beta, x)];
      SwitchedOffFeatureIgnored(terms[1..], coef, i - 1, x);
    }
  }

  /** Terms whose coefficient value is 0 add nothing: when every term that
      `keep` rejects has value 0, U is the dot product over the kept terms. */
  lemma {:induction false} DotOverKept(terms: seq<Term>, coef: string -> real, keep: Term -> bool)
    requires forall i :: 0 <= i < |terms| && !keep(terms[i]) ==> coef(terms[i].beta.name) == 0.0
    ensures Dot(terms, coef) == Dot(Filter(terms, keep), coef)
  {
    if terms != [] {
      DotOverKept(terms[1..], coef, keep);
      var rest := Filter(terms[1..], keep);
      if keep(terms[0]) {
        var kept := [terms[0]] + rest;
        assert Filter(terms, keep) == kept;
        assert kept[0] == terms[0] && kept[1..] == rest;
      } else {
        assert Filter(terms, keep) == rest;
      }
    }
  }

  /** With admissible values, U equals the dot product over the active terms
      alone: declaring a coefficient fixed at 0 removes its term. */
  lemma OnlyActiveTermsCount(terms: seq<Term>, coef: string -> real)
    requires AllAdmissible(terms, coef)
    ensures Dot(terms, coef) == Dot(Filter(terms, Active), coef)
  {
    DotOverKept(terms, coef, Active);
  }
}

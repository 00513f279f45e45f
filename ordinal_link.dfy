/** The ordered-logit link shared by estimation and simulation: four ordered
    thresholds cut the latent utility axis into five intervals, one per number
    of home-to-work trips (0, 1, 2, 3, 4+), and the probability of a category is
    the mass a cumulative distribution function puts on its interval.

    The logistic CDF is not computed: every statement holds for any function
    `F` that is non-decreasing with values in [0, 1] (`IsCdf`). */
module OrdinalLink {
  import opened Common

  /** Number of ordered categories: 0, 1, 2, 3 and 4+ trips. */
  const Categories := 5

  ghost predicate IsCdf(F: real -> real) {
    && (forall x :: 0.0 <= F(x) <= 1.0)
    && (forall x, y :: x <= y ==> F(x) <= F(y))
  }

  /** The cut-points tau1 .. tau4. */
  datatype Thresholds = Thresholds(tau1: real, tau2: real, tau3: real, tau4: real) {
    predicate Ordered() {
      tau1 <= tau2 <= tau3 <= tau4
    }

    /** tau_k for k = 1 .. 4 */
    function Tau(k: int): real
      requires 1 <= k <= 4
    {
      match k
      case 1 => tau1
      case 2 => tau2
      case 3 => tau3
      case 4 => tau4
    }
  }

  /** The thresholds built as tau1 plus running sums of the deltas:
      tau2 = tau1 + delta2, tau3 = tau2 + delta3, tau4 = tau3 + delta4.
      They are ordered exactly when no delta is negative. */
  function FromDeltas(tau1: real, delta2: real, delta3: real, delta4: real): (t: Thresholds)
    ensures t.tau1 == tau1
    ensures t.tau2 - t.tau1 == delta2 && t.tau3 - t.tau2 == delta3 && t.tau4 - t.tau3 == delta4
    ensures t.Ordered() <==> 0.0 <= delta2 && 0.0 <= delta3 && 0.0 <= delta4
  {
    var tau2 := tau1 + delta2;
    var tau3 := tau2 + delta3;
    var tau4 := tau3 + delta4;
    Thresholds(tau1, tau2, tau3, tau4)
  }

  /** Five non-negative entries that add up to 1. */
  ghost predicate IsProbabilityVector(p: seq<real>) {
    && |p| == Categories
    && (forall k :: 0 <= k < |p| ==> 0.0 <= p[k])
    && Sum(p) == 1.0
  }

  /** ChoiceProba: category k gets the mass of the interval (tau_k, tau_{k+1}]
      of the latent axis, P(0) = 1 - F(U - tau1), P(k) = F(U - tau_k) -
      F(U - tau_{k+1}) and P(4) = F(U - tau4). */
  function ChoiceProba(F: real -> real, u: real, t: Thresholds): (p: seq<real>)
    ensures |p| == Categories
    ensures IsCdf(F) && t.Ordered() ==> IsProbabilityVector(p)
    ensures IsCdf(F) && t.Ordered() ==> forall k :: 0 <= k < |p| ==> p[k] <= 1.0
  {
    var p := [1.0 - F(u - t.tau1),
              F(u - t.tau1) - F(u - t.tau2),
              F(u - t.tau2) - F(u - t.tau3),
              F(u - t.tau3) - F(u - t.tau4),
              F(u - t.tau4)];
    SumOfFive(p);
    p
  }

  /** The mass of categories k and above is F(U - tau_k), whatever F is. */
  lemma TailMass(F: real -> real, u: real, t: Thresholds, k: int)
    requires 1 <= k <= 4
    ensures Sum(ChoiceProba(F, u, t)[k..]) == F(u - t.Tau(k))
  {
    var p := ChoiceProba(F, u, t);
    assert Sum(p[4..]) == p[4] by {
      assert p[4..][1..] == [];
    }
    assert Sum(p[3..]) == p[3] + Sum(p[4..]) by {
      assert p[3..][1..] == p[4..];
    }
    assert Sum(p[2..]) == p[2] + Sum(p[3..]) by {
      assert p[2..][1..] == p[3..];
    }
    assert Sum(p[1..]) == p[1] + Sum(p[2..]) by {
      assert p[1..][1..] == p[2..];
    }
  }

  /** The mass of the categories below k is 1 - F(U - tau_k). */
  lemma HeadMass(F: real -> real, u: real, t: Thresholds, k: int)
    requires 1 <= k <= 4
    ensures Sum(ChoiceProba(F, u, t)[..k]) == 1.0 - F(u - t.Tau(k))
  {
    var p := ChoiceProba(F, u, t);
    SumOfFive(p);
    SumSplit(p, k);
    TailMass(F, u, t, k);
  }

  /** Raising the utility moves mass towards more trips: P(0) does not grow,
      P(4+) does not shrink, and for every k the mass of "k trips or more"
      does not shrink. */
  lemma UtilityShiftsMassUp(F: real -> real, t: Thresholds, u1: real, u2: real, k: int)
    requires IsCdf(F)
    requires u1 <= u2 && 1 <= k <= 4
    ensures ChoiceProba(F, u2, t)[0] <= ChoiceProba(F, u1, t)[0]
    ensures ChoiceProba(F, u1, t)[4] <= ChoiceProba(F, u2, t)[4]
    ensures Sum(ChoiceProba(F, u1, t)[k..]) <= Sum(ChoiceProba(F, u2, t)[k..])
  {
    TailMass(F, u1, t, k);
    TailMass(F, u2, t, k);
    assert u1 - t.Tau(k) <= u2 - t.Tau(k);
  }

  /** Raising tau_k alone (keeping the order) does not shrink the mass of
      the categories below k. */
  lemma ThresholdShiftsMassDown(F: real -> real, u: real, t: Thresholds, t': Thresholds, k: int)
    requires IsCdf(F)
    requires 1 <= k <= 4
    requires t.Tau(k) <= t'.Tau(k)
    requires forall j :: 1 <= j <= 4 && j != k ==> t.Tau(j) == t'.Tau(j)
    ensures Sum(ChoiceProba(F, u, t)[..k]) <= Sum(ChoiceProba(F, u, t')[..k])
  {
    HeadMass(F, u, t, k);
    HeadMass(F, u, t', k);
    assert u - t'.Tau(k) <= u - t.Tau(k);
  }

  /** Elem(ChoiceProba, WA): the probability of the observed category. It is
      undefined (biogeme raises an error) when the category is not a key of
      the dictionary, i.e. outside 0 .. 4. */
  function Elem(p: seq<real>, k: int): (r: Option<real>)
    requires |p| == Categories
    ensures r.Some? <==> 0 <= k < Categories
    ensures r.Some? ==> r.value == p[k]
  {
    if 0 <= k < Categories then Some(p[k]) else None
  }
}

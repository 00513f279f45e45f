/** Validation of the model on held-out data: the shuffled sample is split
    80 / 20 into an estimation and a simulation part, and the simulated
    probabilities are turned into an expected number of trips, compared over
    the whole population, the employees, and population group 1 (young
    employees with a car and no public transport subscription). */
module Validation {
  import opened Common
  import opened OrdinalLink
  import opened RuleTable

  // ---------------------------------------------------------------------------
  // The 80 / 20 split

  /** round(0.8 * n): the nearest integer, which is never a tie because
      0.8 * n has a fractional part in {0, .2, .4, .6, .8}. */
  function HeadSize(n: nat): (h: nat)
    ensures h <= n
    ensures -0.5 < h as real - 0.8 * n as real < 0.5
  {
    (4 * n + 2) / 5
  }

  /** `head(h)` and `tail(n - h)` of the shuffled rows, with h = round(0.8 * n):
      the first part holds h rows, the second the n - h others, and together,
      in this order, they are the rows. */
  function Slices<T>(rows: seq<T>): (r: (seq<T>, seq<T>))
    ensures |r.0| == HeadSize(|rows|)
    ensures |r.1| == |rows| - HeadSize(|rows|)
    ensures r.0 + r.1 == rows
  {
    var h := HeadSize(|rows|);
    var last := |rows| - h;
    (rows[..h], rows[|rows| - last..])
  }

  // ---------------------------------------------------------------------------
  // Expected number of trips

  /** `1 * P(1) + 2 * P(2) + 3 * P(3) + 4 * P(4)`, category 4+ counted as 4 trips.
      For a probability vector it lies between the probability of making any
      trip and four times that probability, hence in [0, 4]. */
  function ExpectedTrips(p: seq<real>): (e: real)
    requires |p| == Categories
    ensures IsProbabilityVector(p) ==> 1.0 - p[0] <= e <= 4.0 * (1.0 - p[0])
    ensures IsProbabilityVector(p) ==> 0.0 <= e <= 4.0
  {
    SumOfFive(p);
    p[1] + 2.0 * p[2] + 3.0 * p[3] + 4.0 * p[4]
  }

  /** The expected number of trips of the ordered logit is the sum of the
      masses above the four thresholds. */
  lemma ExpectedTripsOfChoiceProba(F: real -> real, u: real, t: Thresholds)
    ensures ExpectedTrips(ChoiceProba(F, u, t)) == F(u - t.tau1) + F(u - t.tau2) + F(u - t.tau3) + F(u - t.tau4)
  {
  }

  /** A higher utility never lowers the expected number of trips. */
  lemma ExpectedTripsGrowsWithUtility(F: real -> real, t: Thresholds, u1: real, u2: real)
    requires IsCdf(F) && u1 <= u2
    ensures ExpectedTrips(ChoiceProba(F, u1, t)) <= ExpectedTrips(ChoiceProba(F, u2, t))
  {
  }

  // ---------------------------------------------------------------------------
  // Population groups

  /** A row of the simulation output: the person's answers, the observed WA
      and the five simulated probabilities (columns '0' .. '4'). */
  datatype SimulatedPerson = SimulatedPerson(
    workPosition: int,
    age: int,
    carAvail: int,
    gaTicket: int,      // 1 holds a GA travelcard, 2 does not, -99 no answer
    verbundAbo: int,    // same coding for a regional network subscription
    wa: int,
    proba: seq<real>)

  /** The column 'expected nb of trips'. */
  function ExpectedTripsColumn(rows: seq<SimulatedPerson>): (e: seq<real>)
    requires forall i :: 0 <= i < |rows| ==> |rows[i].proba| == Categories
    ensures |e| == |rows|
    ensures forall i :: 0 <= i < |rows| && IsProbabilityVector(rows[i].proba) ==> 0.0 <= e[i] <= 4.0
  {
    seq(|rows|, i requires 0 <= i < |rows| => ExpectedTrips(rows[i].proba))
  }

  predicate IsEmployee(r: SimulatedPerson) {
    r.workPosition == 2
  }

  /** The employees: exactly the rows with work position 2, each as often as
      it occurs among the rows. */
  function Employees(rows: seq<SimulatedPerson>): (e: seq<SimulatedPerson>)
    ensures forall r :: r in e <==> r in rows && r.workPosition == 2
    ensures forall r :: multiset(e)[r] == if r.workPosition == 2 then multiset(rows)[r] else 0
  {
    FilterCounts(rows, IsEmployee);
    Filter(rows, IsEmployee)
  }

  /** The three writes to `PT_subscription`, in the order they are made. */
  const PtSubscriptionRules: seq<Rule<SimulatedPerson>> := [
    Rule((r: SimulatedPerson) => r.gaTicket == -99 || r.verbundAbo == -99, -99),
    Rule((r: SimulatedPerson) => r.gaTicket == 1 || r.verbundAbo == 1, 1),
    Rule((r: SimulatedPerson) => r.gaTicket == 2 && r.verbundAbo == 2, 0)
  ]

  /** `PT_subscription` as a decision table: 1 with any subscription, 0 when
      both answers are "no", -99 when an answer is missing and none is "yes",
      NaN otherwise. */
  function PtSubscriptionTable(r: SimulatedPerson): Option<int> {
    if r.gaTicket == 1 || r.verbundAbo == 1 then Some(1)
    else if r.gaTicket == 2 && r.verbundAbo == 2 then Some(0)
    else if r.gaTicket == -99 || r.verbundAbo == -99 then Some(-99)
    else None
  }

  /** The overriding writes, in their order, produce the decision table. */
  lemma PtSubscriptionRulesTable(r: SimulatedPerson)
    ensures AfterWrites(PtSubscriptionRules, r, None) == PtSubscriptionTable(r)
  {
  }

  /** The "= 1" and "= 0" writes never select the same row, so a subscription
      always ends as 1, whatever an earlier write (-99) left in the cell. */
  lemma SubscriptionOverridesMissingAnswer(r: SimulatedPerson, cell: Option<int>)
    requires r.gaTicket == 1 || r.verbundAbo == 1
    ensures !PtSubscriptionRules[2].guard(r)
    ensures AfterWrites(PtSubscriptionRules, r, cell) == Some(1)
  {
    LastMatchWins(PtSubscriptionRules, r, cell, 1);
  }

  /** The `PT_subscription` column built by the writes. */
  method AddPtSubscription(rows: seq<SimulatedPerson>) returns (pt: seq<Option<int>>)
    ensures |pt| == |rows|
    ensures forall i :: 0 <= i < |rows| ==> pt[i] == PtSubscriptionTable(rows[i])
  {
    pt := NewColumn(rows, PtSubscriptionRules);
    forall i | 0 <= i < |rows|
      ensures pt[i] == PtSubscriptionTable(rows[i])
    {
      PtSubscriptionRulesTable(rows[i]);
    }
  }

  /** Population group 1: employees aged 24 or less, with a car available and
      with `PT_subscription` equal to 0. */
  predicate InGroup1(r: SimulatedPerson) {
    && r.workPosition == 2
    && r.age <= 24
    && PtSubscriptionTable(r) == Some(0)
    && (r.carAvail == 1 || r.carAvail == 2)
  }

  /** The rows of group 1: the employees aged 24 or less, with a car, who
      answered "no" to both subscriptions, each as often as it occurs among
      the rows. */
  function Group1(rows: seq<SimulatedPerson>): (g: seq<SimulatedPerson>)
    ensures forall r :: r in g <==>
      && r in rows && r.workPosition == 2 && r.age <= 24
      && r.gaTicket == 2 && r.verbundAbo == 2
      && (r.carAvail == 1 || r.carAvail == 2)
    ensures forall r :: multiset(g)[r] == (if InGroup1(r) then multiset(rows)[r] else 0)
  {
    FilterCounts(rows, InGroup1);
    Filter(rows, InGroup1)
  }

  /** Group 1 is a subgroup of the employees: selecting it among the
      employees gives the same rows in the same order. */
  lemma {:induction false} Group1AmongEmployees(rows: seq<SimulatedPerson>)
    ensures Filter(Employees(rows), InGroup1) == Group1(rows)
  {
    FilterTwice(rows, IsEmployee, InGroup1);
    FilterAgrees(rows, Both(IsEmployee, InGroup1), InGroup1);
  }
}

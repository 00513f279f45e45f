/** Preparation of the estimation data file from the Mobility and Transport
    Microcensus: the trips are summed per household number (one interviewed
    person per household), the home-to-work trips are counted and capped at
    4, the work position is derived from the answers on employment, the
    children of the household are counted, and the crow-fly distance to the
    workplace gets the sentinel -999 when it is unknown. */
module SurveyPreparation {
  import opened Common
  import opened Person
  import opened RuleTable
  import Estimation = HomeWorkEstimation
  import Simulation = HomeWorkSimulation

  // ---------------------------------------------------------------------------
  // Trips to work per household

  /** A trip row: household number, day of the week (1 = Monday .. 7 = Sunday)
      and the counts of trips from home to work (WAA) and from home to work
      with a stop (WASK). */
  datatype TripRow = TripRow(hhnr: int, tag: int, waa: nat, wask: nat)

  /** Monday to Friday. */
  predicate IsWeekday(r: TripRow) {
    r.tag <= 5
  }

  function Waa(r: TripRow): nat {
    r.waa
  }

  function Wask(r: TripRow): nat {
    r.wask
  }

  /** Every trip from home to work, with or without a stop. */
  function WorkTrips(r: TripRow): nat {
    r.waa + r.wask
  }

  /** `groupby('HHNR').sum()` of one column, for one household. */
  function HouseholdSum(trips: seq<TripRow>, hhnr: int, count: TripRow -> nat): nat {
    if trips == [] then 0
    else (if trips[0].hhnr == hhnr then count(trips[0]) else 0) + HouseholdSum(trips[1..], hhnr, count)
  }

  /** The household numbers of the trips, each once: the index of the grouped table. */
  function GroupKeys(trips: seq<TripRow>): (keys: seq<int>)
    ensures forall i, j :: 0 <= i < j < |keys| ==> keys[i] != keys[j]
    ensures forall h :: h in keys <==> exists i :: 0 <= i < |trips| && trips[i].hhnr == h
  {
    if trips == [] then []
    else
      var keys := GroupKeys(trips[..|trips| - 1]);
      var last := trips[|trips| - 1].hhnr;
      if last in keys then keys else keys + [last]
  }

  /** A cap at 4 trips: `df.loc[df['WA'] > 4, 'WA'] = 4`. */
  function CapAtFour(n: int): int {
    if n > 4 then 4 else n
  }

  /** The cap bounds the count, keeps counts up to 4, and applying it again changes nothing. */
  lemma CapAtFourProperties(n: int)
    ensures CapAtFour(n) <= 4
    ensures n <= 4 ==> CapAtFour(n) == n
    ensures CapAtFour(CapAtFour(n)) == CapAtFour(n)
  {
  }

  /** WA of a household: its weekday trips to work, summed and capped at 4. */
  function WorkTripsOf(trips: seq<TripRow>, hhnr: int): int {
    CapAtFour(HouseholdSum(Filter(trips, IsWeekday), hhnr, WorkTrips))
  }

  /** Summing WAA and WASK separately and adding them is summing the trips to work. */
  lemma {:induction false} SumOfColumns(trips: seq<TripRow>, hhnr: int)
    ensures HouseholdSum(trips, hhnr, Waa) + HouseholdSum(trips, hhnr, Wask) == HouseholdSum(trips, hhnr, WorkTrips)
  {
    if trips != [] {
      SumOfColumns(trips[1..], hhnr);
    }
  }

  lemma {:induction false} FilterSkipsRejected<T>(s: seq<T>, x: T, keep: T -> bool)
    requires !keep(x)
    ensures Filter(s + [x], keep) == Filter(s, keep)
  {
    if s == [] {
      assert Filter([x], keep) == [] + Filter([x][1..], keep);
    } else {
      assert (s + [x])[1..] == s[1..] + [x];
      FilterSkipsRejected(s[1..], x, keep);
    }
  }

  /** A trip on a Saturday or a Sunday changes no household's WA. */
  lemma WeekendTripIgnored(trips: seq<TripRow>, r: TripRow, hhnr: int)
    requires !IsWeekday(r)
    ensures WorkTripsOf(trips + [r], hhnr) == WorkTripsOf(trips, hhnr)
  {
    FilterSkipsRejected(trips, r, IsWeekday);
  }

  /** `.loc[WA > 4, 'WA'] = 4` on the whole column at once. */
  method CapColumnAtFour(wa: array<int>)
    modifies wa
    ensures forall i :: 0 <= i < wa.Length ==> wa[i] == CapAtFour(old(wa[i]))
  {
    forall i | 0 <= i < wa.Length && wa[i] > 4 {
      wa[i] := 4;
    }
  }

  /** The column WA = WAA + WASK of the grouped table, then capped in place. */
  method WorkTripsColumn(waa: seq<nat>, wask: seq<nat>) returns (wa: array<int>)
    requires |waa| == |wask|
    ensures wa.Length == |waa|
    ensures forall i :: 0 <= i < |waa| ==> 0 <= wa[i] <= 4 && wa[i] == CapAtFour(waa[i] + wask[i])
  {
    wa := new int[|waa|](i requires 0 <= i < |waa| => waa[i] + wask[i]);
    CapColumnAtFour(wa);
  }

  /** Keeps the weekday trips, sums WAA and WASK per household, adds them into
      WA and caps it at 4: one row per household that travelled on a weekday. */
  method AggregateWorkTrips(trips: seq<TripRow>) returns (households: seq<int>, wa: array<int>)
    ensures forall i, j :: 0 <= i < j < |households| ==> households[i] != households[j]
    ensures forall h :: h in households <==> exists r :: r in trips && IsWeekday(r) && r.hhnr == h
    ensures wa.Length == |households|
    ensures forall i :: 0 <= i < |households| ==> 0 <= wa[i] <= 4 && wa[i] == WorkTripsOf(trips, households[i])
  {
    var weekday := Filter(trips, IsWeekday);
    households := GroupKeys(weekday);
    var waa := seq(|households|, i requires 0 <= i < |households| => HouseholdSum(weekday, households[i], Waa));
    var wask := seq(|households|, i requires 0 <= i < |households| => HouseholdSum(weekday, households[i], Wask));
    wa := WorkTripsColumn(waa, wask);
    forall i | 0 <= i < |households|
      ensures wa[i] == WorkTripsOf(trips, households[i])
    {
      SumOfColumns(weekday, households[i]);
    }
    forall h
      ensures h in households <==> exists r :: r in trips && IsWeekday(r) && r.hhnr == h
    {
      if h in households {
        var i :| 0 <= i < |weekday| && weekday[i].hhnr == h;
        assert weekday[i] in trips && IsWeekday(weekday[i]);
      }
      if exists r :: r in trips && IsWeekday(r) && r.hhnr == h {
        var r :| r in trips && IsWeekday(r) && r.hhnr == h;
        var i :| 0 <= i < |trips| && trips[i] == r;
        assert r in weekday;
        var j :| 0 <= j < |weekday| && weekday[j] == r;
      }
    }
  }

  // ---------------------------------------------------------------------------
  // Distance from home to work

  /** The value of the unknown work coordinate and of the unknown distance. */
  const Unknown: real := -999.0

  /** `home_work_crow_fly_distance`: the measured distance where the work
      X-coordinate is known, otherwise (and where the measure is NaN) -999. */
  function CrowFlyDistance(workX: real, measured: Option<real>): (d: real)
    ensures workX == Unknown ==> d == Unknown
    ensures d != Unknown ==> workX != Unknown && measured == Some(d)
    ensures workX != Unknown && measured.Some? ==> d == measured.value
  {
    if workX != Unknown && measured.Some? then measured.value else Unknown
  }

  /** An unknown workplace makes the distance terms of both models vanish. */
  lemma UnknownWorkplaceHasNoDistance(measured: Option<real>, carAvail: int)
    ensures Estimation.DistancesOf(CrowFlyDistance(Unknown, measured), carAvail) == Estimation.Distances(0.0, 0.0)
    ensures Simulation.HomeWorkDistance(CrowFlyDistance(Unknown, measured)) == 0.0
  {
  }

  // ---------------------------------------------------------------------------
  // Work position

  /** Answers on the main job: f40800_01 (kind of employment, -99 not
      employed) and f41100_01 (position as an employee, -98/-97 no answer). */
  datatype JobAnswers = JobAnswers(f40800: int, f41100: int)

  /** The seven writes to `work_position`, in the order they are made. */
  const WorkPositionRules: seq<Rule<JobAnswers>> := [
    Rule((a: JobAnswers) => a.f40800 == 1 || a.f40800 == 2 || a.f40800 == 3, 1),
    Rule((a: JobAnswers) => a.f40800 == 4 && a.f41100 == 1, 2),
    Rule((a: JobAnswers) => a.f40800 == 4 && (a.f41100 == 2 || a.f41100 == 3), 1),
    Rule((a: JobAnswers) => a.f40800 == 5, 3),
    Rule((a: JobAnswers) => a.f41100 == 3, 1),
    Rule((a: JobAnswers) => a.f40800 == -99, 0),
    Rule((a: JobAnswers) => a.f40800 == 4 && (a.f41100 == -98 || a.f41100 == -97), -99)
  ]

  /** The work position as a decision table: 0 unemployed, 1 qualified,
      2 employee, 3 apprentice, -99 no answer, None when no rule applies. */
  function WorkPositionTable(a: JobAnswers): Option<int> {
    if a.f40800 == -99 then Some(0)
    else if a.f40800 == 1 || a.f40800 == 2 || a.f40800 == 3 then Some(1)
    else if a.f40800 == 4 then
      (if a.f41100 == 1 then Some(2)
       else if a.f41100 == 2 || a.f41100 == 3 then Some(1)
       else if a.f41100 == -98 || a.f41100 == -97 then Some(-99)
       else None)
    else if a.f40800 == 5 then (if a.f41100 == 3 then Some(1) else Some(3))
    else if a.f41100 == 3 then Some(1)
    else None
  }

  /** The overriding writes, in their order, produce the decision table. */
  lemma WorkPositionRulesTable(a: JobAnswers)
    ensures AfterWrites(WorkPositionRules, a, None) == WorkPositionTable(a)
  {
  }

  /** Someone who is not employed (f40800_01 = -99) gets work position 0 whatever
      the column held before: no later write can select the row. */
  lemma NotEmployedMeansUnemployed(a: JobAnswers, cell: Option<int>)
    requires a.f40800 == -99
    ensures AfterWrites(WorkPositionRules, a, cell) == Some(0)
  {
    LastMatchWins(WorkPositionRules, a, cell, 5);
  }

  /** The `work_position` column built by the writes, row by row. */
  method AssignWorkPosition(answers: seq<JobAnswers>) returns (workPosition: seq<Option<int>>)
    ensures |workPosition| == |answers|
    ensures forall i :: 0 <= i < |answers| ==> workPosition[i] == WorkPositionTable(answers[i])
  {
    workPosition := NewColumn(answers, WorkPositionRules);
    forall i | 0 <= i < |answers|
      ensures workPosition[i] == WorkPositionTable(answers[i])
    {
      WorkPositionRulesTable(answers[i]);
    }
  }

  // ---------------------------------------------------------------------------
  // Children in the household

  /** A member of a household, with the age given in the household survey. */
  datatype HouseholdMember = HouseholdMember(hhnr: int, age: int)

  /** Member of household `hhnr` aged `maxAge` or less. */
  function AgedAtMost(hhnr: int, maxAge: int): HouseholdMember -> bool {
    (m: HouseholdMember) => m.hhnr == hhnr && m.age <= maxAge
  }

  /** `groupby('HHNR').sum()` of the 0/1 column `alter <= maxAge`, for
      household `hhnr`: the number of its members aged `maxAge` or less. */
  function CountAtMost(members: seq<HouseholdMember>, hhnr: int, maxAge: int): (n: nat)
    ensures n == |Filter(members, AgedAtMost(hhnr, maxAge))|
  {
    if members == [] then 0
    else (if members[0].hhnr == hhnr && members[0].age <= maxAge then 1 else 0)
         + CountAtMost(members[1..], hhnr, maxAge)
  }

  /** The count merged onto a person (a left merge): NaN when the household
      has no member in the household table. */
  function ChildCount(members: seq<HouseholdMember>, hhnr: int, maxAge: int): (c: Option<nat>)
    ensures c.None? <==> forall i :: 0 <= i < |members| ==> members[i].hhnr != hhnr
    ensures c.Some? ==> c.value == |Filter(members, AgedAtMost(hhnr, maxAge))|
  {
    if exists i :: 0 <= i < |members| && members[i].hhnr == hhnr then Some(CountAtMost(members, hhnr, maxAge))
    else None
  }

  lemma {:induction false} CountAtMostMonotone(members: seq<HouseholdMember>, hhnr: int, a: int, b: int)
    requires a <= b
    ensures CountAtMost(members, hhnr, a) <= CountAtMost(members, hhnr, b)
  {
    if members != [] {
      CountAtMostMonotone(members[1..], hhnr, a, b);
    }
  }

  /** `nb_less_than_6_in_hh` never exceeds `nb_less_than_15_in_hh`; both are
      NaN together, and otherwise the count of children between 6 and 15 used
      by the estimation is not negative. */
  lemma YoungChildrenAmongChildren(members: seq<HouseholdMember>, hhnr: int)
    ensures ChildCount(members, hhnr, 6).Some? <==> ChildCount(members, hhnr, 15).Some?
    ensures ChildCount(members, hhnr, 6).Some? ==>
      && ChildCount(members, hhnr, 6).value <= ChildCount(members, hhnr, 15).value
      && 0.0 <= Estimation.NbBetween6And15InHh(ChildCount(members, hhnr, 15).value, ChildCount(members, hhnr, 6).value)
  {
    CountAtMostMonotone(members, hhnr, 6, 15);
  }
}

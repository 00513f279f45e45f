/** The trip model as it is applied to a synthetic or survey population: the
    age filter, the coefficients kept in the simulation, its thresholds, its
    own feature definitions, its utility and the simulated ChoiceProba of
    every remaining person. */
module HomeWorkSimulation {
  import opened Common
  import opened OrdinalLink
  import opened LinearPredictor
  import opened Person
  import Estimation = HomeWorkEstimation

  // ---------------------------------------------------------------------------
  // Coefficients: all of them are free (status 0); their values come from
  // the estimation.

  const BExecutives := Beta("b_executives", 0.0, None, None, 0)
  const BCoupleWithChildren := Beta("b_couple_with_children", 0.0, None, None, 0)
  const BStudying := Beta("b_studying", 0.0, None, None, 0)
  const BPublicTransportConnectionQualityAreNa := Beta("b_public_transport_connection_quality_are_na", 0.0, None, None, 0)
  const BTertiaryEducationEmployees := Beta("b_tertiary_education_employees", 0.0, None, None, 0)
  const BRegionEasternSwitzerland := Beta("b_region_eastern_switzerland", 0.0, None, None, 0)
  const BWorkingFromHome := Beta("b_working_from_home", 0.0, None, None, 0)
  const BFrench := Beta("b_french", 0.0, None, None, 0)
  const BBusinessSectorAgriculture := Beta("b_business_sector_agriculture", 0.0, None, None, 0)
  const BBusinessSectorProduction := Beta("b_business_sector_production", 0.0, None, None, 0)
  const BBusinessSectorWholesale := Beta("b_business_sector_wholesale", 0.0, None, None, 0)
  const BBusinessSectorGastronomy := Beta("b_business_sector_gastronomy", 0.0, None, None, 0)
  const BBusinessSectorNonMovers := Beta("b_business_sector_non_movers", 0.0, None, None, 0)
  const BHomeWorkDistance := Beta("b_home_work_distance", 0.0, None, None, 0)
  const BNationalityNw := Beta("b_nationality_nw", 0.0, None, None, 0)
  const BNbLessThan6InHh := Beta("b_nb_less_than_6_in_hh", 0.0, None, None, 0)

  /** The names of the coefficients of U the estimation does not return:
      three it holds at 0, six it does not declare. */
  const NotEstimatedNames: set<string> := {
    BExecutives.name, BRegionEasternSwitzerland.name, BNationalityNw.name,
    BPublicTransportConnectionQualityAreNa.name, BTertiaryEducationEmployees.name,
    BBusinessSectorAgriculture.name, BBusinessSectorWholesale.name, BBusinessSectorNonMovers.name,
    BHomeWorkDistance.name }

  /** Thresholds of the simulation: tau1 is bounded above by 0 here. */
  const Tau1 := Beta("tau1", -1.0, None, Some(0.0), 0)
  const Delta2 := Beta("delta2", 2.0, Some(0.0), None, 0)
  const Delta3 := Beta("delta3", 2.0, Some(0.0), None, 0)
  const Delta4 := Beta("delta4", 2.0, Some(0.0), None, 0)

  function Thresholds(coef: string -> real): OrdinalLink.Thresholds {
    FromDeltas(coef(Tau1.name), coef(Delta2.name), coef(Delta3.name), coef(Delta4.name))
  }

  predicate ThresholdsAdmissible(coef: string -> real) {
    && Admissible(Tau1, coef(Tau1.name))
    && Admissible(Delta2, coef(Delta2.name))
    && Admissible(Delta3, coef(Delta3.name))
    && Admissible(Delta4, coef(Delta4.name))
  }

  /** The simulation runs on the estimated values, which respect the
      estimation's bounds (tau1 <= 3) and not necessarily the simulation's
      own (tau1 <= 0): they still give ordered thresholds, the estimation's,
      and they meet the simulation's bounds exactly when tau1 <= 0. */
  lemma ThresholdsOrdered(coef: string -> real)
    requires Estimation.ThresholdsAdmissible(coef)
    ensures Thresholds(coef).Ordered()
    ensures Thresholds(coef) == Estimation.Thresholds(coef)
    ensures ThresholdsAdmissible(coef) <==> coef(Tau1.name) <= 0.0
  {
  }

  /** An estimated tau1 of 2 is within the estimation's bounds and outside
      the simulation's. */
  lemma EstimatedTau1AboveSimulationBound()
    ensures var coef := (name: string) => if name == Tau1.name then 2.0 else 0.0;
      Estimation.ThresholdsAdmissible(coef) && !ThresholdsAdmissible(coef)
  {
  }

  // ---------------------------------------------------------------------------
  // The values the simulation runs on

  /** The declared initial value of a coefficient of the simulation: -1 for
      tau1, 2 for the deltas, 0 for every coefficient of U. */
  function InitialValue(name: string): real {
    if name == Tau1.name then Tau1.init
    else if name == Delta2.name || name == Delta3.name || name == Delta4.name then 2.0
    else 0.0
  }

  /** `simulate(theBetaValues=betas)`: a coefficient whose name `betas` holds
      takes that value, any other keeps its declared initial value. */
  function SimulationCoef(betas: map<string, real>): string -> real {
    name => if name in betas then betas[name] else InitialValue(name)
  }

  /** The values `getBetaValues()` returns hold none of the coefficients of
      U that the estimation does not estimate (they may hold others, such as
      the piecewise-linear coefficients): each of those keeps its initial
      value, which is 0. */
  lemma NotEstimatedStaysZero(betas: map<string, real>, name: string)
    requires betas.Keys !! NotEstimatedNames
    requires name in NotEstimatedNames
    ensures SimulationCoef(betas)(name) == 0.0
  {
  }

  /** With the values the estimation returns, U is decided by the terms whose
      coefficient was estimated. */
  lemma OnlyEstimatedTermsCount(betas: map<string, real>, piecewise: (real, seq<real>) -> real, p: Person, f: Features)
    requires betas.Keys !! NotEstimatedNames
    ensures UtilityOf(SimulationCoef(betas), piecewise, p, f)
            == piecewise(p.age as real, Estimation.AgeBreakpoints)
               + Dot(Filter(Terms(p, f), EstimatedTerm), SimulationCoef(betas))
               + piecewise(f.workPercentage, Estimation.WorkPercentageBreakpoints)
  {
    forall name | name in NotEstimatedNames
      ensures SimulationCoef(betas)(name) == 0.0
    {
      NotEstimatedStaysZero(betas, name);
    }
  }

  /** Seven coefficients of the simulated U are estimated, and take their
      estimated values. */
  lemma EstimatedCoefficients(betas: map<string, real>)
    requires forall name :: Estimation.Estimated(name) ==> name in betas
    ensures BCoupleWithChildren.name in betas && SimulationCoef(betas)(BCoupleWithChildren.name) == betas[BCoupleWithChildren.name]
    ensures BStudying.name in betas && SimulationCoef(betas)(BStudying.name) == betas[BStudying.name]
    ensures BWorkingFromHome.name in betas && SimulationCoef(betas)(BWorkingFromHome.name) == betas[BWorkingFromHome.name]
    ensures BFrench.name in betas && SimulationCoef(betas)(BFrench.name) == betas[BFrench.name]
    ensures BBusinessSectorProduction.name in betas
            && SimulationCoef(betas)(BBusinessSectorProduction.name) == betas[BBusinessSectorProduction.name]
    ensures BBusinessSectorGastronomy.name in betas
            && SimulationCoef(betas)(BBusinessSectorGastronomy.name) == betas[BBusinessSectorGastronomy.name]
    ensures BNbLessThan6InHh.name in betas && SimulationCoef(betas)(BNbLessThan6InHh.name) == betas[BNbLessThan6InHh.name]
  {
    assert Estimation.FreeBetas[0] == Estimation.BCoupleWithChildren;
    assert Estimation.FreeBetas[1] == Estimation.BStudying;
    assert Estimation.FreeBetas[4] == Estimation.BWorkingFromHome;
    assert Estimation.FreeBetas[6] == Estimation.BFrench;
    assert Estimation.FreeBetas[9] == Estimation.BBusinessSectorProduction;
    assert Estimation.FreeBetas[12] == Estimation.BBusinessSectorGastronomy;
    assert Estimation.FreeBetas[17] == Estimation.BNbLessThan6InHh;
  }

  /** Three coefficients of the simulated U are held at 0 by the estimation,
      which therefore returns no value for them. */
  lemma HeldInEstimation()
    ensures Estimation.BExecutives.Fixed() && Estimation.BExecutives.name == BExecutives.name
    ensures Estimation.BRegionEasternSwitzerland.Fixed()
            && Estimation.BRegionEasternSwitzerland.name == BRegionEasternSwitzerland.name
    ensures Estimation.BNationalityNw.Fixed() && Estimation.BNationalityNw.name == BNationalityNw.name
    ensures !Estimation.Estimated(BExecutives.name)
    ensures !Estimation.Estimated(BRegionEasternSwitzerland.name)
    ensures !Estimation.Estimated(BNationalityNw.name)
  {
  }

  /** Six coefficients of the simulated U are not declared by the
      estimation, which therefore returns no value for them. */
  lemma UndeclaredInEstimation()
    ensures !Estimation.Estimated(BPublicTransportConnectionQualityAreNa.name)
    ensures !Estimation.Estimated(BTertiaryEducationEmployees.name)
    ensures !Estimation.Estimated(BBusinessSectorAgriculture.name)
    ensures !Estimation.Estimated(BBusinessSectorWholesale.name)
    ensures !Estimation.Estimated(BBusinessSectorNonMovers.name)
    ensures !Estimation.Estimated(BHomeWorkDistance.name)
  {
  }

  /** No name of `NotEstimatedNames` is among the values the estimation
      returns, so the values it returns leave all nine at 0. */
  lemma NotEstimatedNamesNotReturned()
    ensures forall name :: name in NotEstimatedNames ==> !Estimation.Estimated(name)
  {
    HeldInEstimation();
    UndeclaredInEstimation();
  }

  // ---------------------------------------------------------------------------
  // Features

  /** The simulation's business sectors: not split by work position, and
      wholesale is division 45 and 49 .. 54 (46 is in no sector). */
  datatype Sectors = Sectors(
    agriculture: real, retail: real, gastronomy: real, finance: real, production: real,
    wholesale: real, servicesFc: real, otherServices: real, others: real, nonMovers: real)
  {
    predicate AllIndicators() {
      IsIndicator(agriculture) && IsIndicator(retail) && IsIndicator(gastronomy)
      && IsIndicator(finance) && IsIndicator(production) && IsIndicator(wholesale)
      && IsIndicator(servicesFc) && IsIndicator(otherServices) && IsIndicator(others)
      && IsIndicator(nonMovers)
    }
    function Total(): real {
      agriculture + retail + gastronomy + finance + production + wholesale + servicesFc + otherServices
      + others + nonMovers
    }
  }

  function SectorsWith(between: (int, int, int) -> bool, noga: int): Sectors {
    Sectors(
      Ind(between(1, noga, 7)),
      Ind(between(47, noga, 47)),
      Ind(between(55, noga, 57)),
      Ind(between(64, noga, 67)),
      Ind(between(10, noga, 35) || between(40, noga, 44)),
      Ind(between(45, noga, 45) || between(49, noga, 54)),
      Ind(between(60, noga, 63) || between(69, noga, 83) || noga == 58),
      Ind(between(86, noga, 90) || between(92, noga, 96) || noga == 59 || noga == 68),
      Ind(between(97, noga, 98)),
      Ind(between(8, noga, 9) || between(84, noga, 85) || noga == 91 || noga == 99))
  }

  /** The sectors with the NOGA tests read as closed intervals: pairwise
      disjoint. */
  function SectorsOf(noga: int): (s: Sectors)
    ensures s.AllIndicators()
    ensures s.Total() <= 1.0
    ensures s.wholesale == 1.0 <==> noga == 45 || 49 <= noga <= 54
    ensures s.Total() == 0.0 <== noga < 1 || 99 < noga
  {
    var s := SectorsWith(Between, noga);
    assert s.AllIndicators();
    s
  }

  /** Division 46 (wholesale trade) is wholesale in the estimation but falls
      in no sector of the simulation. */
  lemma Division46Differs(workPosition: int)
    ensures SectorsOf(46).Total() == 0.0
    ensures workPosition == 2 ==> Estimation.SectorsOf(46, workPosition).wholesaleEmployee == 1.0
  {
    var s := SectorsWith(Between, 46);
    assert s.wholesale == 0.0 && s.agriculture == 0.0;
  }

  /** Read as written, the chained comparisons keep only their upper bound:
      division 5 (agriculture) is also counted in every later sector. */
  lemma AsWrittenNogaBucketsOverlap()
    ensures SectorsWith(BetweenAsWritten, 5).agriculture == 1.0
    ensures SectorsWith(BetweenAsWritten, 5).wholesale == 1.0
    ensures SectorsWith(BetweenAsWritten, 5).Total() > 1.0
  {
  }

  /** work_percentage in the simulation: 100 for a full-time job plus the
      positive percentage of the first part-time job, without a cap. */
  function WorkPercentage(fullPartTimeJob: int, percentageFirstPartTimeJob: int): (w: real)
    ensures 0.0 <= w
    ensures w <= 100.0 ==> w == Estimation.WorkPercentage(fullPartTimeJob, percentageFirstPartTimeJob)
    ensures 100.0 < w ==> Estimation.WorkPercentage(fullPartTimeJob, percentageFirstPartTimeJob) == 100.0
  {
    Ind(fullPartTimeJob == 1) * 100.0
    + percentageFirstPartTimeJob as real * Ind(percentageFirstPartTimeJob > 0)
  }

  /** A full-time worker with a 50 % part-time job works 150 % here, and
      100 % in the estimation. */
  lemma WorkPercentageNotCapped()
    ensures WorkPercentage(1, 50) == 150.0
    ensures Estimation.WorkPercentage(1, 50) == 100.0
  {
  }

  /** tertiary_education_employees: the sum of the four equality tests on the
      tertiary education codes, times the employee test */
  function TertiaryEducationEmployees(workPosition: int, highestEduc: int): (t: real)
    ensures IsIndicator(t)
    ensures t == 1.0 <==> workPosition == 2 && 13 <= highestEduc <= 16
    ensures t == Estimation.EducationOf(highestEduc).tertiary * Ind(workPosition == 2)
  {
    var tertiary := Ind(highestEduc == 13) + Ind(highestEduc == 14) + Ind(highestEduc == 15) + Ind(highestEduc == 16);
    assert tertiary == Ind(13 <= highestEduc <= 16);
    IndProduct(workPosition == 2, 13 <= highestEduc <= 16);
    Ind(workPosition == 2) * tertiary
  }

  /** nationality_northwestern_europe: the sum of ten equality tests on
      distinct country codes, hence 0 or 1, and the estimation's dummy */
  function NationalityNorthwesternEurope(nation: int): (n: real)
    ensures IsIndicator(n)
    ensures n == Estimation.NationalityOf(nation).northwesternEurope
  {
    Ind(nation == 8204) + Ind(nation == 8223) + Ind(nation == 8227) + Ind(nation == 8206)
    + Ind(nation == 8211) + Ind(nation == 8215) + Ind(nation == 8216) + Ind(nation == 8217)
    + Ind(nation == 8228) + Ind(nation == 8234)
  }

  /** home_work_distance: the crow-fly distance in units of 100 km, 0 for
      the negative "unknown" sentinel; the estimation's car and no-car terms
      add up to it. */
  function HomeWorkDistance(crowFly: real): (d: real)
    ensures 0.0 <= d
    ensures crowFly < 0.0 ==> d == 0.0
    ensures forall carAvail :: d == Estimation.DistancesOf(crowFly, carAvail).car + Estimation.DistancesOf(crowFly, carAvail).noCar
  {
    crowFly * Ind(crowFly >= 0.0) / 100000.0
  }

  /** The simulation's variables that enter U. */
  datatype Features = Features(
    executives: real,
    coupleWithChildren: real,
    studying: real,
    ptQualityNa: real,
    tertiaryEducationEmployees: real,
    regionEasternSwitzerland: real,
    french: real,
    sectors: Sectors,
    workPercentage: real,
    homeWorkDistance: real,
    nationalityNorthwesternEurope: real,
    workingFromHome: real)
  {
    predicate AllIndicators() {
      IsIndicator(executives) && IsIndicator(coupleWithChildren) && IsIndicator(studying)
      && IsIndicator(ptQualityNa) && IsIndicator(tertiaryEducationEmployees)
      && IsIndicator(regionEasternSwitzerland) && IsIndicator(french)
      && IsIndicator(nationalityNorthwesternEurope) && IsIndicator(workingFromHome)
    }
  }

  /** The simulation's features of one person; each dummy agrees with the
      estimation's dummy of the same name. */
  function BuildFeatures(p: Person): (f: Features)
    ensures f.AllIndicators()
    ensures f.executives == Estimation.EmploymentOf(p.workPosition, p.gaTicket, p.sex, p.language).executives
    ensures f.coupleWithChildren == Estimation.HouseholdTypeOf(p.hhType, p.age).coupleWithChildren
    ensures f.studying == Estimation.ActivityOf(p.erwerb).studying
    ensures f.french == Estimation.BuildFeatures(p).french
    ensures f.ptQualityNa == Estimation.PtQualityOf(p.ptQuality, p.carAvail).naCar
                             + Estimation.PtQualityOf(p.ptQuality, p.carAvail).naNoCar
    ensures f.regionEasternSwitzerland == Estimation.RegionOf(p.region).easternSwitzerland
    ensures f.workingFromHome == Estimation.HomeOfficeOf(p.homeOffice, p.percentageHomeOffice).workingFromHome
    ensures f.sectors == SectorsOf(p.noga)
    ensures 0.0 <= f.workPercentage && 0.0 <= f.homeWorkDistance
  {
    Features(
      Ind(p.workPosition == 1),
      Ind(p.hhType == 220),
      Ind(p.erwerb == 3),
      Ind(p.ptQuality == 5),
      TertiaryEducationEmployees(p.workPosition, p.highestEduc),
      Ind(p.region == 5),
      Ind(p.language == 2),
      SectorsOf(p.noga),
      WorkPercentage(p.fullPartTimeJob, p.percentageFirstPartTimeJob),
      HomeWorkDistance(p.crowFlyDistance),
      NationalityNorthwesternEurope(p.nation),
      Estimation.HomeOfficeOf(p.homeOffice, p.percentageHomeOffice).workingFromHome)
  }

  // ---------------------------------------------------------------------------
  // Utility and simulated choice probabilities

  /** The beta * feature summands of U, in the order they are written: 16
      terms, every coefficient free with initial value 0. */
  function Terms(p: Person, f: Features): (t: seq<Term>)
    ensures |t| == 16
    ensures forall i :: 0 <= i < |t| ==> !t[i].beta.Fixed() && t[i].beta.init == 0.0
  {
    [ Term(BExecutives, f.executives),
      Term(BCoupleWithChildren, f.coupleWithChildren),
      Term(BStudying, f.studying),
      Term(BPublicTransportConnectionQualityAreNa, f.ptQualityNa),
      Term(BTertiaryEducationEmployees, f.tertiaryEducationEmployees),
      Term(BRegionEasternSwitzerland, f.regionEasternSwitzerland),
      Term(BFrench, f.french),
      Term(BBusinessSectorAgriculture, f.sectors.agriculture),
      Term(BBusinessSectorGastronomy, f.sectors.gastronomy),
      Term(BBusinessSectorProduction, f.sectors.production),
      Term(BBusinessSectorWholesale, f.sectors.wholesale),
      Term(BBusinessSectorNonMovers, f.sectors.nonMovers),
      Term(BHomeWorkDistance, f.homeWorkDistance),
      Term(BNationalityNw, f.nationalityNorthwesternEurope),
      Term(BNbLessThan6InHh, p.nbLessThan6InHh as real),
      Term(BWorkingFromHome, f.workingFromHome) ]
  }

  /** A term whose coefficient the estimation returns a value for. */
  predicate EstimatedTerm(t: Term) {
    Estimation.Estimated(t.beta.name)
  }

  /** U for a person with features `f`: the piecewise-linear terms in age and
      work percentage (coefficients in `piecewise`) plus the dot product. When
      the nine coefficients the estimation does not return are 0, U is
      decided by the terms whose coefficient it does return. */
  function UtilityOf(coef: string -> real, piecewise: (real, seq<real>) -> real, p: Person, f: Features): (u: real)
    ensures (forall name :: name in NotEstimatedNames ==> coef(name) == 0.0) ==>
      u == piecewise(p.age as real, Estimation.AgeBreakpoints)
           + Dot(Filter(Terms(p, f), EstimatedTerm), coef)
           + piecewise(f.workPercentage, Estimation.WorkPercentageBreakpoints)
  {
    DotOverEstimatedTerms(p, f, coef);
    piecewise(p.age as real, Estimation.AgeBreakpoints)
    + Dot(Terms(p, f), coef)
    + piecewise(f.workPercentage, Estimation.WorkPercentageBreakpoints)
  }

  /** Every term of U has an estimated coefficient or one of the nine the
      estimation does not return. */
  lemma EstimatedOrNotReturned(p: Person, f: Features)
    ensures forall i :: 0 <= i < |Terms(p, f)| ==>
      EstimatedTerm(Terms(p, f)[i]) || Terms(p, f)[i].beta.name in NotEstimatedNames
  {
    assert Estimation.FreeBetas[0] == Estimation.BCoupleWithChildren;
    assert Estimation.FreeBetas[1] == Estimation.BStudying;
    assert Estimation.FreeBetas[4] == Estimation.BWorkingFromHome;
    assert Estimation.FreeBetas[6] == Estimation.BFrench;
    assert Estimation.FreeBetas[9] == Estimation.BBusinessSectorProduction;
    assert Estimation.FreeBetas[12] == Estimation.BBusinessSectorGastronomy;
    assert Estimation.FreeBetas[17] == Estimation.BNbLessThan6InHh;
  }

  lemma DotOverEstimatedTerms(p: Person, f: Features, coef: string -> real)
    ensures (forall name :: name in NotEstimatedNames ==> coef(name) == 0.0) ==>
      Dot(Terms(p, f), coef) == Dot(Filter(Terms(p, f), EstimatedTerm), coef)
  {
    if forall name :: name in NotEstimatedNames ==> coef(name) == 0.0 {
      EstimatedOrNotReturned(p, f);
      DotOverKept(Terms(p, f), coef, EstimatedTerm);
    }
  }

  function Utility(coef: string -> real, piecewise: (real, seq<real>) -> real, p: Person): real {
    UtilityOf(coef, piecewise, p, BuildFeatures(p))
  }

  /** The simulated ChoiceProba at utility `u`. */
  function ChoiceProbaAt(F: real -> real, coef: string -> real, u: real): (r: seq<real>)
    ensures |r| == Categories
    ensures IsCdf(F) && Estimation.ThresholdsAdmissible(coef) ==> IsProbabilityVector(r)
  {
    ChoiceProba(F, u, Thresholds(coef))
  }

  /** Drops the children of 14 and younger in place (whatever their work
      position) and returns, row by row, the simulated probabilities of
      0, 1, 2, 3 and 4+ trips of each remaining person. */
  method Simulate(db: DataFrame<Person>, F: real -> real, coef: string -> real, piecewise: (real, seq<real>) -> real)
    returns (probas: seq<seq<real>>)
    modifies db
    ensures db.rows == Filter(old(db.rows), Not(IsChild))
    ensures |probas| == |db.rows|
    ensures forall i :: 0 <= i < |probas| ==> probas[i] == ChoiceProbaAt(F, coef, Utility(coef, piecewise, db.rows[i]))
    ensures IsCdf(F) && Estimation.ThresholdsAdmissible(coef) ==> forall i :: 0 <= i < |probas| ==> IsProbabilityVector(probas[i])
  {
    db.Drop(IsChild);
    var rows := db.rows;
    probas := seq(|rows|, i requires 0 <= i < |rows| => ChoiceProbaAt(F, coef, Utility(coef, piecewise, rows[i])));
  }
}

/** The ordinal logit of daily home-to-work trips as it is fitted: the sample
    filter, the declared coefficients, the thresholds, the features derived
    from a survey person, the utility U, ChoiceProba and the probability whose
    logarithm is each observation's contribution to the log likelihood. */
module HomeWorkEstimation {
  import opened Common
  import opened OrdinalLink
  import opened LinearPredictor
  import opened Person

  // ---------------------------------------------------------------------------
  // Sample

  /** Drops the children of 14 and younger, then the unemployed, in place. */
  method DropChildrenAndUnemployed(db: DataFrame<Person>)
    modifies db
    ensures db.rows == Filter(old(db.rows), WorkingAgeAndEmployed)
  {
    ghost var rows := db.rows;
    db.Drop(IsChild);
    db.Drop(IsUnemployed);
    FilterTwice(rows, Not(IsChild), Not(IsUnemployed));
    FilterAgrees(rows, Both(Not(IsChild), Not(IsUnemployed)), WorkingAgeAndEmployed);
  }

  // ---------------------------------------------------------------------------
  // Coefficients: Beta(name, initial value, lower bound, upper bound, status)

  const BCarAvail := Beta("b_car_avail", 0.0, None, None, 1)
  const BCarAvailNa := Beta("b_car_avail_na", 0.0, None, None, 1)
  const BGaEmployees := Beta("b_ga_employees", 0.0, None, None, 1)
  const BVerbund := Beta("b_verbund", 0.0, None, None, 1)
  const BUrban := Beta("b_urban", 0.0, None, None, 1)
  const BRural := Beta("b_rural", 0.0, None, None, 1)
  const BIntermediate := Beta("b_intermediate", 0.0, None, None, 1)
  const BSingleHousehold := Beta("b_single_household", 0.0, None, None, 1)
  const BCoupleWithoutChildren := Beta("b_couple_without_children", 0.0, None, None, 1)
  const BCoupleWithoutChildren30 := Beta("b_couple_without_children_30", 0.0, None, None, 1)
  const BCoupleWithChildren := Beta("b_couple_with_children", 0.0, None, None, 0)
  const BSingleParentWithChildren := Beta("b_single_parent_with_children", 0.0, None, None, 1)
  const BEmployees := Beta("b_employees", 0.0, None, None, 1)
  const BExecutives := Beta("b_executives", 0.0, None, None, 1)
  const BStudying := Beta("b_studying", 0.0, None, None, 0)
  const BInactive := Beta("b_inactive", 0.0, None, None, 1)
  const BActiveWithoutKnownWorkPercentage := Beta("b_active_without_known_work_percentage", 0.0, None, None, 1)
  const BPublicTransportConnectionQualityAreA := Beta("b_public_transport_connection_quality_are_a", 0.0, None, None, 1)
  const BPublicTransportConnectionQualityAreB := Beta("b_public_transport_connection_quality_are_b", 0.0, None, None, 1)
  const BPublicTransportConnectionQualityAreC := Beta("b_public_transport_connection_quality_are_c", 0.0, None, None, 1)
  const BPublicTransportConnectionQualityAreD := Beta("b_public_transport_connection_quality_are_d", 0.0, None, None, 1)
  const BPublicTransportConnectionQualityAreNaCar := Beta("b_public_transport_connection_quality_are_na_car", 0.0, None, None, 0)
  const BPublicTransportConnectionQualityAreNaNoCar := Beta("b_public_transport_connection_quality_are_na_no_car", 0.0, None, None, 0)
  const BHhIncomeNa := Beta("b_hh_income_na", 0.0, None, None, 1)
  const BHhIncomeLessThan2000 := Beta("b_hh_income_less_than_2000", 0.0, None, None, 1)
  const BHhIncome2000To4000 := Beta("b_hh_income_2000_to_4000", 0.0, None, None, 1)
  const BHhIncome4001To6000 := Beta("b_hh_income_4001_to_6000", 0.0, None, None, 1)
  const BHhIncome6001To8000 := Beta("b_hh_income_6001_to_8000", 0.0, None, None, 1)
  const BHhIncome8001To10000 := Beta("b_hh_income_8001_to_10000", 0.0, None, None, 1)
  const BHhIncome10001To12000 := Beta("b_hh_income_10001_to_12000", 0.0, None, None, 1)
  const BHhIncome12001To14000 := Beta("b_hh_income_12001_to_14000", 0.0, None, None, 1)
  const BHhIncome14001To16000 := Beta("b_hh_income_14001_to_16000", 0.0, None, None, 1)
  const BHhIncomeMoreThan16000 := Beta("b_hh_income_more_than_16000", 0.0, None, None, 1)
  const BNoPostSchoolEducation := Beta("b_no_post_school_education", 0.0, None, None, 1)
  const BSecondaryEducation := Beta("b_secondary_education", 0.0, None, None, 1)
  const BTertiaryEducation := Beta("b_tertiary_education", 0.0, None, None, 1)
  const BUniversity := Beta("b_university", 0.0, None, None, 1)
  const BRegionLakeGeneva := Beta("b_region_lake_geneva", 0.0, None, None, 1)
  const BRegionEspaceMittelland := Beta("b_region_espace_mittelland", 0.0, None, None, 1)
  const BRegionNorthernSwitzerland := Beta("b_region_northern_switzerland", 0.0, None, None, 1)
  const BRegionZurich := Beta("b_region_zurich", 0.0, None, None, 1)
  const BRegionEasternSwitzerland := Beta("b_region_eastern_switzerland", 0.0, None, None, 1)
  const BRegionCentralSwitzerland := Beta("b_region_central_switzerland", 0.0, None, None, 1)
  const BRegionTessin := Beta("b_region_tessin", 0.0, None, None, 1)
  const BMaleEmployees := Beta("b_male_employees", 0.0, None, None, 1)
  const BWorkingFromHome := Beta("b_working_from_home", 0.0, None, None, 0)
  const BWorkingFromHomeNa := Beta("b_working_from_home_na", 0.0, None, None, 1)
  const BPercentageHomeOffice := Beta("b_percentage_home_office", 0.0, None, None, 0)
  const BFrench := Beta("b_french", 0.0, None, None, 0)
  const BItalianEmployees := Beta("b_italian_employees", 0.0, None, None, 1)
  const BBusinessSectorAgricultureEmployee := Beta("b_business_sector_agriculture_employee", 0.0, None, None, 0)
  const BBusinessSectorAgricultureCadre := Beta("b_business_sector_agriculture_cadre", 0.0, None, None, 0)
  const BBusinessSectorProduction := Beta("b_business_sector_production", 0.0, None, None, 0)
  const BBusinessSectorWholesaleEmployee := Beta("b_business_sector_wholesale_employee", 0.0, None, None, 0)
  const BBusinessSectorWholesaleCadre := Beta("b_business_sector_wholesale_cadre", 0.0, None, None, 0)
  const BBusinessSectorRetail := Beta("b_business_sector_retail", 0.0, None, None, 1)
  const BBusinessSectorGastronomy := Beta("b_business_sector_gastronomy", 0.0, None, None, 0)
  const BBusinessSectorFinance := Beta("b_business_sector_finance", 0.0, None, None, 1)
  const BBusinessSectorServicesFc := Beta("b_business_sector_services_fc", 0.0, None, None, 1)
  const BBusinessSectorOtherServices := Beta("b_business_sector_other_services", 0.0, None, None, 1)
  const BBusinessSectorOthers := Beta("b_business_sector_others", 0.0, None, None, 1)
  const BBusinessSectorNonMoversEmployee := Beta("b_business_sector_non_movers_employee", 0.0, None, None, 0)
  const BBusinessSectorNonMoversCadre := Beta("b_business_sector_non_movers_cadre", 0.0, None, None, 0)
  const BHomeWorkDistanceCar := Beta("b_home_work_distance_car", 0.0, None, None, 0)
  const BHomeWorkDistanceNoCar := Beta("b_home_work_distance_no_car", 0.0, None, None, 0)
  const BNbCarInHh := Beta("b_nb_car_in_hh", 0.0, None, None, 1)
  const BNationalityCh := Beta("b_nationality_ch", 0.0, None, None, 1)
  const BNationalityGermany := Beta("b_nationality_germany", 0.0, None, None, 1)
  const BNationalityFrance := Beta("b_nationality_france", 0.0, None, None, 1)
  const BNationalityItaly := Beta("b_nationality_italy", 0.0, None, None, 1)
  const BNationalityNw := Beta("b_nationality_nw", 0.0, None, None, 1)
  const BNationalityE := Beta("b_nationality_e", 0.0, None, None, 1)
  const BNationalitySouthWestEurope := Beta("b_nationality_south_west_europe", 0.0, None, None, 1)
  const BNationalitySoutheastEurope := Beta("b_nationality_southeast_europe", 0.0, None, None, 1)
  const BNbLessThan15InHh := Beta("b_nb_less_than_15_in_hh", 0.0, None, None, 1)
  const BNbLessThan6InHh := Beta("b_nb_less_than_6_in_hh", 0.0, None, None, 0)
  const BNbBetween6And15InHh := Beta("b_nb_between_6_and_15_in_hh", 0.0, None, None, 1)

  /** Thresholds of the ordered logit: tau1 is bounded above by 3, the deltas below by 0. */
  const Tau1 := Beta("tau1", -1.0, None, Some(3.0), 0)
  const Delta2 := Beta("delta2", 2.0, Some(0.0), None, 0)
  const Delta3 := Beta("delta3", 2.0, Some(0.0), None, 0)
  const Delta4 := Beta("delta4", 2.0, Some(0.0), None, 0)

  /** The coefficients of U the estimation leaves free (status 0), thresholds
      included. `getBetaValues()` returns their estimated values, and also
      those of the piecewise-linear coefficients, which live in `piecewise`. */
  const FreeBetas: seq<Beta> := [
    BCoupleWithChildren, BStudying, BPublicTransportConnectionQualityAreNaCar,
    BPublicTransportConnectionQualityAreNaNoCar, BWorkingFromHome, BPercentageHomeOffice, BFrench,
    BBusinessSectorAgricultureEmployee, BBusinessSectorAgricultureCadre, BBusinessSectorProduction,
    BBusinessSectorWholesaleEmployee, BBusinessSectorWholesaleCadre, BBusinessSectorGastronomy,
    BBusinessSectorNonMoversEmployee, BBusinessSectorNonMoversCadre, BHomeWorkDistanceCar,
    BHomeWorkDistanceNoCar, BNbLessThan6InHh, Tau1, Delta2, Delta3, Delta4 ]

  /** The estimation returns a value for the coefficient of this name. */
  predicate Estimated(name: string) {
    exists i :: 0 <= i < |FreeBetas| && FreeBetas[i].name == name
  }

  /** A coefficient of U held fixed is held at 0, which switches its term
      off; a free one is among the estimated values. */
  predicate Declared(b: Beta) {
    && (b.Fixed() ==> b.init == 0.0)
    && (!b.Fixed() ==> Estimated(b.name))
  }

  function Thresholds(coef: string -> real): OrdinalLink.Thresholds {
    FromDeltas(coef(Tau1.name), coef(Delta2.name), coef(Delta3.name), coef(Delta4.name))
  }

  predicate ThresholdsAdmissible(coef: string -> real) {
    && Admissible(Tau1, coef(Tau1.name))
    && Admissible(Delta2, coef(Delta2.name))
    && Admissible(Delta3, coef(Delta3.name))
    && Admissible(Delta4, coef(Delta4.name))
  }

  /** Whatever the optimiser returns within the bounds, tau1 <= tau2 <= tau3 <= tau4 and tau1 <= 3. */
  lemma ThresholdsOrdered(coef: string -> real)
    requires ThresholdsAdmissible(coef)
    ensures Thresholds(coef).Ordered()
    ensures Thresholds(coef).tau1 <= 3.0
  {
  }

  // ---------------------------------------------------------------------------
  // Features

  /** city_typology: urban, rural, intermediate */
  datatype CityTypology = CityTypology(urban: real, rural: real, intermediate: real) {
    predicate AllIndicators() {
      IsIndicator(urban) && IsIndicator(rural) && IsIndicator(intermediate)
    }
    function Total(): real { urban + rural + intermediate }
  }

  function CityTypologyOf(code: int): (c: CityTypology)
    ensures c.AllIndicators()
    ensures c.Total() == Ind(1 <= code <= 3)
  {
    CityTypology(Ind(code == 1), Ind(code == 3), Ind(code == 2))
  }

  /** hh_type: single, couple without children (and its under-31 refinement),
      couple with children, single parent */
  datatype HouseholdType = HouseholdType(
    singleHousehold: real, coupleWithoutChildren: real, coupleWithoutChildren30: real,
    coupleWithChildren: real, singleParentWithChildren: real)
  {
    predicate AllIndicators() {
      IsIndicator(singleHousehold) && IsIndicator(coupleWithoutChildren)
      && IsIndicator(coupleWithoutChildren30) && IsIndicator(coupleWithChildren)
      && IsIndicator(singleParentWithChildren)
    }
    function Total(): real {
      singleHousehold + coupleWithoutChildren + coupleWithChildren + singleParentWithChildren
    }
  }

  function HouseholdTypeOf(hhType: int, age: int): (h: HouseholdType)
    ensures h.AllIndicators()
    ensures h.Total() == Ind(hhType == 10 || hhType == 210 || hhType == 220 || hhType == 230)
    ensures h.coupleWithoutChildren30 <= h.coupleWithoutChildren
    ensures h.coupleWithoutChildren30 == 1.0 ==> age <= 30
  {
    var h := HouseholdType(Ind(hhType == 10), Ind(hhType == 210), Ind(hhType == 210 && age <= 30),
                           Ind(hhType == 220), Ind(hhType == 230));
    assert h.AllIndicators();
    h
  }

  /** ERWERB: studying, inactive, active with unknown work percentage */
  datatype Activity = Activity(studying: real, inactive: real, activeWithoutKnownWorkPercentage: real) {
    predicate AllIndicators() {
      IsIndicator(studying) && IsIndicator(inactive) && IsIndicator(activeWithoutKnownWorkPercentage)
    }
    function Total(): real { studying + inactive + activeWithoutKnownWorkPercentage }
  }

  function ActivityOf(erwerb: int): (a: Activity)
    ensures a.AllIndicators()
    ensures a.Total() == Ind(erwerb == 3 || erwerb == 4 || erwerb == 9)
  {
    Activity(Ind(erwerb == 3), Ind(erwerb == 4), Ind(erwerb == 9))
  }

  /** public_transport_connection_quality_ARE: classes A .. D, and "none"
      split by car availability */
  datatype PtQuality = PtQuality(a: real, b: real, c: real, d: real, naCar: real, naNoCar: real) {
    predicate AllIndicators() {
      IsIndicator(a) && IsIndicator(b) && IsIndicator(c) && IsIndicator(d) && IsIndicator(naCar)
      && IsIndicator(naNoCar)
    }
    function Total(): real { a + b + c + d + naCar + naNoCar }
  }

  /** car_avail_syn_pop: a car is available (code 1 or 2) */
  function CarAvailSynPop(carAvail: int): real {
    Ind(carAvail == 1 || carAvail == 2)
  }

  /** car_avail_NA (negative code: no answer) and car_avail_syn_pop */
  datatype CarAvailability = CarAvailability(na: real, synPop: real)

  function CarAvailabilityOf(carAvail: int): (c: CarAvailability)
    ensures IsIndicator(c.na) && IsIndicator(c.synPop)
    ensures c.na + c.synPop <= 1.0
    ensures c.synPop == 1.0 <==> carAvail == 1 || carAvail == 2
  {
    CarAvailability(Ind(carAvail < 0), CarAvailSynPop(carAvail))
  }

  function PtQualityOf(quality: int, carAvail: int): (q: PtQuality)
    ensures q.AllIndicators()
    ensures q.Total() == Ind(1 <= quality <= 5)
    ensures q.naCar + q.naNoCar == Ind(quality == 5)
    ensures q.naCar == Ind(quality == 5 && (carAvail == 1 || carAvail == 2))
  {
    IndProduct(quality == 5, carAvail == 1 || carAvail == 2);
    var na := Ind(quality == 5);
    var car := CarAvailSynPop(carAvail);
    PtQuality(Ind(quality == 1), Ind(quality == 2), Ind(quality == 3), Ind(quality == 4),
              na * car, na * (1.0 - car))
  }

  /** hh_income: "no answer" (-98) and the nine monthly income bands */
  datatype Income = Income(
    na: real, lessThan2000: real, from2000To4000: real, from4001To6000: real, from6001To8000: real,
    from8001To10000: real, from10001To12000: real, from12001To14000: real, from14001To16000: real,
    moreThan16000: real)
  {
    predicate AllIndicators() {
      IsIndicator(na) && IsIndicator(lessThan2000) && IsIndicator(from2000To4000)
      && IsIndicator(from4001To6000) && IsIndicator(from6001To8000) && IsIndicator(from8001To10000)
      && IsIndicator(from10001To12000) && IsIndicator(from12001To14000) && IsIndicator(from14001To16000)
      && IsIndicator(moreThan16000)
    }
    function Total(): real {
      na + lessThan2000 + from2000To4000 + from4001To6000 + from6001To8000 + from8001To10000
      + from10001To12000 + from12001To14000 + from14001To16000 + moreThan16000
    }
  }

  function IncomeOf(code: int): (i: Income)
    ensures i.AllIndicators()
    ensures i.Total() == Ind(code == -98 || 1 <= code <= 9)
  {
    Income(Ind(code == -98), Ind(code == 1), Ind(code == 2), Ind(code == 3), Ind(code == 4),
           Ind(code == 5), Ind(code == 6), Ind(code == 7), Ind(code == 8), Ind(code == 9))
  }

  /** highest_educ: the four buckets partition the codes 1 .. 17 */
  datatype Education = Education(noPostSchool: real, secondary: real, tertiary: real, university: real) {
    predicate AllIndicators() {
      IsIndicator(noPostSchool) && IsIndicator(secondary) && IsIndicator(tertiary)
      && IsIndicator(university)
    }
    function Total(): real { noPostSchool + secondary + tertiary + university }
  }

  function EducationOf(code: int): (e: Education)
    ensures e.AllIndicators()
    ensures e.Total() == Ind(1 <= code <= 17)
  {
    Education(Ind(1 <= code <= 4), Ind(5 <= code <= 12), Ind(13 <= code <= 16), Ind(code == 17))
  }

  /** the seven large regions of Switzerland */
  datatype Region = Region(
    lakeGeneva: real, espaceMittelland: real, northernSwitzerland: real, zurich: real,
    easternSwitzerland: real, centralSwitzerland: real, tessin: real)
  {
    predicate AllIndicators() {
      IsIndicator(lakeGeneva) && IsIndicator(espaceMittelland) && IsIndicator(northernSwitzerland)
      && IsIndicator(zurich) && IsIndicator(easternSwitzerland) && IsIndicator(centralSwitzerland)
      && IsIndicator(tessin)
    }
    function Total(): real {
      lakeGeneva + espaceMittelland + northernSwitzerland + zurich + easternSwitzerland + centralSwitzerland + tessin
    }
  }

  function RegionOf(code: int): (r: Region)
    ensures r.AllIndicators()
    ensures r.Total() == Ind(1 <= code <= 7)
  {
    Region(Ind(code == 1), Ind(code == 2), Ind(code == 3), Ind(code == 4),
           Ind(code == 5), Ind(code == 6), Ind(code == 7))
  }

  /** nationality groups, by the survey's country codes */
  datatype Nationality = Nationality(
    switzerland: real, germanyAustriaLichtenstein: real, italyVatican: real, franceMonacoSanMarino: real,
    northwesternEurope: real, southWestEurope: real, southeastEurope: real, easternEurope: real)
  {
    predicate AllIndicators() {
      IsIndicator(switzerland) && IsIndicator(germanyAustriaLichtenstein)
      && IsIndicator(italyVatican) && IsIndicator(franceMonacoSanMarino)
      && IsIndicator(northwesternEurope) && IsIndicator(southWestEurope) && IsIndicator(southeastEurope)
      && IsIndicator(easternEurope)
    }
    function Total(): real {
      switzerland + germanyAustriaLichtenstein + italyVatican + franceMonacoSanMarino
      + northwesternEurope + southWestEurope + southeastEurope + easternEurope
    }
  }

  function NationalityOf(nation: int): (n: Nationality)
    ensures n.AllIndicators()
    ensures n.Total() <= 1.0
    ensures n.switzerland == 1.0 <==> nation == 8100
    ensures n.northwesternEurope == Ind(IsNorthwesternEurope(nation))
  {
    Nationality(
      Ind(nation == 8100),
      Ind(nation == 8207 || nation == 8229 || nation == 8222),
      Ind(nation == 8218 || nation == 8241),
      Ind(nation == 8212 || nation == 8226 || nation == 8233),
      Ind(IsNorthwesternEurope(nation)),
      Ind(nation == 8231 || nation == 8236 || nation == 8202),
      Ind(nation == 8224 || nation == 8201 || nation == 8214 || nation == 8256 || nation == 8250 || nation == 8251 || nation == 8252 || nation == 8255 || nation == 8205 || nation == 8239 || nation == 8242 || nation == 8248 || nation == 8254),
      Ind(nation == 8230 || nation == 8232 || nation == 8240 || nation == 8243 || nation == 8244 || nation == 8263 || nation == 8265 || nation == 8266 || nation == 8260 || nation == 8261 || nation == 8262))
  }

  /** The business-sector dummies, computed from the NOGA division with a
      given reading of the chained comparison `lo <= noga_08 <= hi`. */
  datatype Sectors = Sectors(
    agricultureEmployee: real, agricultureCadre: real, retail: real, gastronomy: real,
    finance: real, production: real, wholesaleEmployee: real, wholesaleCadre: real,
    servicesFc: real, otherServices: real, others: real,
    nonMoversEmployee: real, nonMoversCadre: real)
  {
    predicate AllIndicators() {
      IsIndicator(agricultureEmployee) && IsIndicator(agricultureCadre) && IsIndicator(retail)
      && IsIndicator(gastronomy) && IsIndicator(finance) && IsIndicator(production)
      && IsIndicator(wholesaleEmployee) && IsIndicator(wholesaleCadre) && IsIndicator(servicesFc)
      && IsIndicator(otherServices) && IsIndicator(others) && IsIndicator(nonMoversEmployee)
      && IsIndicator(nonMoversCadre)
    }
    function Total(): real {
      agricultureEmployee + agricultureCadre + retail + gastronomy + finance + production
      + wholesaleEmployee + wholesaleCadre + servicesFc + otherServices + others
      + nonMoversEmployee + nonMoversCadre
    }
  }

  function SectorsWith(between: (int, int, int) -> bool, noga: int, workPosition: int): Sectors {
    var employee := workPosition == 2;
    var cadre := workPosition == 1;
    var agriculture := between(1, noga, 7);
    var wholesale := between(45, noga, 46) || between(49, noga, 54);
    var nonMovers := between(8, noga, 9) || between(84, noga, 85) || noga == 91 || noga == 99;
    Sectors(
      Ind(agriculture && employee),
      Ind(agriculture && cadre),
      Ind(between(47, noga, 47)),
      Ind(between(55, noga, 57)),
      Ind(between(64, noga, 67)),
      Ind(between(10, noga, 35) || between(40, noga, 44)),
      Ind(wholesale && employee),
      Ind(wholesale && cadre),
      Ind(between(60, noga, 63) || between(69, noga, 83) || noga == 58),
      Ind(between(86, noga, 90) || between(92, noga, 96) || noga == 59 || noga == 68),
      Ind(between(97, noga, 98)),
      Ind(employee && nonMovers),
      Ind(cadre && nonMovers))
  }

  /** The sectors with the NOGA tests read as closed intervals: at most one
      dummy is 1, employee and cadre variants included. */
  function SectorsOf(noga: int, workPosition: int): (s: Sectors)
    ensures s.AllIndicators()
    ensures s.Total() <= 1.0
    ensures s.Total() == 0.0 <== noga < 1 || 99 < noga
    ensures s.retail == 1.0 <==> noga == 47
  {
    var s := SectorsWith(Between, noga, workPosition);
    assert s.AllIndicators();
    s
  }

  /** Read as written, the chained NOGA comparisons test only their upper
      bound, so a person in agriculture (division 5) is also counted in
      retail, gastronomy, finance and every later sector, and a missing code
      (-99) lands in agriculture. */
  lemma AsWrittenNogaBucketsOverlap()
    ensures SectorsWith(BetweenAsWritten, 5, 2).agricultureEmployee == 1.0
    ensures SectorsWith(BetweenAsWritten, 5, 2).retail == 1.0
    ensures SectorsWith(BetweenAsWritten, 5, 2).Total() > 1.0
    ensures SectorsWith(BetweenAsWritten, -99, 2).agricultureEmployee == 1.0
  {
  }

  /** home_work_distance_car / _no_car: the crow-fly distance in units of
      100 km, counted as 0 when it is the negative "unknown" sentinel, and
      assigned to the car or the no-car term */
  datatype Distances = Distances(car: real, noCar: real)

  function DistancesOf(crowFly: real, carAvail: int): (d: Distances)
    ensures d.car + d.noCar == (if crowFly >= 0.0 then crowFly else 0.0) / 100000.0
    ensures 0.0 <= d.car && 0.0 <= d.noCar
    ensures CarAvailSynPop(carAvail) == 0.0 ==> d.car == 0.0
    ensures CarAvailSynPop(carAvail) == 1.0 ==> d.noCar == 0.0
  {
    var car := CarAvailSynPop(carAvail);
    var known := crowFly * Ind(crowFly >= 0.0);
    Distances(car * known / 100000.0, (1.0 - car) * known / 100000.0)
  }

  /** work_percentage: 100 for a full-time job, plus the positive percentage
      of the first part-time job, capped at 100 */
  function WorkPercentage(fullPartTimeJob: int, percentageFirstPartTimeJob: int): (w: real)
    ensures 0.0 <= w <= 100.0
    ensures fullPartTimeJob == 1 ==> w == 100.0
    ensures fullPartTimeJob != 1 && percentageFirstPartTimeJob <= 100 ==> w == Ind(percentageFirstPartTimeJob > 0) * percentageFirstPartTimeJob as real
  {
    var raw := Ind(fullPartTimeJob == 1) * 100.0
               + percentageFirstPartTimeJob as real * Ind(percentageFirstPartTimeJob > 0);
    if raw < 100.0 then raw else 100.0
  }

  /** home_office: working from home some of the time (codes 1 and 2, with a
      positive percentage), no answer (-99), and the percentage worked from
      home, counted only for codes 1 and 2 */
  datatype HomeOffice = HomeOffice(workingFromHome: real, workingFromHomeNa: real, percentageIfHomeOffice: real)

  function HomeOfficeOf(homeOffice: int, percentageHomeOffice: int): (h: HomeOffice)
    ensures IsIndicator(h.workingFromHome) && IsIndicator(h.workingFromHomeNa)
    ensures h.workingFromHome + h.workingFromHomeNa <= 1.0
    ensures h.workingFromHome == 1.0 <==> (homeOffice == 1 || homeOffice == 2) && percentageHomeOffice > 0
    ensures h.percentageIfHomeOffice
            == if homeOffice == 1 || homeOffice == 2 then percentageHomeOffice as real else 0.0
  {
    var atHome := Ind(homeOffice == 1) + Ind(homeOffice == 2);
    assert atHome == Ind(homeOffice == 1 || homeOffice == 2);
    HomeOffice(Ind(atHome != 0.0 && percentageHomeOffice > 0),
               Ind(homeOffice == -99),
               atHome * percentageHomeOffice as real)
  }

  /** work_position: employees (2) and executives (1), and the dummies that
      are set for employees only */
  datatype Employment = Employment(
    employees: real, executives: real,
    withGeneralAboEmployees: real, maleEmployees: real, italianEmployees: real)
  {
    predicate AllIndicators() {
      IsIndicator(employees) && IsIndicator(executives) && IsIndicator(withGeneralAboEmployees)
      && IsIndicator(maleEmployees) && IsIndicator(italianEmployees)
    }
  }

  function EmploymentOf(workPosition: int, gaTicket: int, sex: int, language: int): (e: Employment)
    ensures e.AllIndicators()
    ensures e.employees == Ind(workPosition == 2) && e.executives == Ind(workPosition == 1)
    ensures e.employees + e.executives <= 1.0
    ensures e.withGeneralAboEmployees <= e.employees && e.maleEmployees <= e.employees
    ensures e.italianEmployees <= e.employees
    ensures e.withGeneralAboEmployees == 1.0 <==> gaTicket == 1 && workPosition == 2
    ensures e.maleEmployees == 1.0 <==> sex == 1 && workPosition == 2
    ensures e.italianEmployees == 1.0 <==> language == 3 && workPosition == 2
  {
    var employee := workPosition == 2;
    Employment(Ind(employee), Ind(workPosition == 1),
               Ind(gaTicket == 1 && employee), Ind(sex == 1 && employee), Ind(language == 3 && employee))
  }

  /** nb_car_in_hh_clean: the number of cars, negative codes counted as 0 */
  function NbCarInHhClean(nbCarInHh: int): (n: real)
    ensures 0.0 <= n
    ensures n == 0.0 <==> nbCarInHh <= 0
    ensures 0 < nbCarInHh ==> n == nbCarInHh as real
  {
    nbCarInHh as real * Ind(nbCarInHh > 0)
  }

  /** nb_between_6_and_15_in_hh: household members up to 15 minus those up to 6 */
  function NbBetween6And15InHh(nbLessThan15InHh: int, nbLessThan6InHh: int): (n: real)
    ensures nbLessThan6InHh <= nbLessThan15InHh ==> 0.0 <= n
    ensures n + nbLessThan6InHh as real == nbLessThan15InHh as real
  {
    (nbLessThan15InHh - nbLessThan6InHh) as real
  }

  /** Every variable the estimation defines from a person. */
  datatype Features = Features(
    carAvail: CarAvailability,
    withVerbundAbo: real,
    city: CityTypology,
    household: HouseholdType,
    activity: Activity,
    ptQuality: PtQuality,
    income: Income,
    education: Education,
    region: Region,
    homeOffice: HomeOffice,
    employment: Employment,
    french: real,
    sectors: Sectors,
    workPercentage: real,
    distance: Distances,
    nbCarInHhClean: real,
    nationality: Nationality,
    nbBetween6And15InHh: real)

  /** The DefineVariable expressions of the estimation, evaluated on one
      person (the NOGA tests read as closed intervals). Each group's
      properties are stated by the function that builds it. */
  function BuildFeatures(p: Person): Features {
    Features(
      CarAvailabilityOf(p.carAvail),
      Ind(p.verbundAbo == 1),
      CityTypologyOf(p.cityTypology),
      HouseholdTypeOf(p.hhType, p.age),
      ActivityOf(p.erwerb),
      PtQualityOf(p.ptQuality, p.carAvail),
      IncomeOf(p.hhIncome),
      EducationOf(p.highestEduc),
      RegionOf(p.region),
      HomeOfficeOf(p.homeOffice, p.percentageHomeOffice),
      EmploymentOf(p.workPosition, p.gaTicket, p.sex, p.language),
      Ind(p.language == 2),
      SectorsOf(p.noga, p.workPosition),
      WorkPercentage(p.fullPartTimeJob, p.percentageFirstPartTimeJob),
      DistancesOf(p.crowFlyDistance, p.carAvail),
      NbCarInHhClean(p.nbCarInHh),
      NationalityOf(p.nation),
      NbBetween6And15InHh(p.nbLessThan15InHh, p.nbLessThan6InHh))
  }

  // ---------------------------------------------------------------------------
  // Utility and choice probabilities

  const AgeBreakpoints: seq<real> := [0.0, 20.0, 65.0, 75.0, 200.0]
  const WorkPercentageBreakpoints: seq<real> := [0.0, 10.0, 50.0, 101.0]

  /** Every term's coefficient is declared as `Declared` says. */
  predicate WellDeclared(terms: seq<Term>) {
    forall i :: 0 <= i < |terms| ==> Declared(terms[i].beta)
  }

  lemma WellDeclaredAppend(a: seq<Term>, b: seq<Term>)
    requires WellDeclared(a) && WellDeclared(b)
    ensures WellDeclared(a + b)
  {
  }

  /** The summands for car availability, subscriptions, city typology and household type. */
  function MobilityToolsAndHouseholdTerms(p: Person, f: Features): (t: seq<Term>)
    ensures |t| == 11 && WellDeclared(t)
  {
    assert FreeBetas[0] == BCoupleWithChildren;
    [ Term(BCarAvail, f.carAvail.synPop),
      Term(BCarAvailNa, f.carAvail.na),
      Term(BGaEmployees, f.employment.withGeneralAboEmployees),
      Term(BVerbund, f.withVerbundAbo),
      Term(BUrban, f.city.urban),
      Term(BRural, f.city.rural),
      Term(BIntermediate, f.city.intermediate),
      Term(BSingleHousehold, f.household.singleHousehold),
      Term(BCoupleWithoutChildren, f.household.coupleWithoutChildren),
      Term(BCoupleWithChildren, f.household.coupleWithChildren),
      Term(BSingleParentWithChildren, f.household.singleParentWithChildren) ]
  }

  /** The summands for work position, occupation and public transport quality. */
  function OccupationAndTransitTerms(p: Person, f: Features): (t: seq<Term>)
    ensures |t| == 11 && WellDeclared(t)
  {
    assert FreeBetas[1] == BStudying;
    assert FreeBetas[2] == BPublicTransportConnectionQualityAreNaCar;
    assert FreeBetas[3] == BPublicTransportConnectionQualityAreNaNoCar;
    [ Term(BEmployees, f.employment.employees),
      Term(BExecutives, f.employment.executives),
      Term(BStudying, f.activity.studying),
      Term(BInactive, f.activity.inactive),
      Term(BActiveWithoutKnownWorkPercentage, f.activity.activeWithoutKnownWorkPercentage),
      Term(BPublicTransportConnectionQualityAreA, f.ptQuality.a),
      Term(BPublicTransportConnectionQualityAreB, f.ptQuality.b),
      Term(BPublicTransportConnectionQualityAreC, f.ptQuality.c),
      Term(BPublicTransportConnectionQualityAreD, f.ptQuality.d),
      Term(BPublicTransportConnectionQualityAreNaCar, f.ptQuality.naCar),
      Term(BPublicTransportConnectionQualityAreNaNoCar, f.ptQuality.naNoCar) ]
  }

  /** The summands for household income and education. */
  function IncomeAndEducationTerms(p: Person, f: Features): (t: seq<Term>)
    ensures |t| == 13 && WellDeclared(t)
  {
    [ Term(BHhIncomeLessThan2000, f.income.lessThan2000),
      Term(BHhIncome2000To4000, f.income.from2000To4000),
      Term(BHhIncome4001To6000, f.income.from4001To6000),
      Term(BHhIncome6001To8000, f.income.from6001To8000),
      Term(BHhIncome8001To10000, f.income.from8001To10000),
      Term(BHhIncome10001To12000, f.income.from10001To12000),
      Term(BHhIncome12001To14000, f.income.from12001To14000),
      Term(BHhIncome14001To16000, f.income.from14001To16000),
      Term(BHhIncomeMoreThan16000, f.income.moreThan16000),
      Term(BNoPostSchoolEducation, f.education.noPostSchool),
      Term(BSecondaryEducation, f.education.secondary),
      Term(BTertiaryEducation, f.education.tertiary),
      Term(BUniversity, f.education.university) ]
  }

  /** The summands for the region. */
  function RegionTerms(p: Person, f: Features): (t: seq<Term>)
    ensures |t| == 7 && WellDeclared(t)
  {
    [ Term(BRegionLakeGeneva, f.region.lakeGeneva),
      Term(BRegionEspaceMittelland, f.region.espaceMittelland),
      Term(BRegionNorthernSwitzerland, f.region.northernSwitzerland),
      Term(BRegionZurich, f.region.zurich),
      Term(BRegionEasternSwitzerland, f.region.easternSwitzerland),
      Term(BRegionCentralSwitzerland, f.region.centralSwitzerland),
      Term(BRegionTessin, f.region.tessin) ]
  }

  /** The summands for male employees, home office and language. */
  function HomeOfficeAndLanguageTerms(p: Person, f: Features): (t: seq<Term>)
    ensures |t| == 6 && WellDeclared(t)
  {
    assert FreeBetas[4] == BWorkingFromHome;
    assert FreeBetas[5] == BPercentageHomeOffice;
    assert FreeBetas[6] == BFrench;
    [ Term(BMaleEmployees, f.employment.maleEmployees),
      Term(BWorkingFromHome, f.homeOffice.workingFromHome),
      Term(BWorkingFromHomeNa, f.homeOffice.workingFromHomeNa),
      Term(BPercentageHomeOffice, f.homeOffice.percentageIfHomeOffice),
      Term(BFrench, f.french),
      Term(BItalianEmployees, f.employment.italianEmployees) ]
  }

  /** The summands for the agriculture, trade, gastronomy, finance and production sectors. */
  function ProductionAndTradeSectorTerms(p: Person, f: Features): (t: seq<Term>)
    ensures |t| == 8 && WellDeclared(t)
  {
    assert FreeBetas[7] == BBusinessSectorAgricultureEmployee;
    assert FreeBetas[8] == BBusinessSectorAgricultureCadre;
    assert FreeBetas[12] == BBusinessSectorGastronomy;
    assert FreeBetas[9] == BBusinessSectorProduction;
    assert FreeBetas[10] == BBusinessSectorWholesaleEmployee;
    assert FreeBetas[11] == BBusinessSectorWholesaleCadre;
    [ Term(BBusinessSectorAgricultureEmployee, f.sectors.agricultureEmployee),
      Term(BBusinessSectorAgricultureCadre, f.sectors.agricultureCadre),
      Term(BBusinessSectorRetail, f.sectors.retail),
      Term(BBusinessSectorGastronomy, f.sectors.gastronomy),
      Term(BBusinessSectorFinance, f.sectors.finance),
      Term(BBusinessSectorProduction, f.sectors.production),
      Term(BBusinessSectorWholesaleEmployee, f.sectors.wholesaleEmployee),
      Term(BBusinessSectorWholesaleCadre, f.sectors.wholesaleCadre) ]
  }

  /** The summands for the service, other and non-mover sectors. */
  function ServiceSectorTerms(p: Person, f: Features): (t: seq<Term>)
    ensures |t| == 5 && WellDeclared(t)
  {
    assert FreeBetas[13] == BBusinessSectorNonMoversEmployee;
    assert FreeBetas[14] == BBusinessSectorNonMoversCadre;
    [ Term(BBusinessSectorServicesFc, f.sectors.servicesFc),
      Term(BBusinessSectorOtherServices, f.sectors.otherServices),
      Term(BBusinessSectorOthers, f.sectors.others),
      Term(BBusinessSectorNonMoversEmployee, f.sectors.nonMoversEmployee),
      Term(BBusinessSectorNonMoversCadre, f.sectors.nonMoversCadre) ]
  }

  /** The summands for distance, cars, nationality and children. */
  function DistanceNationalityChildrenTerms(p: Person, f: Features): (t: seq<Term>)
    ensures |t| == 15 && WellDeclared(t)
  {
    assert FreeBetas[15] == BHomeWorkDistanceCar;
    assert FreeBetas[16] == BHomeWorkDistanceNoCar;
    assert FreeBetas[17] == BNbLessThan6InHh;
    [ Term(BHomeWorkDistanceCar, f.distance.car),
      Term(BHomeWorkDistanceNoCar, f.distance.noCar),
      Term(BNbCarInHh, f.nbCarInHhClean),
      Term(BNationalityCh, f.nationality.switzerland),
      Term(BNationalityGermany, f.nationality.germanyAustriaLichtenstein),
      Term(BNationalityItaly, f.nationality.italyVatican),
      Term(BNationalityFrance, f.nationality.franceMonacoSanMarino),
      Term(BNationalityNw, f.nationality.northwesternEurope),
      Term(BNationalitySouthWestEurope, f.nationality.southWestEurope),
      Term(BNationalitySoutheastEurope, f.nationality.southeastEurope),
      Term(BNationalityE, f.nationality.easternEurope),
      Term(BNbLessThan15InHh, p.nbLessThan15InHh as real),
      Term(BCoupleWithoutChildren30, f.household.coupleWithoutChildren30),
      Term(BNbLessThan6InHh, p.nbLessThan6InHh as real),
      Term(BNbBetween6And15InHh, f.nbBetween6And15InHh) ]
  }

  /** The beta * feature summands of U, in the order they are written. Every
      coefficient held fixed is held at 0, so its term is switched off, and
      every free one is among the estimated values. */
  function Terms(p: Person, f: Features): (t: seq<Term>)
    ensures |t| == 76 && WellDeclared(t)
  {
    var mobility := MobilityToolsAndHouseholdTerms(p, f);
    var occupation := OccupationAndTransitTerms(p, f);
    var income := IncomeAndEducationTerms(p, f);
    var region := RegionTerms(p, f);
    var homeOffice := HomeOfficeAndLanguageTerms(p, f);
    var production := ProductionAndTradeSectorTerms(p, f);
    var services := ServiceSectorTerms(p, f);
    var rest := DistanceNationalityChildrenTerms(p, f);
    WellDeclaredAppend(mobility, occupation);
    WellDeclaredAppend(mobility + occupation, income);
    WellDeclaredAppend(mobility + occupation + income, region);
    WellDeclaredAppend(mobility + occupation + income + region, homeOffice);
    WellDeclaredAppend(mobility + occupation + income + region + homeOffice, production);
    WellDeclaredAppend(mobility + occupation + income + region + homeOffice + production, services);
    WellDeclaredAppend(mobility + occupation + income + region + homeOffice + production + services, rest);
    mobility + occupation + income + region + homeOffice + production + services + rest
  }

  /** U for a person with features `f`: the two piecewise-linear terms (age
      and work percentage, whose own coefficients live in `piecewise`) plus
      the dot product of the terms. With admissible coefficient values, U is
      decided by the terms whose coefficient is not fixed at 0: the features
      of the switched-off terms may take any value. */
  function UtilityOf(coef: string -> real, piecewise: (real, seq<real>) -> real, p: Person, f: Features): (u: real)
    ensures AllAdmissible(Terms(p, f), coef) ==>
      u == piecewise(p.age as real, AgeBreakpoints)
           + Dot(Filter(Terms(p, f), Active), coef)
           + piecewise(f.workPercentage, WorkPercentageBreakpoints)
  {
    DotOverActiveTerms(Terms(p, f), coef);
    piecewise(p.age as real, AgeBreakpoints) + Dot(Terms(p, f), coef) + piecewise(f.workPercentage, WorkPercentageBreakpoints)
  }

  lemma DotOverActiveTerms(terms: seq<Term>, coef: string -> real)
    ensures AllAdmissible(terms, coef) ==> Dot(terms, coef) == Dot(Filter(terms, Active), coef)
  {
    if AllAdmissible(terms, coef) {
      OnlyActiveTermsCount(terms, coef);
    }
  }

  function Utility(coef: string -> real, piecewise: (real, seq<real>) -> real, p: Person): real {
    UtilityOf(coef, piecewise, p, BuildFeatures(p))
  }

  /** ChoiceProba at utility `u` with the estimated thresholds: a probability
      vector over 0 .. 4+ trips whenever the coefficients respect their bounds. */
  function ChoiceProbaAt(F: real -> real, coef: string -> real, u: real): (r: seq<real>)
    ensures |r| == Categories
    ensures IsCdf(F) && ThresholdsAdmissible(coef) ==> IsProbabilityVector(r)
  {
    ChoiceProba(F, u, Thresholds(coef))
  }

  /** Elem(ChoiceProba, WA): the probability whose logarithm is an
      observation's contribution to the log likelihood, at its utility `u`
      (Utility of the person) and its observed number of trips `wa`. It
      exists only for WA in 0 .. 4. */
  function ObservedProba(F: real -> real, coef: string -> real, u: real, wa: int): (r: Option<real>)
    ensures r.Some? <==> 0 <= wa <= 4
    ensures r.Some? && IsCdf(F) && ThresholdsAdmissible(coef) ==> 0.0 <= r.value <= 1.0
  {
    Elem(ChoiceProbaAt(F, coef, u), wa)
  }
}

/** One row of the estimation / simulation data file: a person of the
    Mobility and Transport Microcensus with the survey's integer codes. */
module Person {

  datatype Person = Person(
    age: int,
    sex: int,                          // 1 = male
    language: int,                     // 2 = French, 3 = Italian
    nation: int,                       // nationality code, 8100 = Switzerland
    workPosition: int,                 // 0 unemployed, 1 qualified, 2 employee, 3 apprentice, -99 no answer
    erwerb: int,                       // ERWERB: 3 studying, 4 inactive, 9 active with unknown percentage
    carAvail: int,                     // 1, 2: car available; negative: no answer
    gaTicket: int,                     // 1 = holds a GA travelcard
    verbundAbo: int,                   // 1 = holds a regional network subscription
    cityTypology: int,                 // 1 urban, 2 intermediate, 3 rural
    hhType: int,                       // 10 single, 210 couple without children, 220 with, 230 single parent
    ptQuality: int,                    // public transport connection quality class A..D = 1..4, 5 = none
    hhIncome: int,                     // 1 .. 9 income bands, -98 no answer
    highestEduc: int,                  // 1 .. 17
    region: int,                       // 1 .. 7
    homeOffice: int,                   // 1, 2 works from home, -99 no answer
    percentageHomeOffice: int,
    noga: int,                         // NOGA 2008 business-sector division
    fullPartTimeJob: int,              // 1 = full time
    percentageFirstPartTimeJob: int,
    crowFlyDistance: real,             // metres, -999 when unknown
    nbCarInHh: int,
    nbLessThan15InHh: int,
    nbLessThan6InHh: int,
    wa: int                            // observed number of home-to-work trips (0 .. 4)
  )

  /** A boolean expression used as a number, as biogeme does: 1 or 0. */
  function Ind(b: bool): real {
    if b then 1.0 else 0.0
  }

  predicate IsIndicator(x: real) {
    x == 0.0 || x == 1.0
  }

  /** The product of two 0/1 values is the value of the conjunction. */
  lemma IndProduct(a: bool, b: bool)
    ensures Ind(a) * Ind(b) == Ind(a && b)
    ensures Ind(a) * (1.0 - Ind(b)) == Ind(a && !b)
  {
  }

  /** The closed interval `lo <= x <= hi`, which is what the chained
      comparisons on NOGA codes are meant to select. */
  predicate Between(lo: int, x: int, hi: int) {
    lo <= x <= hi
  }

  /** What `lo <= x <= hi` yields when `x` is a biogeme expression: Python
      expands the chain to `(lo <= x) and (x <= hi)`, the left operand is an
      expression object (always true in a boolean context) and `and` returns
      the right operand, so only the upper bound is tested. */
  predicate BetweenAsWritten(lo: int, x: int, hi: int) {
    x <= hi
  }

  /** Country codes of Belgium, Luxembourg, the Netherlands, Denmark, Finland,
      the United Kingdom, Ireland, Iceland, Norway and Sweden. */
  predicate IsNorthwesternEurope(nation: int) {
    || nation == 8204 || nation == 8223 || nation == 8227 || nation == 8206 || nation == 8211
    || nation == 8215 || nation == 8216 || nation == 8217 || nation == 8228 || nation == 8234
  }

  /** Children of 14 and younger are assumed to make no trip to work. */
  predicate IsChild(p: Person) {
    p.age <= 14
  }

  predicate IsUnemployed(p: Person) {
    p.workPosition == 0
  }

  /** The rows the trip model is fitted on. */
  predicate WorkingAgeAndEmployed(p: Person) {
    p.age > 14 && p.workPosition != 0
  }
}

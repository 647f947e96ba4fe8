/**
 * The shared record shapes and the input validator of the Saju service
 * (shared/schema.ts): the accepted ranges of a birth-data request, the
 * four-pillar chart, the analysis bundle and the stored reading.
 */
module Schema {
  import opened Wrappers

  datatype CalendarType = Solar | Lunar
  datatype Gender = Male | Female

  /** A birth-data request after validation: the enumerations are typed. */
  datatype SajuInput = SajuInput(
    birthYear: int,
    birthMonth: int,
    birthDay: int,
    birthHour: int,
    birthMinute: int,
    calendarType: CalendarType,
    gender: Gender)

  /** A birth-data request as it arrives: numbers plus two free strings. */
  datatype RawInput = RawInput(
    birthYear: int,
    birthMonth: int,
    birthDay: int,
    birthHour: int,
    birthMinute: int,
    calendarType: string,
    gender: string)

  /** The numeric ranges the schema accepts; every bound is inclusive. */
  predicate InRanges(year: int, month: int, day: int, hour: int, minute: int) {
    && 1900 <= year <= 2024
    && 1 <= month <= 12
    && 1 <= day <= 31
    && 0 <= hour <= 23
    && 0 <= minute <= 59
  }

  /** A typed input the schema would have produced. */
  predicate Valid(input: SajuInput) {
    InRanges(input.birthYear, input.birthMonth, input.birthDay, input.birthHour, input.birthMinute)
  }

  function ParseCalendarType(s: string): (r: Option<CalendarType>)
    ensures r == Some(Solar) <==> s == "solar"
    ensures r == Some(Lunar) <==> s == "lunar"
    ensures r == None <==> s != "solar" && s != "lunar"
  {
    if s == "solar" then Some(Solar)
    else if s == "lunar" then Some(Lunar)
    else None
  }

  function ParseGender(s: string): (r: Option<Gender>)
    ensures r == Some(Male) <==> s == "male"
    ensures r == Some(Female) <==> s == "female"
    ensures r == None <==> s != "male" && s != "female"
  {
    if s == "male" then Some(Male)
    else if s == "female" then Some(Female)
    else None
  }

  /**
   * The validator: a request is accepted exactly when every number lies in
   * its range and both strings name a member of their enumeration; an
   * accepted request keeps its numbers.
   */
  function ParseInput(raw: RawInput): (r: Option<SajuInput>)
    ensures r.Some? <==>
      && InRanges(raw.birthYear, raw.birthMonth, raw.birthDay, raw.birthHour, raw.birthMinute)
      && (raw.calendarType == "solar" || raw.calendarType == "lunar")
      && (raw.gender == "male" || raw.gender == "female")
    ensures r.Some? ==>
      && Valid(r.value)
      && r.value.birthYear == raw.birthYear
      && r.value.birthMonth == raw.birthMonth
      && r.value.birthDay == raw.birthDay
      && r.value.birthHour == raw.birthHour
      && r.value.birthMinute == raw.birthMinute
      && (r.value.calendarType == Solar <==> raw.calendarType == "solar")
      && (r.value.gender == Male <==> raw.gender == "male")
  {
    if !InRanges(raw.birthYear, raw.birthMonth, raw.birthDay, raw.birthHour, raw.birthMinute) then None
    else
      match (ParseCalendarType(raw.calendarType), ParseGender(raw.gender))
      case (Some(c), Some(g)) =>
        Some(SajuInput(raw.birthYear, raw.birthMonth, raw.birthDay, raw.birthHour, raw.birthMinute, c, g))
      case _ => None
  }

  /**
   * The day bound does not depend on the month: the 31st passes the schema
   * for every month, 31 February included.
   */
  lemma Day31AcceptedInEveryMonth(year: int, month: int, hour: int, minute: int, cal: string, gender: string)
    requires 1900 <= year <= 2024 && 1 <= month <= 12 && 0 <= hour <= 23 && 0 <= minute <= 59
    requires cal == "solar" || cal == "lunar"
    requires gender == "male" || gender == "female"
    ensures ParseInput(RawInput(year, month, 31, hour, minute, cal, gender)).Some?
  {
  }

  /** One pillar of the chart: stem symbol, branch symbol, Korean reading. */
  datatype Pillar = Pillar(heavenly: string, earthly: string, korean: string)

  datatype FourPillars = FourPillars(year: Pillar, month: Pillar, day: Pillar, time: Pillar)

  datatype Personality = Personality(main: string, traits: string)
  datatype Career = Career(suitableFields: seq<string>, prospects: string)
  datatype Wealth = Wealth(characteristics: string, cautions: string, favorablePeriod: string)
  datatype Health = Health(careAreas: seq<string>, management: string)
  datatype Love = Love(characteristics: string, idealPartner: string, marriageAge: string)
  datatype LifeFlow = LifeFlow(twenties: string, forties: string, sixties: string, summary: string)
  datatype Recommendations = Recommendations(directions: string, colors: string, careers: string, cautions: string)

  datatype SajuAnalysis = SajuAnalysis(
    personality: Personality,
    career: Career,
    wealth: Wealth,
    health: Health,
    love: Love,
    lifeFlow: LifeFlow,
    recommendations: Recommendations)

  /** A reading before the store has given it an id and a timestamp. */
  datatype InsertSajuReading = InsertSajuReading(input: SajuInput, fourPillars: FourPillars, analysis: SajuAnalysis)

  /** A stored reading; `createdAt` is the clock reading in milliseconds. */
  datatype SajuReading = SajuReading(id: int, reading: InsertSajuReading, createdAt: int)
}

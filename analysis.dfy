/**
 * The analysis generator (`generateAnalysis` and its lookup helpers in
 * server/services/sajuCalculator.ts): the day pillar's stem chooses one of
 * five elements, and the element chooses an entry from each per-element
 * table; the remaining sections are the same for every chart.
 *
 * The narrative strings are represented by short English keys. Two entries
 * carry the same key exactly when the source's strings are identical.
 */
module AnalysisGenerator {
  import opened Schema
  import opened SajuCalculator
  import Calendar

  function PersonalityFor(e: Element): (p: Personality)
  {
    match e
    case Wood => Personality("personality.main.wood", "personality.traits.wood")
    case Fire => Personality("personality.main.fire", "personality.traits.fire")
    case Earth => Personality("personality.main.earth", "personality.traits.earth")
    case Metal => Personality("personality.main.metal", "personality.traits.metal")
    case Water => Personality("personality.main.water", "personality.traits.water")
  }

  /** Four suitable career fields per element. */
  function CareerFields(e: Element): (fields: seq<string>)
    ensures |fields| == 4
  {
    match e
    case Wood => ["education, lecturing", "creative work, arts", "environment, agriculture", "counselling, therapy"]
    case Fire => ["education, lecturing", "creative work, arts", "media, broadcasting", "service industry, counselling"]
    case Earth => ["real estate, construction", "finance, insurance", "agriculture, distribution", "medicine, public health"]
    case Metal => ["technology, engineering", "finance, accounting", "law, administration", "medicine, precision work"]
    case Water => ["scholarship, research", "travel, transport", "telecommunications, IT", "culture, arts"]
  }

  /** Two health areas to watch per element. */
  function HealthCareAreas(e: Element): (areas: seq<string>)
    ensures |areas| == 2
  {
    match e
    case Wood => ["liver, gall bladder: care needed", "eyes, eyesight: caution"]
    case Fire => ["heart, circulation: care needed", "stress-related digestive trouble: caution"]
    case Earth => ["stomach, digestion: care needed", "spleen, pancreas: caution"]
    case Metal => ["lungs, respiration: care needed", "skin, nose: caution"]
    case Water => ["kidneys, bladder: care needed", "reproductive organs, pelvis: caution"]
  }

  function HealthManagement(e: Element): string {
    match e
    case Wood => "health.management.wood"
    case Fire => "health.management.fire"
    case Earth => "health.management.earth"
    case Metal => "health.management.metal"
    case Water => "health.management.water"
  }

  function LuckyDirections(e: Element): string {
    match e
    case Wood => "directions: east, south-east"
    case Fire => "directions: south, east"
    case Earth => "directions: south-west, centre"
    case Metal => "directions: west, north-west"
    case Water => "directions: north, north-east"
  }

  function LuckyColors(e: Element): string {
    match e
    case Wood => "colours: green, blue"
    case Fire => "colours: red, orange"
    case Earth => "colours: yellow, brown"
    case Metal => "colours: white, silver"
    case Water => "colours: black, navy"
  }

  function RecommendedCareers(e: Element): string {
    match e
    case Wood => "careers: education, counselling, environment"
    case Fire => "careers: education, counselling, creative work"
    case Earth => "careers: real estate, finance, distribution"
    case Metal => "careers: technology, finance, law"
    case Water => "careers: scholarship, research, IT"
  }

  const CareerProspects: string := "career.prospects"
  const WealthSection: Wealth := Wealth("wealth.characteristics", "wealth.cautions", "wealth.favorablePeriod")
  const LoveSection: Love := Love("love.characteristics", "love.idealPartner", "love.marriageAge")
  const LifeFlowSection: LifeFlow := LifeFlow("lifeFlow.twenties", "lifeFlow.forties", "lifeFlow.sixties", "lifeFlow.summary")
  const RecommendationCautions: string := "recommendations.cautions"

  /**
   * The element whose entry a per-element table yields for the value read
   * from the stem-to-element map: an own element selects its entry; an
   * inherited member is no key of the table, so the `|| fire` fallback
   * selects fire.
   */
  function TableElement(v: ElementValue): (e: Element)
    ensures v.ElementName? ==> e == v.element
    ensures v.InheritedMember? ==> e == Fire
  {
    match v
    case ElementName(e) => e
    case InheritedMember(_) => Fire
  }

  /** The analysis bundle of a chart, keyed on the element of the day pillar's stem. */
  function GenerateAnalysis(fourPillars: FourPillars, input: SajuInput): (a: SajuAnalysis)
    ensures |a.career.suitableFields| == 4 && |a.health.careAreas| == 2
  {
    var dayElement := TableElement(ElementFromStem(fourPillars.day.heavenly));
    SajuAnalysis(
      PersonalityFor(dayElement),
      Career(CareerFields(dayElement), CareerProspects),
      WealthSection,
      Health(HealthCareAreas(dayElement), HealthManagement(dayElement)),
      LoveSection,
      LifeFlowSection,
      Recommendations(
        LuckyDirections(dayElement), LuckyColors(dayElement), RecommendedCareers(dayElement),
        RecommendationCautions))
  }

  /** Every element-keyed section of `a` is the entry of element `e`. */
  predicate SelectedBy(a: SajuAnalysis, e: Element) {
    && a.personality == PersonalityFor(e)
    && a.career.suitableFields == CareerFields(e)
    && a.health.careAreas == HealthCareAreas(e)
    && a.health.management == HealthManagement(e)
    && a.recommendations.directions == LuckyDirections(e)
    && a.recommendations.colors == LuckyColors(e)
    && a.recommendations.careers == RecommendedCareers(e)
  }

  /** The sections that are the same for every chart. */
  predicate HasConstantSections(a: SajuAnalysis) {
    && a.career.prospects == CareerProspects
    && a.wealth == WealthSection
    && a.love == LoveSection
    && a.lifeFlow == LifeFlowSection
    && a.recommendations.cautions == RecommendationCautions
  }

  /** Recovers the element from the personality text: the inverse of the personality table. */
  function ElementOfPersonality(p: Personality): (e: Element)
    ensures p == PersonalityFor(e) || (forall e' :: p != PersonalityFor(e'))
  {
    if p == PersonalityFor(Wood) then Wood
    else if p == PersonalityFor(Earth) then Earth
    else if p == PersonalityFor(Metal) then Metal
    else if p == PersonalityFor(Water) then Water
    else Fire
  }

  /** Every personality entry identifies its element. */
  lemma PersonalityTableInjective(e: Element)
    ensures ElementOfPersonality(PersonalityFor(e)) == e
  {
  }

  /**
   * Every element-keyed section comes from the day pillar's element; the
   * other sections are constant, and nothing else of the chart or the input
   * is read.
   */
  lemma AnalysisFollowsDayElement(fourPillars: FourPillars, input: SajuInput)
    ensures SelectedBy(GenerateAnalysis(fourPillars, input), TableElement(ElementFromStem(fourPillars.day.heavenly)))
    ensures HasConstantSections(GenerateAnalysis(fourPillars, input))
    ensures ElementOfPersonality(GenerateAnalysis(fourPillars, input).personality)
      == TableElement(ElementFromStem(fourPillars.day.heavenly))
  {
  }

  /** No analysis mixes entries of two elements: a bundle selected by two elements selects by one. */
  lemma {:induction false} SelectionIsUnique(a: SajuAnalysis, e1: Element, e2: Element)
    requires SelectedBy(a, e1) && SelectedBy(a, e2)
    ensures e1 == e2
  {
    PersonalityTableInjective(e1);
    PersonalityTableInjective(e2);
  }

  /**
   * Two charts whose day stems select the same table entry get the same analysis,
   * whatever their other pillars and inputs.
   */
  lemma AnalysisDependsOnlyOnDayElement(fp1: FourPillars, in1: SajuInput, fp2: FourPillars, in2: SajuInput)
    requires TableElement(ElementFromStem(fp1.day.heavenly)) == TableElement(ElementFromStem(fp2.day.heavenly))
    ensures GenerateAnalysis(fp1, in1) == GenerateAnalysis(fp2, in2)
  {
  }

  /**
   * A day stem symbol outside the table gets the fire analysis: an ordinary
   * symbol through the stem map's fallback, an `Object.prototype` property
   * name through the per-element tables' fallbacks.
   */
  lemma UnknownDayStemGivesFire(fourPillars: FourPillars, input: SajuInput)
    requires forall i :: 0 <= i < |HeavenlyStems| ==> HeavenlyStems[i].chinese != fourPillars.day.heavenly
    ensures SelectedBy(GenerateAnalysis(fourPillars, input), Fire)
  {
    ElementFromStemFallback(fourPillars.day.heavenly);
  }

  /**
   * The `|| fire` fallbacks of the per-element tables fire exactly for day
   * stem symbols that are `Object.prototype` property names; no chart from
   * the calculator has such a day stem.
   */
  lemma TableFallbackOnlyForInheritedNames(fourPillars: FourPillars, input: SajuInput, conv: (int, int, int) -> SolarDate)
    ensures ElementFromStem(fourPillars.day.heavenly).InheritedMember? <==> fourPillars.day.heavenly in ObjectPrototypeNames
    ensures CalculateFourPillars(input, conv).Ok? ==>
      ElementFromStem(CalculateFourPillars(input, conv).value.day.heavenly).ElementName?
  {
    if CalculateFourPillars(input, conv).Ok? {
      ChartDayStemNamesAnElement(input, conv);
    }
  }

  /**
   * For an accepted solar birth, the analysis is the bundle of the element
   * of day stem `(days + 4) % 10`, where `days` counts from 1900-01-01.
   */
  lemma AnalysisOfValidSolarBirth(input: SajuInput, conv: (int, int, int) -> SolarDate)
    requires Valid(input) && input.calendarType == Solar
    ensures CalculateFourPillars(input, conv).Ok?
    ensures
      var days := Calendar.DayCount(input.birthYear, input.birthMonth, input.birthDay);
      SelectedBy(GenerateAnalysis(CalculateFourPillars(input, conv).value, input), ElementCycle[(days + 4) % 10 / 2])
  {
    DayElementOfValidSolarChart(input, conv);
  }
}

/**
 * The four-pillar chart calculator (server/services/sajuCalculator.ts):
 * the ten heavenly stems, the twelve earthly branches, the index arithmetic
 * that picks one stem and one branch for the year, month, day and hour of
 * birth, and the stem-to-element lookup the analysis is keyed on.
 */
module SajuCalculator {
  import opened Wrappers
  import opened Schema
  import Calendar

  datatype Element = Wood | Fire | Earth | Metal | Water

  datatype Stem = Stem(chinese: string, korean: string, element: Element)
  datatype Branch = Branch(chinese: string, korean: string, animal: string)

  const HeavenlyStems: seq<Stem> := [
    Stem("甲", "갑", Wood), Stem("乙", "을", Wood),
    Stem("丙", "병", Fire), Stem("丁", "정", Fire),
    Stem("戊", "무", Earth), Stem("己", "기", Earth),
    Stem("庚", "경", Metal), Stem("辛", "신", Metal),
    Stem("壬", "임", Water), Stem("癸", "계", Water)
  ]

  const EarthlyBranches: seq<Branch> := [
    Branch("子", "자", "쥐"), Branch("丑", "축", "소"),
    Branch("寅", "인", "호랑이"), Branch("卯", "묘", "토끼"),
    Branch("辰", "진", "용"), Branch("巳", "사", "뱀"),
    Branch("午", "오", "말"), Branch("未", "미", "양"),
    Branch("申", "신", "원숭이"), Branch("酉", "유", "닭"),
    Branch("戌", "술", "개"), Branch("亥", "해", "돼지")
  ]

  /** The five elements in the order the stems cycle through them, two stems each. */
  const ElementCycle: seq<Element> := [Wood, Fire, Earth, Metal, Water]

  /** A calendar date as the lunar converter returns it. */
  datatype SolarDate = SolarDate(year: int, month: int, day: int)

  /** A stem index and a branch index, before they are looked up. */
  datatype Indices = Indices(stem: int, branch: int)

  datatype ChartIndices = ChartIndices(year: Indices, month: Indices, day: Indices, time: Indices)

  /** The only failure: a table read at an index it does not have (a TypeError in the source). */
  datatype CalcError = UndefinedTableEntry

  /**
   * JavaScript's `%` on integers: the remainder keeps the sign of the
   * dividend, so a negative dividend gives a non-positive remainder; on a
   * non-negative dividend it is the mathematical modulo.
   */
  function JsRem(a: int, b: int): (r: int)
    requires b > 0
    ensures a >= 0 ==> 0 <= r < b && r == a % b
    ensures a < 0 ==> -b < r <= 0
  {
    if a >= 0 then a % b else -((-a) % b)
  }

  predicate InTables(ix: Indices) {
    0 <= ix.stem < |HeavenlyStems| && 0 <= ix.branch < |EarthlyBranches|
  }

  function YearIndices(year: int): (ix: Indices)
    ensures year >= 4 ==> InTables(ix)
  {
    Indices(JsRem(year - 4, 10), JsRem(year - 4, 12))
  }

  function MonthIndices(yearStem: int, month: int): (ix: Indices)
    ensures yearStem >= 0 && month >= 0 ==> InTables(ix)
  {
    Indices(JsRem(yearStem * 2 + month, 10), JsRem(month + 1, 12))
  }

  /** `days` counts from 1900-01-01, which was a 戊辰 day. */
  function DayIndices(days: int): (ix: Indices)
    ensures days >= -4 ==> InTables(ix)
  {
    Indices(JsRem(days + 4, 10), JsRem(days + 4, 12))
  }

  /** `hour / 2` is the floor of the half-hour, as `Math.floor(birthHour / 2)`. */
  function TimeIndices(dayStem: int, hour: int): (ix: Indices)
    ensures dayStem >= 0 && hour >= 0 ==> InTables(ix)
  {
    Indices(JsRem(dayStem * 2 + hour / 2, 10), JsRem(hour / 2, 12))
  }

  /** The solar date the chart is computed from: the input's own, or the converter's answer. */
  function ChartDate(input: SajuInput, lunarToSolar: (int, int, int) -> SolarDate): SolarDate {
    if input.calendarType == Lunar then lunarToSolar(input.birthYear, input.birthMonth, input.birthDay)
    else SolarDate(input.birthYear, input.birthMonth, input.birthDay)
  }

  function ChartIndicesOf(date: SolarDate, hour: int): ChartIndices {
    var year := YearIndices(date.year);
    var day := DayIndices(Calendar.DayCount(date.year, date.month, date.day));
    ChartIndices(year, MonthIndices(year.stem, date.month), day, TimeIndices(day.stem, hour))
  }

  /** Reads one pillar out of the two tables; an index outside a table is `undefined`. */
  function MakePillar(ix: Indices): (r: Option<Pillar>)
    ensures r.Some? <==> InTables(ix)
    ensures r.Some? ==>
      var stem := HeavenlyStems[ix.stem];
      var branch := EarthlyBranches[ix.branch];
      r.value == Pillar(stem.chinese, branch.chinese, stem.korean + branch.korean)
  {
    if InTables(ix) then
      var stem := HeavenlyStems[ix.stem];
      var branch := EarthlyBranches[ix.branch];
      Some(Pillar(stem.chinese, branch.chinese, stem.korean + branch.korean))
    else None
  }

  /**
   * The chart of a birth: a lunar birth date is first handed to the
   * converter; the four pillars are then read from the tables, and the call
   * fails if any of the eight indices misses its table.
   */
  function CalculateFourPillars(input: SajuInput, lunarToSolar: (int, int, int) -> SolarDate)
    : (r: Result<FourPillars, CalcError>)
    ensures input.calendarType == Solar && Valid(input) ==> r.Ok?
    ensures
      var ix := ChartIndicesOf(ChartDate(input, lunarToSolar), input.birthHour);
      r.Ok? <==> InTables(ix.year) && InTables(ix.month) && InTables(ix.day) && InTables(ix.time)
  {
    var ix := ChartIndicesOf(ChartDate(input, lunarToSolar), input.birthHour);
    var r :=
      match (MakePillar(ix.year), MakePillar(ix.month), MakePillar(ix.day), MakePillar(ix.time))
      case (Some(y), Some(m), Some(d), Some(t)) => Ok(FourPillars(y, m, d, t))
      case _ => Err(UndefinedTableEntry);
    if input.calendarType == Solar && Valid(input) then
      ValidSolarIndicesInTables(input);
      r
    else
      r
  }

  /** Every input the schema accepts as a solar date keeps all eight indices inside the tables. */
  lemma ValidSolarIndicesInTables(input: SajuInput)
    requires Valid(input) && input.calendarType == Solar
    ensures
      var ix := ChartIndicesOf(SolarDate(input.birthYear, input.birthMonth, input.birthDay), input.birthHour);
      InTables(ix.year) && InTables(ix.month) && InTables(ix.day) && InTables(ix.time)
  {
    Calendar.DayCountNonNegative(input.birthYear, input.birthMonth, input.birthDay);
  }

  /** Year pillar: in range from year 4 on; 1990 is 庚午. */
  lemma YearPillar(year: int)
    requires year >= 4
    ensures InTables(YearIndices(year))
    ensures YearIndices(1990) == Indices(6, 6)
    ensures MakePillar(YearIndices(1990)) == Some(Pillar("庚", "午", "경오"))
  {
    assert HeavenlyStems[6].korean + EarthlyBranches[6].korean == "경오";
  }

  /**
   * Month pillar: the stem stays in range, and the branch is the month
   * shifted by one, so the eleventh month is 子 and the twelfth 丑.
   */
  lemma MonthPillar(yearStem: int, month: int)
    requires 0 <= yearStem < 10 && 1 <= month <= 12
    ensures InTables(MonthIndices(yearStem, month))
    ensures MonthIndices(yearStem, month).branch == if month <= 10 then month + 1 else month - 11
    ensures month == 11 ==> EarthlyBranches[MonthIndices(yearStem, month).branch].chinese == "子"
    ensures month == 12 ==> EarthlyBranches[MonthIndices(yearStem, month).branch].chinese == "丑"
  {
  }

  /** Day pillar: the epoch 1900-01-01 is 戊辰. */
  lemma EpochDayPillar()
    ensures DayIndices(Calendar.DayCount(1900, 1, 1)) == Indices(4, 4)
    ensures MakePillar(DayIndices(Calendar.DayCount(1900, 1, 1))) == Some(Pillar("戊", "辰", "무진"))
  {
    Calendar.EpochIsDayZero();
    assert HeavenlyStems[4].korean + EarthlyBranches[4].korean == "무진";
  }

  /** Day indices repeat with period sixty, as long as the shifted count is not negative. */
  lemma DayIndicesPeriod(n: int)
    requires n >= -4
    ensures DayIndices(n + 60) == DayIndices(n)
  {
  }

  /** Day pillar: a date and the date sixty days later share their pillar (from four days before the epoch on). */
  lemma DayPillarRepeatsEverySixtyDays(year: int, month: int, day: int)
    requires Calendar.DayCount(year, month, day) >= -4
    ensures DayIndices(Calendar.DayCount(year, month, day + 60)) == DayIndices(Calendar.DayCount(year, month, day))
  {
    var n := Calendar.DayCount(year, month, day);
    Calendar.DayRollover(year, month, day, 60);
    DayIndicesPeriod(n);
  }

  /**
   * Hour pillar: the branch is the two-hour period, so hours 0 and 1 are 子
   * and 22 and 23 are 亥; the stem stays in range for any day stem.
   */
  lemma TimePillar(dayStem: int, hour: int)
    requires 0 <= dayStem < 10 && 0 <= hour <= 23
    ensures InTables(TimeIndices(dayStem, hour))
    ensures TimeIndices(dayStem, hour).branch == hour / 2
    ensures hour <= 1 ==> EarthlyBranches[TimeIndices(dayStem, hour).branch].chinese == "子"
    ensures hour >= 22 ==> EarthlyBranches[TimeIndices(dayStem, hour).branch].chinese == "亥"
  {
  }

  /** A stem and a branch that meet somewhere in the sixty-day cycle. */
  ghost predicate IsSexagenary(ix: Indices) {
    exists k :: 0 <= k < 60 && k % 10 == ix.stem && k % 12 == ix.branch
  }

  /** A pair within the tables belongs to the sixty cycle exactly when stem and branch have equal parity. */
  lemma SexagenaryIffSameParity(ix: Indices)
    requires InTables(ix)
    ensures IsSexagenary(ix) <==> ix.stem % 2 == ix.branch % 2
  {
    if ix.stem % 2 == ix.branch % 2 {
      SameParityHasCycleDay(ix.stem, ix.branch);
    } else {
      forall k | 0 <= k < 60 && k % 10 == ix.stem
        ensures k % 12 != ix.branch
      {
        CycleDayParity(k);
      }
    }
  }

  /** The sixty-cycle position of a same-parity pair, by the Chinese remainder theorem. */
  lemma SameParityHasCycleDay(s: int, b: int)
    requires 0 <= s < 10 && 0 <= b < 12 && s % 2 == b % 2
    ensures exists k :: 0 <= k < 60 && k % 10 == s && k % 12 == b
  {
    var h := (b - s) / 2;
    RemainderOf(b - s, 2, h, 0);
    var q := (5 * h) / 6;
    var t := (5 * h) % 6;
    RemainderOf(5 * h, 6, q, t);
    var k := s + 10 * t;
    RemainderOf(k, 10, t, s);
    RemainderOf(k, 12, 4 * h - 5 * q, b);
    assert 0 <= k < 60 && k % 10 == s && k % 12 == b;
  }

  /** Reducing modulo 10 or modulo 12 keeps the parity. */
  lemma CycleDayParity(k: int)
    ensures (k % 10) % 2 == k % 2 && (k % 12) % 2 == k % 2
  {
    var r10, r12 := k % 10, k % 12;
    RemainderOf(k, 10, k / 10, r10);
    RemainderOf(k, 12, k / 12, r12);
    RemainderOf(r10, 2, r10 / 2, r10 % 2);
    RemainderOf(r12, 2, r12 / 2, r12 % 2);
    RemainderOf(k, 2, 5 * (k / 10) + r10 / 2, r10 % 2);
    RemainderOf(k, 2, 6 * (k / 12) + r12 / 2, r12 % 2);
  }

  /** Division facts for the small divisors used here: the quotient and remainder are unique. */
  lemma RemainderOf(x: int, d: int, q: int, r: int)
    requires d == 2 || d == 6 || d == 10 || d == 12
    requires x == d * q + r && 0 <= r < d
    ensures x % d == r && x / d == q
  {
  }

  /** The pair reached from a non-negative count by reducing it modulo 10 and 12 is in the cycle. */
  lemma CountPairIsSexagenary(n: int)
    requires n >= 0
    ensures IsSexagenary(Indices(JsRem(n, 10), JsRem(n, 12)))
  {
    CycleDayParity(n);
    SameParityHasCycleDay(n % 10, n % 12);
  }

  /** Hour pillar: for any day stem of the table, stem and branch share their parity. */
  lemma TimePillarIsSexagenary(dayStem: int, hour: int)
    requires 0 <= dayStem < 10 && 0 <= hour <= 23
    ensures IsSexagenary(TimeIndices(dayStem, hour))
  {
    var q := hour / 2;
    RemainderOf(hour, 2, q, hour % 2);
    var n := dayStem * 2 + q;
    assert 0 <= q < 12 && 0 <= n;
    RemainderOf(q, 12, 0, q);
    assert TimeIndices(dayStem, hour) == Indices(n % 10, q);
    CycleDayParity(n);
    RemainderOf(q, 2, q / 2, q % 2);
    RemainderOf(n, 2, dayStem + q / 2, q % 2);
    SameParityHasCycleDay(n % 10, q);
  }

  /** Month pillar: the stem has the parity of the month and the branch that of the next month. */
  lemma MonthPillarNeverSexagenary(yearStem: int, month: int)
    requires 0 <= yearStem < 10 && 1 <= month <= 12
    ensures !IsSexagenary(MonthIndices(yearStem, month))
  {
    SexagenaryIffSameParity(MonthIndices(yearStem, month));
  }

  /**
   * Parity of the pillars of an accepted solar birth: the year, day and
   * hour pillars are pairs of the sixty cycle, the month pillar never is.
   */
  lemma ValidSolarPillarParity(input: SajuInput)
    requires Valid(input) && input.calendarType == Solar
    ensures
      var ix := ChartIndicesOf(SolarDate(input.birthYear, input.birthMonth, input.birthDay), input.birthHour);
      IsSexagenary(ix.year) && IsSexagenary(ix.day) && IsSexagenary(ix.time) && !IsSexagenary(ix.month)
  {
    var days := Calendar.DayCount(input.birthYear, input.birthMonth, input.birthDay);
    Calendar.DayCountNonNegative(input.birthYear, input.birthMonth, input.birthDay);
    var year := YearIndices(input.birthYear);
    var day := DayIndices(days);
    CountPairIsSexagenary(input.birthYear - 4);
    CountPairIsSexagenary(days + 4);
    TimePillarIsSexagenary(day.stem, input.birthHour);
    MonthPillarNeverSexagenary(year.stem, input.birthMonth);
  }

  /** A solar chart depends on year, month, day and hour only: not on minute, gender or converter. */
  lemma SolarChartIgnoresMinuteGenderAndConverter(
    a: SajuInput, b: SajuInput, convA: (int, int, int) -> SolarDate, convB: (int, int, int) -> SolarDate)
    requires a.calendarType == Solar && b.calendarType == Solar
    requires a.birthYear == b.birthYear && a.birthMonth == b.birthMonth
    requires a.birthDay == b.birthDay && a.birthHour == b.birthHour
    ensures CalculateFourPillars(a, convA) == CalculateFourPillars(b, convB)
  {
  }

  /**
   * The chart of 1990-01-01 at midnight: 庚午 year, 丁寅 month, 庚申 day
   * (32872 days after the epoch), 丙子 hour.
   */
  lemma Chart19900101(conv: (int, int, int) -> SolarDate)
    ensures CalculateFourPillars(SajuInput(1990, 1, 1, 0, 0, Solar, Male), conv)
      == Ok(FourPillars(
        Pillar("庚", "午", "경오"), Pillar("丁", "寅", "정인"),
        Pillar("庚", "申", "경신"), Pillar("丙", "子", "병자")))
  {
    assert Calendar.DayCount(1990, 1, 1) == 32872;
    var ix := ChartIndicesOf(SolarDate(1990, 1, 1), 0);
    assert ix == ChartIndices(Indices(6, 6), Indices(3, 2), Indices(6, 8), Indices(2, 0));
    assert HeavenlyStems[6].korean + EarthlyBranches[6].korean == "경오";
    assert HeavenlyStems[3].korean + EarthlyBranches[2].korean == "정인";
    assert HeavenlyStems[6].korean + EarthlyBranches[8].korean == "경신";
    assert HeavenlyStems[2].korean + EarthlyBranches[0].korean == "병자";
  }

  /**
   * A lunar birth whose converted date falls five days before the epoch
   * gives a negative day index, and the calculation fails.
   */
  lemma LunarDateBeforeEpochFails(input: SajuInput)
    requires input.calendarType == Lunar
    ensures CalculateFourPillars(input, (y, m, d) => SolarDate(1899, 12, 27)).Err?
  {
    assert Calendar.DayCount(1899, 12, 27) == -5;
    assert DayIndices(-5) == Indices(-1, -1);
  }

  /**
   * A converted date one to four days before the epoch still gives
   * non-negative day indices, and the calculation succeeds.
   */
  lemma LunarDateJustBeforeEpochSucceeds(input: SajuInput, day: int)
    requires input.calendarType == Lunar && 28 <= day <= 31 && 0 <= input.birthHour <= 23
    ensures CalculateFourPillars(input, (y, m, d) => SolarDate(1899, 12, day)).Ok?
  {
    Calendar.DayCountInRange(1899, 12, day);
    assert Calendar.DaysBeforeYear(1899) + Calendar.DaysBeforeMonth(1899, 11) == -31;
    var days := Calendar.DayCount(1899, 12, day);
    assert -4 <= days <= -1;
    TimePillar(DayIndices(days).stem, input.birthHour);
  }

  /**
   * The property names every plain JavaScript object inherits from
   * `Object.prototype`. Reading one of them from an object literal yields an
   * inherited member (a function or an object), which is truthy.
   */
  const ObjectPrototypeNames: set<string> := {
    "constructor", "__proto__", "toString", "toLocaleString", "valueOf",
    "hasOwnProperty", "isPrototypeOf", "propertyIsEnumerable",
    "__defineGetter__", "__defineSetter__", "__lookupGetter__", "__lookupSetter__"
  }

  /** What reading the stem-to-element map gives: one of its own elements, or an inherited member. */
  datatype ElementValue = ElementName(element: Element) | InheritedMember(name: string)

  /**
   * The stem-to-element map: each of the ten stem symbols names its element;
   * an inherited property name yields the inherited member, which the `||`
   * keeps because it is truthy; any other symbol is fire.
   */
  function ElementFromStem(stem: string): (v: ElementValue)
    ensures v.InheritedMember? <==> stem in ObjectPrototypeNames
    ensures v.InheritedMember? ==> v.name == stem
  {
    if stem == "甲" || stem == "乙" then ElementName(Wood)
    else if stem == "丙" || stem == "丁" then ElementName(Fire)
    else if stem == "戊" || stem == "己" then ElementName(Earth)
    else if stem == "庚" || stem == "辛" then ElementName(Metal)
    else if stem == "壬" || stem == "癸" then ElementName(Water)
    else if stem in ObjectPrototypeNames then InheritedMember(stem)
    else ElementName(Fire)
  }

  /** The map agrees with the element column of the stem table, and stem `i` has element `i / 2`. */
  lemma ElementFromStemMatchesTable(i: int)
    requires 0 <= i < |HeavenlyStems|
    ensures ElementFromStem(HeavenlyStems[i].chinese) == ElementName(HeavenlyStems[i].element)
    ensures HeavenlyStems[i].element == ElementCycle[i / 2]
  {
  }

  /**
   * A symbol that is no stem of the table gives an inherited member when it
   * is an `Object.prototype` property name, and fire otherwise.
   */
  lemma ElementFromStemFallback(stem: string)
    requires forall i :: 0 <= i < |HeavenlyStems| ==> HeavenlyStems[i].chinese != stem
    ensures ElementFromStem(stem) == if stem in ObjectPrototypeNames then InheritedMember(stem) else ElementName(Fire)
  {
    assert HeavenlyStems[0].chinese != stem && HeavenlyStems[1].chinese != stem;
    assert HeavenlyStems[2].chinese != stem && HeavenlyStems[3].chinese != stem;
    assert HeavenlyStems[4].chinese != stem && HeavenlyStems[5].chinese != stem;
    assert HeavenlyStems[6].chinese != stem && HeavenlyStems[7].chinese != stem;
    assert HeavenlyStems[8].chinese != stem && HeavenlyStems[9].chinese != stem;
  }

  /**
   * Every chart the calculator produces has a day stem from the table, so
   * reading its element never yields an inherited member.
   */
  lemma ChartDayStemNamesAnElement(input: SajuInput, conv: (int, int, int) -> SolarDate)
    requires CalculateFourPillars(input, conv).Ok?
    ensures ElementFromStem(CalculateFourPillars(input, conv).value.day.heavenly).ElementName?
  {
    var ix := ChartIndicesOf(ChartDate(input, conv), input.birthHour);
    assert CalculateFourPillars(input, conv).value.day == MakePillar(ix.day).value;
    ElementFromStemMatchesTable(ix.day.stem);
  }

  /** On an accepted solar birth the day pillar's element is that of stem `(days + 4) % 10`. */
  lemma DayElementOfValidSolarChart(input: SajuInput, conv: (int, int, int) -> SolarDate)
    requires Valid(input) && input.calendarType == Solar
    ensures CalculateFourPillars(input, conv).Ok?
    ensures
      var days := Calendar.DayCount(input.birthYear, input.birthMonth, input.birthDay);
      ElementFromStem(CalculateFourPillars(input, conv).value.day.heavenly) == ElementName(ElementCycle[(days + 4) % 10 / 2])
  {
    var days := Calendar.DayCount(input.birthYear, input.birthMonth, input.birthDay);
    Calendar.DayCountNonNegative(input.birthYear, input.birthMonth, input.birthDay);
    ElementFromStemMatchesTable((days + 4) % 10);
  }
}

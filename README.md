# Saju four-pillar chart: a Dafny model

This project models the computational core of a Saju (four-pillar
astrology) web service. The service takes a birth date and hour and
computes a chart of four pillars: year, month, day and hour. Each pillar is
one of ten heavenly stems plus one of twelve earthly branches. From the
element of the day pillar's stem the service picks canned interpretive text.
It keeps each reading in an in-memory store.

Modules:

- `Schema` (`schema.dfy`): the input validator, with its accepted ranges and
  enumerations, and the record shapes of the chart, the analysis and the
  stored reading.
- `Calendar` (`calendar.dfy`): the day count from 1900-01-01 that the day
  pillar needs. It follows the JavaScript `Date(year, month - 1, day)`
  constructor: month and day overflow roll into the next month or year, and a
  year from 0 to 99 is read as 1900 plus that year. The calendar is the
  proleptic Gregorian one, and days are exact 24-hour units.
- `SajuCalculator` (`calculator.dfy`): the stem and branch tables and
  JavaScript's sign-keeping `%`. It holds the eight index formulas, the
  table reads, `calculateFourPillars` and the stem-to-element map. A read
  outside a table is `undefined` in the source and the following property
  access throws, so the model returns `Err(UndefinedTableEntry)`. The lunar
  converter is a function parameter with no contract.
- `AnalysisGenerator` (`analysis.dfy`): `generateAnalysis` and its six
  element-keyed lookup helpers. The narrative strings are short English keys,
  not the Korean wording. Two entries share a key exactly when the source's
  strings are identical: only the first two career fields of wood and fire
  coincide.
- `Storage` (`storage.dfy`): `MemStorage` as a class with two maps, two
  counters and the insertion order of the user map. `Valid()` states that the
  issued ids are exactly 1 up to the counter, each stored under itself.

For 1990 the code computes the year branch (1990 − 4) % 12 = 6 (午);
`SajuCalculator.YearPillar` proves that 1990 is 庚午.

## Model

| member | source | states |
|---|---|---|
| `Schema.InRanges` | shared/schema.ts:28-32 | the inclusive numeric bounds of the schema: year in [1900,2024], month in [1,12], day in [1,31], hour in [0,23], minute in [0,59]; `ParseInput` is stated against it |
| `Schema.Valid` | shared/schema.ts:27-35 | a typed input is one the schema would have produced: its numbers are `InRanges` (the enumerations are already types) |
| `Schema.ParseCalendarType` | shared/schema.ts:33 | only "solar" and "lunar" are accepted, each mapped to its own calendar type |
| `Schema.ParseGender` | shared/schema.ts:34 | only "male" and "female" are accepted, each mapped to its own gender |
| `Schema.ParseInput` | shared/schema.ts:27-35 | a request is accepted exactly when year is in [1900,2024], month in [1,12], day in [1,31], hour in [0,23], minute in [0,59] and both enumerations match; an accepted request keeps its values and is `Valid` |
| `Schema.Day31AcceptedInEveryMonth` | shared/schema.ts:29-30 | day 31 passes validation for every month, 31 February included |
| `Calendar.IsLeapYear` | server/services/sajuCalculator.ts:54 | the Gregorian leap-year rule the `Date` constructor follows (every fourth year, except century years not divisible by 400); `DaysBeforeYearStep` and `QuotientStep` connect it to the closed-form year start |
| `Calendar.MonthLength` | server/services/sajuCalculator.ts:54 | the length of each month, 28 to 31 days, February 29 in a leap year |
| `Calendar.DaysBeforeMonth` | server/services/sajuCalculator.ts:54 | days from 1 January to the first of a month, between 0 and 335; `DaysBeforeMonthStep` proves it the running sum of `MonthLength` |
| `Calendar.DaysBeforeYear` | server/services/sajuCalculator.ts:53-55 | days from 1900-01-01 to 1 January of a year, in closed form; characterised by `EpochIsDayZero` and `DaysBeforeYearStep` |
| `Calendar.ConstructorYear` | server/services/sajuCalculator.ts:54 | the year `new Date` uses: a two-digit year y becomes 1900 + y, any other year is kept, so the result is never in [0,99] |
| `Calendar.DayCount` | server/services/sajuCalculator.ts:53-55 | the whole days between `new Date(1900, 0, 1)` and `new Date(y, m - 1, d)`, month overflow carried into the year and day overflow into the following months; characterised by the rollover, range and ordering lemmas below |
| `Calendar.DaysBeforeYearStep` | server/services/sajuCalculator.ts:53-55 | the closed-form year start advances by 366 days over a leap year and 365 over any other year |
| `Calendar.QuotientStep` | server/services/sajuCalculator.ts:53-55 | from year y - 1 to y the floor quotient by 4, 100 or 400 grows by one exactly at multiples; this is the leap-year rule inside the closed form |
| `Calendar.DaysBeforeMonthStep` | server/services/sajuCalculator.ts:54 | the cumulative month table is the running sum of the month lengths and ends at the year length |
| `Calendar.EpochIsDayZero` | server/services/sajuCalculator.ts:53-55 | 1900-01-01 is day 0 |
| `Calendar.DaysBeforeYearNonNegative` | server/services/sajuCalculator.ts:53-55 | a year from 1900 on starts at least 365 days per year after the epoch |
| `Calendar.DayCountNonNegative` | server/services/sajuCalculator.ts:53-55 | a date from 1900 on with month in [1,12] and day at least 1 never precedes the epoch |
| `Calendar.DayRollover` | server/services/sajuCalculator.ts:54 | adding k to the day argument adds exactly k to the count |
| `Calendar.MonthRollover` | server/services/sajuCalculator.ts:54 | month 13 of a year is January of the next year |
| `Calendar.February31` | server/services/sajuCalculator.ts:54 | 31 February counts as 3 March, or 2 March in a leap year |
| `Calendar.DayCountInRange` | server/services/sajuCalculator.ts:54 | for a year from 100 on and a month in [1,12], the count is year start + month start + day - 1, with no rollover |
| `Calendar.NextDayOfRealDate` | server/services/sajuCalculator.ts:54 | the last day of a month is followed by the first day of the next month or year |
| `Calendar.DayCountWithinYear` | server/services/sajuCalculator.ts:53-55 | a real date of a year counts from that year's start and stays before the next year's start |
| `Calendar.DaysBeforeYearIncreases` | server/services/sajuCalculator.ts:53-55 | later years start later |
| `Calendar.DaysBeforeMonthIncreases` | server/services/sajuCalculator.ts:54 | a month ends no later than any later month starts |
| `Calendar.DayCountIncreasesWithinYear` | server/services/sajuCalculator.ts:53-55 | within a year, later real dates get larger counts |
| `Calendar.DayCountIncreasesAcrossYears` | server/services/sajuCalculator.ts:53-55 | real dates in later years get larger counts |
| `SajuCalculator.JsRem` | server/services/sajuCalculator.ts:45-61 | the remainder has the sign of the dividend: the mathematical modulo for a non-negative dividend, a value in (-b, 0] for a negative one |
| `SajuCalculator.YearIndices` | server/services/sajuCalculator.ts:45-46 | the year stem and branch indices (year − 4) % 10 and % 12; both are in their tables from year 4 on |
| `SajuCalculator.MonthIndices` | server/services/sajuCalculator.ts:49-50 | the month indices (2 · yearStem + month) % 10 and (month + 1) % 12; in range for a non-negative year stem and month |
| `SajuCalculator.DayIndices` | server/services/sajuCalculator.ts:56-57 | the day indices (days + 4) % 10 and % 12; in range from four days before the epoch on |
| `SajuCalculator.TimeIndices` | server/services/sajuCalculator.ts:60-61 | the hour indices (2 · dayStem + hour / 2) % 10 and (hour / 2) % 12; in range for a non-negative day stem and hour |
| `SajuCalculator.ChartDate` | server/services/sajuCalculator.ts:34-42 | the date the chart is computed from: the input's own date for a solar birth, the converter's answer for a lunar one; `SolarChartIgnoresMinuteGenderAndConverter` shows what a solar chart reads |
| `SajuCalculator.ChartIndicesOf` | server/services/sajuCalculator.ts:45-61 | the eight indices of a date and hour, the month from the year stem and the hour from the day stem; `ValidSolarIndicesInTables` and `ValidSolarPillarParity` are stated about it |
| `SajuCalculator.MakePillar` | server/services/sajuCalculator.ts:63-84 | a pillar exists exactly when both indices are in their tables; then `heavenly` and `earthly` are the table symbols and `korean` is the stem's Korean reading followed by the branch's |
| `SajuCalculator.CalculateFourPillars` | server/services/sajuCalculator.ts:33-85 | the chart succeeds exactly when all eight indices are in range, and it always succeeds for an accepted solar input |
| `SajuCalculator.ValidSolarIndicesInTables` | shared/schema.ts:27-35 | every accepted solar input puts all eight indices of `calculateFourPillars` in range |
| `SajuCalculator.YearPillar` | server/services/sajuCalculator.ts:45-46 | year indices are in range from year 4 on; 1990 gives indices (6, 6), pillar 庚午 / 경오 |
| `SajuCalculator.MonthPillar` | server/services/sajuCalculator.ts:49-50 | month indices are in range; the branch is month + 1, wrapping so that month 11 is 子 and month 12 is 丑 |
| `SajuCalculator.EpochDayPillar` | server/services/sajuCalculator.ts:53-57 | 1900-01-01 gives day indices (4, 4), pillar 戊辰 / 무진 |
| `SajuCalculator.DayIndicesPeriod` | server/services/sajuCalculator.ts:56-57 | day indices repeat every 60 days while the shifted count is non-negative |
| `SajuCalculator.DayPillarRepeatsEverySixtyDays` | server/services/sajuCalculator.ts:53-57 | a date and the date 60 days later share the day pillar |
| `SajuCalculator.TimePillar` | server/services/sajuCalculator.ts:60-61 | hour indices are in range; the branch is hour / 2, so hours 0-1 are 子 and 22-23 are 亥 |
| `SajuCalculator.SexagenaryIffSameParity` | server/services/sajuCalculator.ts:45-61 | a (stem, branch) pair occurs in the sixty cycle exactly when both indices have equal parity |
| `SajuCalculator.SameParityHasCycleDay` | server/services/sajuCalculator.ts:45-61 | every same-parity (stem, branch) pair has a position in the sixty cycle |
| `SajuCalculator.CycleDayParity` | server/services/sajuCalculator.ts:45-61 | reducing modulo 10 or 12 keeps the parity, which is why stem and branch of one count share it |
| `SajuCalculator.CountPairIsSexagenary` | server/services/sajuCalculator.ts:45-46 | reducing one non-negative count modulo 10 and 12 gives a pair of the sixty cycle |
| `SajuCalculator.TimePillarIsSexagenary` | server/services/sajuCalculator.ts:60-61 | the hour pillar is a pair of the sixty cycle |
| `SajuCalculator.MonthPillarNeverSexagenary` | server/services/sajuCalculator.ts:49-50 | the month pillar's stem and branch always have opposite parity, so it is never a pair of the sixty cycle |
| `SajuCalculator.ValidSolarPillarParity` | server/services/sajuCalculator.ts:45-61 | for an accepted solar input, the year, day and hour pillars are sixty-cycle pairs and the month pillar is not |
| `SajuCalculator.SolarChartIgnoresMinuteGenderAndConverter` | server/services/sajuCalculator.ts:34-42 | a solar chart depends only on year, month, day and hour, not on minute, gender or the lunar converter |
| `SajuCalculator.Chart19900101` | server/services/sajuCalculator.ts:33-85 | 1990-01-01 at hour 0 gives 庚午, 丁寅, 庚申 and 丙子 |
| `SajuCalculator.LunarDateBeforeEpochFails` | server/services/sajuCalculator.ts:37-57 | a lunar date converted to 1899-12-27 gives day index -1, and the calculation fails |
| `SajuCalculator.LunarDateJustBeforeEpochSucceeds` | server/services/sajuCalculator.ts:37-57 | a lunar date converted to 1899-12-28 up to 1899-12-31 still gives in-range indices, and the calculation succeeds |
| `SajuCalculator.ElementFromStem` | server/services/sajuCalculator.ts:153-162 | the plain-object lookup of a stem with fire as fallback: the value is an inherited member exactly when the symbol is an `Object.prototype` property name, and then it is that member |
| `SajuCalculator.ElementFromStemMatchesTable` | server/services/sajuCalculator.ts:5-16 | the stem-to-element map gives each stem of the table its element column entry, and stem i has element i / 2 of wood, fire, earth, metal, water |
| `SajuCalculator.ElementFromStemFallback` | server/services/sajuCalculator.ts:153-162 | a symbol that is not a stem of the table gives the inherited member of that name when it is an `Object.prototype` property name, and fire otherwise |
| `SajuCalculator.ChartDayStemNamesAnElement` | server/services/sajuCalculator.ts:63-88 | the day stem of every chart that `calculateFourPillars` returns gives an element, never an inherited member |
| `SajuCalculator.DayElementOfValidSolarChart` | server/services/sajuCalculator.ts:56-88 | for an accepted solar input, the day element is the element of stem (days + 4) % 10 |
| `AnalysisGenerator.PersonalityFor` | server/services/sajuCalculator.ts:93-114 | the personality entry of each element; `PersonalityTableInjective` proves that no two elements share one |
| `AnalysisGenerator.CareerFields` | server/services/sajuCalculator.ts:164-173 | every element has exactly four career fields |
| `AnalysisGenerator.HealthCareAreas` | server/services/sajuCalculator.ts:175-184 | every element has exactly two health care areas |
| `AnalysisGenerator.HealthManagement` | server/services/sajuCalculator.ts:186-195 | the health management advice of each element |
| `AnalysisGenerator.LuckyDirections` | server/services/sajuCalculator.ts:197-206 | the lucky directions of each element |
| `AnalysisGenerator.LuckyColors` | server/services/sajuCalculator.ts:208-217 | the lucky colours of each element |
| `AnalysisGenerator.RecommendedCareers` | server/services/sajuCalculator.ts:219-228 | the recommended careers of each element |
| `AnalysisGenerator.TableElement` | server/services/sajuCalculator.ts:116 | the entry a per-element table yields for a looked-up value: an element selects its own entry, an inherited member is no key of the table and the fallback to the fire entry selects fire |
| `AnalysisGenerator.GenerateAnalysis` | server/services/sajuCalculator.ts:118-150 | every analysis lists four career fields and two care areas |
| `AnalysisGenerator.ElementOfPersonality` | server/services/sajuCalculator.ts:93-116 | recovers the element from a personality entry of the table |
| `AnalysisGenerator.PersonalityTableInjective` | server/services/sajuCalculator.ts:93-114 | each element's personality entry identifies that element |
| `AnalysisGenerator.AnalysisFollowsDayElement` | server/services/sajuCalculator.ts:87-151 | personality, career fields, care areas, management, directions, colours and careers all come from the day stem's element; prospects, wealth, love, life flow and recommendation cautions are constant |
| `AnalysisGenerator.SelectionIsUnique` | server/services/sajuCalculator.ts:87-151 | no analysis draws its element-keyed sections from two different elements |
| `AnalysisGenerator.AnalysisDependsOnlyOnDayElement` | server/services/sajuCalculator.ts:87-90 | two charts whose day stems select the same table entry get the same analysis; the hour element, the year branch and the input are not used |
| `AnalysisGenerator.UnknownDayStemGivesFire` | server/services/sajuCalculator.ts:116-161 | a day stem symbol outside the table gets the fire bundle, through the map's own fallback or, for an inherited member, through the tables' fallbacks |
| `AnalysisGenerator.TableFallbackOnlyForInheritedNames` | server/services/sajuCalculator.ts:116-228 | the tables' fallbacks to the fire entry fire exactly when the day stem is an `Object.prototype` property name, which no chart of `calculateFourPillars` has |
| `AnalysisGenerator.AnalysisOfValidSolarBirth` | server/services/sajuCalculator.ts:53-151 | for an accepted solar input, the analysis is the bundle of the element of day stem (days + 4) % 10 |
| `Storage.MemStorage.Valid` | server/storage.ts:12-22 | the store invariant the constructor establishes and both create operations keep: the issued ids are exactly 1 up to each counter, each stored under itself, users enumerated in id order |
| `Storage.MemStorage.constructor` | server/storage.ts:17-22 | a fresh store has both maps empty and both counters at 1 |
| `Storage.MemStorage.GetUser` | server/storage.ts:24-26 | a user id finds a user exactly when it was issued, that is, when it is in [1, currentUserId) |
| `Storage.MemStorage.GetUserByUsername` | server/storage.ts:28-32 | returns the first user in insertion order (the smallest id) whose username matches, or nothing when no user matches |
| `Storage.MemStorage.CreateUser` | server/storage.ts:34-39 | the user gets the old user counter as id, a never-issued id; the counter grows by one; readings and the reading counter are unchanged |
| `Storage.MemStorage.GetSajuReading` | server/storage.ts:52-54 | a reading id finds a reading exactly when it was issued, in [1, currentReadingId); an id below 1 or at or above the counter finds nothing |
| `Storage.MemStorage.CreateSajuReading` | server/storage.ts:41-50 | the reading gets the old reading counter as id, a never-issued id; the counter grows by one; looking the id up returns the input fields with that id and timestamp; every other reading, the users and the user counter are unchanged |

## Left out

- `LunarCalendar.lunarToSolar` (server/services/lunarCalendar.ts) is a function parameter with no contract. The source shifts the date by a random number of days and ignores its own month table. Its answer may fall before 1900-01-01. Five or more days before the epoch the day index turns negative and the chart fails, as `SajuCalculator.LunarDateBeforeEpochFails` shows; one to four days before it the chart still succeeds (`SajuCalculator.LunarDateJustBeforeEpochSucceeds`).
- Time zones: the source floors a millisecond difference between two local-time dates. Under daylight saving or a historical offset change this can be one day short. The model counts exact calendar days.
- Invalid dates: a converter answer beyond the JavaScript date range gives `NaN` indices in the source. This is not modelled.
- Non-integer numbers: the schema has no integer constraint, so 1990.5 passes validation and then breaks the table reads. The model takes all numbers as integers.
- The `createdAt` timestamp (`new Date()`) is a parameter of `CreateSajuReading`. The `async`/`Promise` wrappers are left out; the operations are synchronous.
- `SajuCalculator.JsRem`: for a negative dividend the contract gives only the range (-b, 0], not the exact truncated remainder, because the model only needs the sign to show that a negative index misses its table.
- The counters are unbounded integers. JavaScript numbers lose integer precision beyond 2^53.
- The Korean wording of the narrative texts is not modelled; only which entry is chosen.
- The `|| fire` fallbacks of the six lookup helpers and of the personality table fire exactly when the stem-to-element map returns an inherited `Object.prototype` member, that is, for a day stem such as `"constructor"` or `"toString"`; no chart of `calculateFourPillars` has one. The model's tables are total on `Element`, and `AnalysisGenerator.TableElement` stands for those fallbacks.
- The user record keeps only `username` and `password`. The source types users as `any`, and `{ ...insertUser, id }` keeps every field of the request; nothing in the core reads any field but `username` and `id`.
- `generateAnalysis` computes the hour element and the year branch and never uses them. The model leaves them out; `AnalysisDependsOnlyOnDayElement` states that they have no effect.
- The drizzle table declaration, the HTTP routes and the client UI are not part of this model. The form's hour labels disagree with the calculator's `hour / 2` branch; the model follows the calculator.
- `solarToLunar` is never called by the core and is not modelled.

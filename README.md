# Moon-gardening classifier, modelled in Dafny

The app shows the Moon's phase, its zodiac sign and its trend and direction. It also says what kind of
gardening day it is and which plants suit that day. The astronomy comes from an ephemeris library, SwiftAA.
The app's own logic is a small classification layer over that library's outputs:

- an angle is bucketed into one of eight moon phases (`MoonPhase.fromDegree`);
- a longitude is bucketed into one of twelve signs (`ZodiacSign.fromDegree`);
- a fixed (phase, sign) table gives a gardening day kind (`GardeningLogic.getGardeningDay`);
- a fixed catalogue gives the plants for that kind (`GardeningGuide.getPlants`);
- three view models compose these and pick icon names and trend and direction texts;
- a month grid is laid out in weeks that start on Monday;
- an older dashboard (`SwiftUIView.swift`) keeps its own legacy phase table and copies of the helpers.

The model has one Dafny module per Swift file, plus `SwiftCore`:

| file | module | form |
|---|---|---|
| swift_core.dfy | `SwiftCore` | `Optional`, `floor`, `truncatingRemainder(dividingBy: 360)` and Swift's truncating `Int %` |
| moon_phase.dfy | `MoonPhases` | functions |
| zodiac_sign.dfy | `ZodiacSigns` | functions |
| gardening_logic.dfy | `GardeningLogic` | function and lemmas |
| gardening_guide.dfy | `GardeningGuide` | function and lemmas |
| astronomy_view_model.dfy | `Astronomy` | pure helpers, plus class `AstronomyViewModel` with `CalculateData` |
| day_detail_view.dfy | `DayDetail` | class `DayDetailViewModel` whose constructor assigns the six fields |
| calendar_grid_view.dfy | `CalendarGrid` | class `CalendarGridView` whose constructor builds the grid with two loops; `IconName` |
| legacy_content_view.dfy | `LegacyContent` | legacy functions, plus class `ContentView` with `OnAppear` |

Degrees, illuminated fractions and Julian days are exact `real`s. Swift's remainder and floor are spelled out.
`Double.truncatingRemainder` and `Int %` both round the quotient toward zero, while Dafny's `%` is Euclidean.
Everything SwiftAA computes is a parameter: phase angle, longitudes, illuminated fractions and node-passage
Julian days. The same goes for the clock and for the calendar's answers.

Main results:

- The normalised angle always lies in [0, 360), and it is the Euclidean residue modulo 360.
- `fromDegree` is periodic in 360°, and its `.error` fallback can never be reached.
- The eight phase bands are windows of ±6° (new moon and the quarters) or ±39° (crescents and gibbous phases)
  centred on multiples of 45°.
- `ZodiacSign.fromDegree` picks the 30° band of the longitude's residue for every longitude from -360 up.
  Below -360 it traps for most inputs.
- Each gardening day kind is produced by exactly its listed pairs. The four lists are disjoint and hold 37
  pairs. The plant list is non-empty exactly on days that are not "Autre jour".
- Every copied helper agrees with the shared one, and the legacy phase table is characterised band by band.
- The view models' fields all derive from one phase and one sign, and their icons agree with their texts.

Facts about the code worth knowing:

- `ZodiacSign.fromDegree` is not total. Below -360 the truncating `% 12` is usually negative, and then
  `allCases[…]` traps; only the first 30° of each lower turn escape. The model makes this the exact
  precondition `IndexInBounds`.
- 353.999° is a waning crescent, because the table sends [276, 354) there.
- The gardening table lists 37 of the 9 × 12 = 108 (phase, sign) pairs.

## Model

| member | source | states |
|---|---|---|
| SwiftCore.Floor | MIXEDPOSITIVE/Models/ZodiacSign.swift:19 | `floor` is the greatest whole number not above its argument |
| SwiftCore.TruncatingRemainder360 | MIXEDPOSITIVE/Models/MoonPhase.swift:16 | the remainder has the sign of the dividend, lies strictly inside one turn, and differs from the dividend by whole turns |
| SwiftCore.IntRem | MIXEDPOSITIVE/Models/ZodiacSign.swift:19 | Swift's `%` has the sign of the dividend and is below the divisor in magnitude; it equals the Euclidean remainder, or that remainder minus the divisor when negative |
| MoonPhases.RawValueRoundTrip | MIXEDPOSITIVE/Models/MoonPhase.swift:3-12 | each phase's raw value (`RawValue`, its French name) parses back to that phase, so no two phases share a name |
| MoonPhases.Normalize | MIXEDPOSITIVE/Models/MoonPhase.swift:15-17 | the angle switched on lies in [0, 360) and is the Euclidean residue of the input modulo 360 |
| MoonPhases.FromDegree | MIXEDPOSITIVE/Models/MoonPhase.swift:14-41 | over exact reals the bands tile the circle, so `.error` is never returned |
| MoonPhases.NormalizeFixesCircle | MIXEDPOSITIVE/Models/MoonPhase.swift:15-17 | normalising leaves [0, 360) alone and otherwise moves by whole turns |
| MoonPhases.FromDegreePeriodic | MIXEDPOSITIVE/Models/MoonPhase.swift:16-17 | adding any whole number of turns changes neither the normalised angle nor the phase |
| MoonPhases.PhaseWindow | MIXEDPOSITIVE/Models/MoonPhase.swift:19-37 | a phase is returned iff the angle lies in the half-open window around its centre (a multiple of 45°): ±6° for new moon, first quarter, full moon and last quarter, ±39° for the others |
| MoonPhases.BandEdges | MIXEDPOSITIVE/Models/MoonPhase.swift:21-39 | lower band bounds are inclusive and upper ones exclusive (0, 5.999, 354 new; 6 waxing crescent; 84 first quarter; 96 waxing gibbous; 174 full; 186 waning gibbous; 264 last quarter; 276 and 353.999 waning crescent); -10 is a waning crescent |
| ZodiacSigns.RawValueRoundTrip | MIXEDPOSITIVE/Models/ZodiacSign.swift:3-15 | each sign's raw value (`RawValue`, its French name) parses back to that sign, so no two signs share a name |
| ZodiacSigns.Ordinal | MIXEDPOSITIVE/Models/ZodiacSign.swift:3-15 | each sign's position in declaration order is its index in `allCases` |
| ZodiacSigns.SignNumber | MIXEDPOSITIVE/Models/ZodiacSign.swift:18-19 | the index computed lies strictly between -12 and 12 |
| ZodiacSigns.FromDegree | MIXEDPOSITIVE/Models/ZodiacSign.swift:17-21 | defined exactly where the index is not negative; on [0, 360) the result is the sign whose 30° band holds the longitude |
| ZodiacSigns.IndexInBoundsFromMinusOneTurn | MIXEDPOSITIVE/Models/ZodiacSign.swift:18-20 | for longitudes from -360 up the index lies in 0..11, so the lookup never traps |
| ZodiacSigns.TrapsBelowMinusOneTurn | MIXEDPOSITIVE/Models/ZodiacSign.swift:18-20 | -370 gives index -1 and traps; -720 and -710, in the first 30° of the turn below, escape and give Aries |
| ZodiacSigns.SignBand | MIXEDPOSITIVE/Models/ZodiacSign.swift:17-21 | from -360 up, the sign is the one whose 30° band holds the longitude's residue modulo 360 |
| ZodiacSigns.NegativeTurn | MIXEDPOSITIVE/Models/ZodiacSign.swift:18 | on [-360, 0) the single correction gives the sign of the longitude one turn later |
| ZodiacSigns.PositiveTurn | MIXEDPOSITIVE/Models/ZodiacSign.swift:19 | for non-negative longitudes, one more turn gives the same sign |
| ZodiacSigns.BandEdges | MIXEDPOSITIVE/Models/ZodiacSign.swift:19-20 | 0 and 29.999 are Aries, 30 is Taurus, 359.999 is Pisces, 360 is Aries, -10 is Pisces |
| GardeningLogic.GetGardeningDay | MIXEDPOSITIVE/Models/GardeningLogic.swift:4-17 | every pair gets one of the five day kinds; an `.error` phase always gets "Autre jour" |
| GardeningLogic.ListedCount | MIXEDPOSITIVE/Models/GardeningLogic.swift:6-13 | the root, leaf, fruit and flower lists are pairwise disjoint (so case order does not matter) and hold 8, 8, 8 and 13 pairs, 37 in all |
| GardeningLogic.DayKindByList | MIXEDPOSITIVE/Models/GardeningLogic.swift:5-16 | each day kind is returned iff the pair is in that kind's list; "Autre jour" iff the pair is in no list |
| GardeningLogic.Examples | MIXEDPOSITIVE/Models/GardeningLogic.swift:6-15 | (new moon, Aries) and (waxing gibbous, Pisces) are root days, (full moon, Leo) a leaf day; (new moon, Leo) and (waxing crescent, Aries) are "Autre jour" |
| GardeningGuide.GetPlants | MIXEDPOSITIVE/Models/GardeningGuide.swift:4-17 | the list is non-empty iff the text is one of the four working day kinds; root, leaf and fruit get 7 plants and flower 5, with the listed first and last names |
| GardeningGuide.SpellingMatters | MIXEDPOSITIVE/Models/GardeningGuide.swift:14-15 | "Autre jour", other capitalisations and the empty text get no plants |
| GardeningGuide.ListsHaveNoDuplicates | MIXEDPOSITIVE/Models/GardeningGuide.swift:4-17 | whatever text it is given, the list `getPlants` hands out names no plant twice |
| GardeningGuide.ListsShareNothing | MIXEDPOSITIVE/Models/GardeningGuide.swift:4-17 | the lists `getPlants` hands out for two different texts share no plant |
| GardeningGuide.PlantsIffWorkingDay | MIXEDPOSITIVE/Models/GardeningGuide.swift:5-16 | composed with the gardening calendar, there is something to plant iff the day is not "Autre jour" |
| Astronomy.MoonPhaseIcon | MIXEDPOSITIVE/ViewModels/AstronomyViewModel.swift:54-66 | total over the nine phases; the warning triangle iff the phase is `.error` |
| Astronomy.MoonPhaseIconInjective | MIXEDPOSITIVE/ViewModels/AstronomyViewModel.swift:54-66 | the nine phases get nine different icon names |
| Astronomy.ElementIcon | MIXEDPOSITIVE/ViewModels/AstronomyViewModel.swift:68-85 | always one of four icons; "carrot" iff root day, "apple.logo" iff fruit day, "camera.macro" iff flower day, "leaf" otherwise |
| Astronomy.MoonDirection | MIXEDPOSITIVE/ViewModels/AstronomyViewModel.swift:93-100 | "Descendante" iff the instant is before the next ascending node passage, else "Montante" |
| Astronomy.MoonTrend | MIXEDPOSITIVE/ViewModels/AstronomyViewModel.swift:102-118 | "Inconnu" iff the earlier date is unavailable; "Croissante" iff the fraction strictly grew; "Décroissante" iff it did not (ties included) |
| Astronomy.GetGardeningDay | MIXEDPOSITIVE/ViewModels/AstronomyViewModel.swift:129-142 | the view model's private calendar agrees with the shared one on every pair |
| Astronomy.TrendIcon | MIXEDPOSITIVE/ViewModels/AstronomyViewModel.swift:49 | the trend arrow is "arrow.up.right" iff the trend is "Croissante" |
| Astronomy.DirectionIcon | MIXEDPOSITIVE/ViewModels/AstronomyViewModel.swift:50 | the direction arrow is "arrow.up" iff the direction is "Montante" |
| Astronomy.AstronomyViewModel.constructor | MIXEDPOSITIVE/ViewModels/AstronomyViewModel.swift:8-33 | after the defaults and one `calculateData`, the fields are as `CalculateData` promises |
| Astronomy.AstronomyViewModel.AssignTexts | MIXEDPOSITIVE/ViewModels/AstronomyViewModel.swift:39-46 | the eight texts are the phase's and sign's names, the view model's calendar entry, the fraction, the trend, the direction and the two formatted node dates; its frame names only those eight fields, so no icon changes |
| Astronomy.AstronomyViewModel.AssignIcons | MIXEDPOSITIVE/ViewModels/AstronomyViewModel.swift:48-51 | each icon is computed from the text assigned just before it; its frame names only the four icon fields, so no text changes |
| Astronomy.AstronomyViewModel.CalculateData | MIXEDPOSITIVE/ViewModels/AstronomyViewModel.swift:35-52 | all twelve fields are set. Phase text, sign text and gardening day come from one phase and one sign. The trend icon is "arrow.up.right" iff the trend is "Croissante". The direction icon is "arrow.up" iff the direction is "Montante". The element icon is `ElementIcon(element)`. The phase icon is never the warning triangle. |
| DayDetail.Elongation | MIXEDPOSITIVE/Views/DayDetailView.swift:93-96 | the elongation is the longitude difference when that is not negative, and the difference plus one turn otherwise; for longitudes in [0, 360) it lies in [0, 360) |
| DayDetail.ElongationPhase | MIXEDPOSITIVE/Views/DayDetailView.swift:95-98 | the correction never changes the phase of the raw difference |
| DayDetail.DayDetailViewModel.constructor | MIXEDPOSITIVE/Views/DayDetailView.swift:89-128 | phase text and phase icon come from the elongation's phase; the icon is the dashboard's map and never the warning triangle. Sign text comes from the apparent longitude's sign. The element is the calendar entry of that phase and sign, and the plants are its catalogue entry, non-empty iff the element is not "Autre jour". The element icon is the dashboard's except "fork.knife" on fruit days. |
| CalendarGrid.Padding | MIXEDPOSITIVE/Views/CalendarGridView.swift:21-28 | for a weekday 1..7 the padding lies in 0..6 and counts the days from Monday (Sunday gives 6) |
| CalendarGrid.PaddingExamples | MIXEDPOSITIVE/Views/CalendarGridView.swift:25-28 | Monday gives 0, Sunday 6, Tuesday 1 |
| CalendarGrid.CalendarGridView.constructor | MIXEDPOSITIVE/Views/CalendarGridView.swift:9-40 | with no day range or no start of month the grid is empty. Otherwise it is `padding` blank cells, then one cell per day of the range; cell `padding + k` is the start of month plus `lower - 1 + k` days, so dates increase along the grid; read without the blank cells, the grid is exactly the consecutive dates of the range. |
| CalendarGrid.Present | MIXEDPOSITIVE/Views/CalendarGridView.swift:30-39 | the dates read from the grid's non-blank cells are exactly the dates the cells hold: each one is in some cell, each filled cell's date is among them, and there are no more of them than cells |
| CalendarGrid.Consecutive | MIXEDPOSITIVE/Views/CalendarGridView.swift:34-38 | the run of dates the day loop appends has one date per day of the range |
| CalendarGrid.GridDates | MIXEDPOSITIVE/Views/CalendarGridView.swift:30-39 | in any grid of that shape, the k-th non-blank cell is the first day of the range plus k days: the blank cells hide no date and no day is skipped or repeated |
| CalendarGrid.IconName | MIXEDPOSITIVE/Views/CalendarGridView.swift:100-114 | the same phase-to-icon map as `getMoonPhaseIcon`, and never the warning triangle |
| LegacyContent.LegacyPhase | MIXEDPOSITIVE/SwiftUIView.swift:81-104 | never a waxing crescent. Full moon iff 0, first quarter iff 45, last quarter iff 90, waning crescent iff 135, new moon iff 180. Waning gibbous iff the angle is in [1, 45) or [46, 90); waxing gibbous iff it is in [91, 135) or [136, 180). `.error` iff the angle is negative, above 180, or in a gap (0, 1), (45, 46), (90, 91), (135, 136). |
| LegacyContent.LegacyPhaseExamples | MIXEDPOSITIVE/SwiftUIView.swift:83-102 | 0 full, 45 first quarter, 90 last quarter, 135 waning crescent, 180 new; 0.5, -10 and 200 are errors; at 0 it disagrees with the current table |
| LegacyContent.ElementForDay | MIXEDPOSITIVE/SwiftUIView.swift:139-153 | from day 1 on, and on every day whose `day - 1` is a multiple of 4, the element is the `(day - 1) mod 4`-th of racine, fleur, feuille, fruit. It is "rien" iff the day is below 1 and `day - 1` is not a multiple of 4. |
| LegacyContent.ElementCycle | MIXEDPOSITIVE/SwiftUIView.swift:139-153 | from day 1 on the element repeats every four days |
| LegacyContent.ElementForDayBelowOne | MIXEDPOSITIVE/SwiftUIView.swift:140-151 | day 0 gives "rien" because Swift's `-1 % 4` is -1; day -3 gives "racine" |
| LegacyContent.LegacyGardeningDay | MIXEDPOSITIVE/SwiftUIView.swift:155-168 | the legacy calendar agrees with the shared one on every pair |
| LegacyContent.LegacySign | MIXEDPOSITIVE/SwiftUIView.swift:191-195 | the legacy zodiac classifier traps exactly where the shared one does, and agrees with it everywhere else |
| LegacyContent.LegacyDirection | MIXEDPOSITIVE/SwiftUIView.swift:107-114 | agrees with the dashboard's direction |
| LegacyContent.LegacyTrend | MIXEDPOSITIVE/SwiftUIView.swift:116-129 | demands that the earlier date exists (it is force-unwrapped); "Croissante" iff the fraction strictly grew, never "Inconnu", and otherwise the dashboard's trend |
| LegacyContent.ContentView.constructor | MIXEDPOSITIVE/SwiftUIView.swift:13-14 | both `@State` texts start empty |
| LegacyContent.ContentView.OnAppear | MIXEDPOSITIVE/SwiftUIView.swift:56-59 | the phase text is the legacy phase of the phase angle. The element is the calendar entry of that phase and the Moon's sign, so it is "Autre jour" whenever the legacy phase is `.error`. |

## Left out

- SwiftAA is not part of this model: `JulianDay`, `Moon`, `Sun`, `phaseAngle`, `illuminatedFraction`, the ecliptic coordinates and the node passages. Their results are parameters.
- IEEE-754 `Double` behaviour is not modelled: NaN, infinities, rounding, and overflow of `Int(floor(...))`. In particular a tiny negative remainder plus 360 can round to exactly 360 in `Double`, which reaches `.error`; over exact reals that cannot happen.
- Date formatting (`getDateString`) is the parameter `formatDate`, and the clock (`Date()`) is the parameter `jd`.
- The month-earlier date of `getMoonTrend` is given as an optional illuminated fraction: it is absent when `Calendar.date(byAdding:)` fails.
- CalendarGrid.CalendarGridView.constructor: dates are day counts. Adding `day - 1` days to the start of the month always succeeds, so the source's skip of a failed `date(byAdding:)` is not modelled.
- CalendarGrid.CalendarGridView.constructor: the weekday of the start of month is an input; it is 1..7 as the calendar guarantees.
- DayDetail.DayDetailViewModel.constructor: the phase-icon switch is computed into a local and then stored, rather than stored case by case. Its `.error` case is unreachable over exact reals, because the phase of an exact angle is never `.error`.
- The legacy `ContentView.MoonPhase` and `ContentView.ZodiacSign` enums are the shared datatypes, because they have the same cases and raw values.
- `getMoonPhase` and `getMoonSign` only call the classifiers on the library's readings; they are inlined.
- The location and notification managers, the other screens (`AstronomyView`, `LaunchView`, `CalendarView`), every `body`, `CardStyle`, `DetailRow` and the `Date: Identifiable` extension are not part of this model: they are I/O, layout and navigation.

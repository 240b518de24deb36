# Drivetrain calculators, sidebar and coach widget — a Dafny model

This project models the executable parts of a robotics-team website (FTC/FRC/FLL): a small
website whose pages are mostly static text, plus the following pieces of logic.

- **Three drivetrain calculators.** Speed: motor RPM → wheel RPM → inches per minute →
  ft/s, m/s and mph → time to cross the FTC and FRC fields, with a four-badge speed rating.
  Torque: motor torque → wheel torque → total torque → pushing force → acceleration, plus
  a ramp check, a four-badge torque rating and the "0 to 5 feet" time. Gear ratio: the ideal
  reduction for a desired speed, the actual reduction of a gear pair and the speed it gives,
  a focus label and a match verdict.
- **`clamp`**, the numeric helper in `lib/utils.ts`.
- **The sidebar.** Its navigation tree, the list of expanded sections, the `toggleExpand`
  update on that list, and the expand and highlight checks.
- **The AI-coach widget.** A scripted chat panel. It has an open/closed flag, an input line,
  and a conversation log that only ever grows. Each non-blank send adds one user entry and
  is answered later by one of five canned replies.

The calculators are pure and are modelled as functions over Dafny's `real`. `Math.PI` is
the constant `JsMath.Pi`, whose value is left unspecified. All that is known about it is
that it lies strictly between 3.14159265 and 3.14159266. Each formula requires only that its
denominators are non-zero. Lemmas add positivity where a monotonicity claim needs it.

Each badge row is modelled twice:
- as the set of badges whose own condition holds, exactly as the JSX tests each one;
- as a classifier.

The classifier's contract says that this set is exactly the singleton of its result.

The sidebar's `expandedItems` is a field of the class `Sidebar.SidebarState`. The class
keeps the field free of duplicates. The update itself is the pure function `Sidebar.Toggled`.
The coach is the class `AICoach.Coach`. Its invariant, `AICoach.LogInvariant`, states four
things about the log:
- it starts with the greeting;
- every later assistant entry is a canned reply;
- every user entry is non-blank;
- user entries plus one equal assistant entries plus the replies still owed.

The one-second delayed reply is a separate step, `DeliverReply(index)`. Its index is any
number below five. It may only run while a reply is owed.

Modules: `JsMath` (the `Math` members used), `Utils`, `SpeedCalculator`, `TorqueCalculator`,
`GearRatioCalculator` (which reuses the speed formula of `SpeedCalculator`, because lines
21-22 of the gear-ratio page compute the same chain), `Sidebar` and `AICoach`.

Thresholds are lower-inclusive, as the code writes them. In particular an ideal ratio of
exactly 3 is "Torque-focused": app/calculators/gear-ratio/page.tsx:87 tests `>= 3`. The
page's own explanatory text at line 187 says "Ratio > 3". The model follows the code.

## Model

| member | source | states |
|---|---|---|
| Utils.Clamp | lib/utils.ts:12-14 | result never exceeds max; with min ≤ max it lies in [min, max], equals value inside the range, min below it and max above it; with min > max it is always max |
| Utils.ClampIdempotent | lib/utils.ts:12-14 | clamping a clamped value changes nothing |
| Utils.ClampMonotone | lib/utils.ts:12-14 | v1 ≤ v2 implies clamp(v1) ≤ clamp(v2) |
| SpeedCalculator.WheelCircumference | app/calculators/speed/page.tsx:26 | definition of line 26: π × diameter |
| SpeedCalculator.WheelRpm | app/calculators/speed/page.tsx:27 | wheel RPM × ratio = motor RPM; wheel RPM equals motor RPM exactly when the ratio is 1 (or the motor is stopped) |
| SpeedCalculator.InchesPerMinute | app/calculators/speed/page.tsx:28 | definition of line 28: wheel RPM × circumference |
| SpeedCalculator.FeetPerSecond | app/calculators/speed/page.tsx:29 | ft/s × 12 × 60 = in/min |
| SpeedCalculator.SpeedFtPerSec | app/calculators/speed/page.tsx:26-29 | speed × 720 × ratio = motor RPM × π × diameter |
| SpeedCalculator.MetersPerSecond | app/calculators/speed/page.tsx:30 | definition of line 30: ft/s × 0.3048; its ordering is stated by UnitOrdering |
| SpeedCalculator.MilesPerHour | app/calculators/speed/page.tsx:31 | definition of line 31: ft/s × 0.681818; its ordering is stated by UnitOrdering |
| SpeedCalculator.SpeedLinearInDiameter | app/calculators/speed/page.tsx:26-29 | scaling the diameter by k scales the speed by k |
| SpeedCalculator.SpeedLinearInMotorRpm | app/calculators/speed/page.tsx:26-29 | scaling the motor RPM by k scales the speed by k |
| SpeedCalculator.HigherRatioLowerSpeed | app/calculators/speed/page.tsx:27-29 | for positive RPM and diameter a strictly larger ratio gives strictly lower wheel RPM and speed ("Higher ratio = more torque, less speed", line 101) |
| SpeedCalculator.UnitOrdering | app/calculators/speed/page.tsx:30-31 | for a positive speed, m/s < mph < ft/s |
| SpeedCalculator.CrossingTime | app/calculators/speed/page.tsx:33-36 | crossing time × speed = field length |
| SpeedCalculator.FrcCrossingIsFourAndAHalfFtc | app/calculators/speed/page.tsx:33-36 | the 54 ft crossing takes 4.5 times the 12 ft crossing |
| SpeedCalculator.SpeedBadges | app/calculators/speed/page.tsx:140-151 | definition of lines 140-151: the set of badges whose own condition holds |
| SpeedCalculator.RateSpeed | app/calculators/speed/page.tsx:140-151 | exactly one of the four badges renders (thresholds 3, 6, 10, lower-inclusive), and it is the result |
| SpeedCalculator.RateSpeedMonotone | app/calculators/speed/page.tsx:140-151 | a higher speed never gets a slower badge |
| SpeedCalculator.DefaultInputs | app/calculators/speed/page.tsx:22-29 | at 6000 RPM, 4 in, 1:1 the wheel turns at 6000 RPM, speed is 100π/3 ft/s, badge "Very Fast" |
| TorqueCalculator.WheelRadiusFt | app/calculators/torque/page.tsx:26 | 24 × radius in feet = diameter in inches |
| TorqueCalculator.WheelTorque | app/calculators/torque/page.tsx:27 | definition of line 27: motor torque × ratio × 0.9 |
| TorqueCalculator.TotalTorque | app/calculators/torque/page.tsx:28 | definition of line 28: per-wheel torque × number of motors |
| TorqueCalculator.PushingForce | app/calculators/torque/page.tsx:29 | force × diameter = 24 × total torque |
| TorqueCalculator.Acceleration | app/calculators/torque/page.tsx:30 | acceleration × weight = force |
| TorqueCalculator.CanClimbRamp | app/calculators/torque/page.tsx:31 | definition of line 31: force > weight × 1.5, strictly |
| TorqueCalculator.CanClimbRampIffAcceleration | app/calculators/torque/page.tsx:31 | for positive weight, force > 1.5 × weight iff acceleration > 1.5 |
| TorqueCalculator.HigherRatioMoreTorque | app/calculators/torque/page.tsx:27-29 | with positive torque, motors and diameter, a larger ratio gives strictly more total torque and pushing force |
| TorqueCalculator.ForceIncreasesWithTorque | app/calculators/torque/page.tsx:29 | on a positive diameter, force is strictly increasing in torque |
| TorqueCalculator.MoreMotorsMoreTorque | app/calculators/torque/page.tsx:28 | with positive per-wheel torque, more motors give strictly more total torque (tip at line 197) |
| TorqueCalculator.SmallerWheelMoreForce | app/calculators/torque/page.tsx:29 | the same positive torque on a smaller wheel gives strictly more force (tip at line 198) |
| TorqueCalculator.TorqueBadges | app/calculators/torque/page.tsx:151-162 | definition of lines 151-162: the set of badges whose own condition holds |
| TorqueCalculator.RateTorque | app/calculators/torque/page.tsx:151-162 | exactly one of the four badges renders (thresholds 10, 20, 40, lower-inclusive), and it is the result |
| TorqueCalculator.RateTorqueMonotone | app/calculators/torque/page.tsx:151-162 | more torque never gets a weaker badge |
| TorqueCalculator.IsZeroToFiveTime | app/calculators/torque/page.tsx:168 | definition of line 168 as a relation: t ≥ 0 and t × t = 10 / acceleration, for positive acceleration |
| TorqueCalculator.ZeroToFiveCoversSprint | app/calculators/torque/page.tsx:168 | a time t ≥ 0 with t² = 10/a satisfies ½·a·t² = 5 |
| TorqueCalculator.ZeroToFiveTimeUnique | app/calculators/torque/page.tsx:168 | there is at most one such time |
| TorqueCalculator.ZeroToFiveFasterWhenAcceleratingHarder | app/calculators/torque/page.tsx:168 | a larger acceleration gives a strictly shorter time |
| TorqueCalculator.DefaultInputs | app/calculators/torque/page.tsx:20-31 | the defaults give 2.88 Nm per wheel, 11.52 Nm total, radius 1/6 ft, 69.12 lb, 1.728 ft/s², ramp climbable, badge "Moderate" |
| GearRatioCalculator.DesiredWheelRpm | app/calculators/gear-ratio/page.tsx:16-17 | a wheel turning at the result moves at exactly the desired speed |
| GearRatioCalculator.IdealRatio | app/calculators/gear-ratio/page.tsx:16-18 | ideal ratio × 720 × desired speed = motor RPM × π × diameter |
| GearRatioCalculator.ActualRatio | app/calculators/gear-ratio/page.tsx:20 | ratio × driving teeth = driven teeth |
| GearRatioCalculator.ActualSpeed | app/calculators/gear-ratio/page.tsx:20-22 | speed × 720 × driven = motor RPM × π × diameter × driving |
| GearRatioCalculator.RatioScaleInvariant | app/calculators/gear-ratio/page.tsx:20 | scaling both tooth counts by the same non-zero factor leaves the ratio unchanged |
| GearRatioCalculator.CommonRatiosConsistent | app/calculators/gear-ratio/page.tsx:24-31 | every tooth pair in the table of common ratios gives the ratio of its row |
| GearRatioCalculator.IdealRatioRoundTrip | app/calculators/gear-ratio/page.tsx:16-22 | driving at the ideal ratio gives back exactly the desired speed |
| GearRatioCalculator.MatchingGearsGiveDesiredSpeed | app/calculators/gear-ratio/page.tsx:16-22 | gears whose actual ratio equals the ideal ratio give the desired speed |
| GearRatioCalculator.MoreDrivenTeethSlower | app/calculators/gear-ratio/page.tsx:20-22 | with the driving gear fixed, more driven teeth give a strictly lower speed |
| GearRatioCalculator.MoreDrivenTeethHigherRatio | app/calculators/gear-ratio/page.tsx:20 | with the driving gear fixed, more driven teeth give a strictly larger, positive ratio |
| GearRatioCalculator.FocusLabels | app/calculators/gear-ratio/page.tsx:85-87 | definition of lines 85-87: the set of labels whose own condition holds |
| GearRatioCalculator.Focus | app/calculators/gear-ratio/page.tsx:85-87 | exactly one label renders (< 1.5, [1.5, 3), ≥ 3), and it is the result |
| GearRatioCalculator.MatchVerdict | app/calculators/gear-ratio/page.tsx:136-148 | good match iff the speed is within 0.5 of the target; too fast iff at least 0.5 above; too slow iff at least 0.5 below |
| GearRatioCalculator.DifferenceColour | app/calculators/gear-ratio/page.tsx:130 | the difference is green exactly when the verdict is a good match |
| GearRatioCalculator.DefaultInputs | app/calculators/gear-ratio/page.tsx:10-22 | the defaults give an ideal ratio of 20π/3 (torque-focused), a 1:1 actual ratio, 100π/3 ft/s and the verdict "too fast" |
| Sidebar.RemoveAll | components/layout/Sidebar.tsx:53 | the filter drops every occurrence of the name and keeps every other name with its multiplicity |
| Sidebar.RemoveAllAppend | components/layout/Sidebar.tsx:53 | the filter distributes over concatenation |
| Sidebar.RemoveAllKeepsOrder | components/layout/Sidebar.tsx:53 | two kept names keep their relative order and what lies between them |
| Sidebar.RemoveAllKeepsNoDuplicates | components/layout/Sidebar.tsx:53 | filtering a duplicate-free list leaves it duplicate-free |
| Sidebar.RemoveAllAbsent | components/layout/Sidebar.tsx:53 | filtering out an absent name changes nothing |
| Sidebar.Toggled | components/layout/Sidebar.tsx:51-55 | the name is in the result iff it was not in the list; other names keep their membership; an absent name is appended at the end; a present one has every occurrence removed |
| Sidebar.ToggledKeepsNoDuplicates | components/layout/Sidebar.tsx:53 | toggling keeps a duplicate-free list duplicate-free |
| Sidebar.ToggleTwiceAbsent | components/layout/Sidebar.tsx:53 | toggling an absent name twice restores the exact list |
| Sidebar.ToggleTwicePresent | components/layout/Sidebar.tsx:53 | toggling a present name twice restores the members, with the name moved to the end |
| Sidebar.InitiallyAllSectionsShown | components/layout/Sidebar.tsx:49 | every section of the navigation is named in the initial list, and that list has no duplicates |
| Sidebar.IsHighlighted | components/layout/Sidebar.tsx:89 | definition of lines 89 and 103: a link is highlighted when its path equals the current path |
| Sidebar.SectionHrefsDistinct | components/layout/Sidebar.tsx:9-41 | within every section of the navigation, no two child links share a path |
| Sidebar.AtMostOneChildHighlighted | components/layout/Sidebar.tsx:83-94 | whatever the current path, at most one child link of a section is highlighted |
| Sidebar.SidebarState.constructor | components/layout/Sidebar.tsx:49 | the expanded list starts as the three sections, duplicate-free, so every section's children are shown |
| Sidebar.SidebarState.IsExpanded | components/layout/Sidebar.tsx:77 | definition of lines 77 and 81: the name is in the expanded list |
| Sidebar.SidebarState.ChildrenShown | components/layout/Sidebar.tsx:81 | definition of line 81: the entry is a section and IsExpanded holds of its name |
| Sidebar.SidebarState.ToggleExpand | components/layout/Sidebar.tsx:51-55 | the new list is the toggle of the old one; the toggled section's expanded state and children flip, every other section's stay as they were; no duplicates appear |
| AICoach.TrimStart | components/layout/AICoach.tsx:32 | the result is a suffix of the input; everything dropped is whitespace; the result does not start with whitespace |
| AICoach.TrimEnd | components/layout/AICoach.tsx:32 | the result is a prefix of the input; everything dropped is whitespace; the result does not end with whitespace |
| AICoach.Trim | components/layout/AICoach.tsx:32 | definition of `trim()` at line 32: TrimEnd after TrimStart |
| AICoach.TrimEmptyIffBlank | components/layout/AICoach.tsx:32 | the trimmed message is empty iff the message is whitespace only |
| AICoach.SendIgnored | components/layout/AICoach.tsx:32 | the guard `!message.trim()` holds exactly for a whitespace-only message |
| AICoach.CountRoleAppend | components/layout/AICoach.tsx:35-50 | appending an entry adds one to its role's count only |
| AICoach.InitialLogInvariant | components/layout/AICoach.tsx:12-17 | the initial log, holding only the greeting, satisfies the log invariant |
| AICoach.SendKeepsLogInvariant | components/layout/AICoach.tsx:31-37 | appending a non-blank user entry keeps the invariant, with one more reply owed |
| AICoach.ReplyKeepsLogInvariant | components/layout/AICoach.tsx:39-51 | appending an owed canned reply keeps the invariant, with one reply fewer owed |
| AICoach.Coach.constructor | components/layout/AICoach.tsx:10-17 | the panel starts closed, the input empty, the log the greeting alone |
| AICoach.Coach.SetMessage | components/layout/AICoach.tsx:104 | typing replaces the input and changes nothing else |
| AICoach.Coach.Send | components/layout/AICoach.tsx:31-52 | a blank message changes nothing; otherwise exactly one user entry with the untrimmed text is appended, the input is cleared and one reply is owed; the log only grows |
| AICoach.Coach.DeliverReply | components/layout/AICoach.tsx:39-51 | exactly one assistant entry is appended, holding one of the five canned replies |
| AICoach.Coach.KeyDown | components/layout/AICoach.tsx:19-29 | Ctrl+K or Cmd+K flips the panel; any other key changes nothing |
| AICoach.Coach.ToggleButton | components/layout/AICoach.tsx:58 | the floating button flips the panel |
| AICoach.Coach.Close | components/layout/AICoach.tsx:78 | the close button always closes the panel |
| AICoach.ShortcutTwiceRestores | components/layout/AICoach.tsx:21-24 | two Ctrl/Cmd+K presses leave the panel as it was |

## Left out

- Floating point: every number is a real. `NaN`, `Infinity` and rounding are not modelled. Zero
  denominators are excluded by `requires`; the page would show `Infinity` or `NaN` for them.
- The exact value of `Math.PI`: `JsMath.Pi` is only known to lie between 3.14159265 and
  3.14159266.
- `toFixed` display formatting, including `formatNumber` (lib/utils.ts:8-10).
- `cn` (lib/utils.ts:4-6): it only wraps the clsx and tailwind-merge libraries, which are not
  part of this model.
- The displayed "0 to 5 feet" time is `Math.sqrt(10 / acceleration)`. The model does not
  compute it. Dafny's reals have no square root whose existence the verifier can establish,
  so the time is the relation `TorqueCalculator.IsZeroToFiveTime`. The lemmas speak of any
  time satisfying that relation.
- The motor `Select` menus, their string/number round trips, and the `Number(...)` parsing of
  inputs. The formulas take their inputs as numbers.
- React re-rendering, `usePathname` (the current path is a parameter of the highlight check),
  the rendered markup, and registering and removing the keyboard listener.
- The 1000 ms `setTimeout` delay and the `Math.random` distribution. A reply is a separate
  step whose index is any number below five. The model does not order replies against other
  events beyond "a reply is owed".
- Every static content page, and the Java snippets shown as text on the control-theory and
  drivetrain pages. These are display text, not behaviour of this site.

# Scouting form engine, in Dafny

This project models the engine behind the REEFSCAPE scouting form of the
QRScout-style app: the `App` component (src/App.tsx) and the stopwatch text
of the `Timer` component (src/components/Timer.tsx). It covers:

- **The field catalog.** Six ordered lists of field descriptors (pre-match,
  autonomous, teleop, endgame, post-match, ranking points). Each descriptor
  has a code, a kind, a default and optional choices, bounds and step.
- **The form state.** A JavaScript object from field code to value. It is
  built by folding the catalog defaults. It is changed by `handleInputChange`
  (set one key) and `handleCounter` (add or subtract the field's step,
  clamped at 0 when going down).
- **The timers.** A JavaScript object from timer code to
  `{isRunning, startTime, elapsed}`. It is changed by `toggleTimer`
  (start/stop) and by the 100 ms tick, which moves each running interval into
  `elapsed`.
- **`totalRankingPoints`.** The weighted count of the five ranking-point
  flags.
- **`getFormDataString`.** The export record: the form values, then
  `timers` (each timer's stored `elapsed`), then `totalRankingPoints`. The
  record is written as compact JSON text, with `JSON.stringify`'s escapes for
  every character a Dafny string can hold, and a reader for that text is
  proved to give the record back.
- **The stopwatch text.** `seconds.hh`, from `Math.floor(elapsed / 1000)`
  and `Math.floor((elapsed % 1000) / 10)` padded to two digits. The inline
  timer text of `renderField` is proved to be the same string.

JavaScript objects are `JsObjects.JsObject`: a map plus the order in which
its keys were first created. This is the order the spread operator,
`Object.entries` and `JSON.stringify` walk. The component's state is the
class `Engine.FormEngine`. Its fields `formData` and `timers` are replaced by
one method per handler and by `Tick`. Each of them keeps the invariant
`AppState.EngineInvariant`: both tables are well-formed objects, and no form
key is one of the two names the export adds. The pure updaters the handlers pass to
`setFormData`/`setTimers` are functions. The tick's `forEach` over a copied
table is the loop method `Timers.TickTimers`. The sequence of `if`s in
`totalRankingPoints` is the method `Ranking.TotalRankingPoints`. Both are
proved against specification functions.

The clock `Date.now()` is the parameter `now` (integer milliseconds). All
numbers are integers.

Two behaviours of the code worth noting:

- The exported `timers` property holds only the stored `elapsed`. A running
  timer's interval since the last tick is not added
  (`Export.ElapsedContents`).
- The ranking-point total reaches 7 when all five flags are set, though the
  section header shows "/ 6" (`Ranking.AboveSixNeedsAllFlags`).

## Model

| member | source | states |
|---|---|---|
| JsObjects.JsObject.Get | src/App.tsx:458-462 | the property read is defined exactly for the keys present, and gives the stored value |
| JsObjects.JsObject.Put | src/App.tsx:466-471 | `{ ...obj, [k]: v }`: `k` now holds `v`, every other key reads as before, the key set gains `k`, an existing key keeps its place and a new one is appended |
| JsObjects.Empty | src/App.tsx:450 | `{}` has no keys |
| JsObjects.Assign | src/App.tsx:447-450 | the left-to-right assignment of `keys` to `values` keeps the object well formed |
| JsObjects.AssignOrder | src/App.tsx:447-450 | assigning distinct fresh keys appends them in order to the key order |
| JsObjects.AssignValues | src/App.tsx:447-450 | after assigning distinct keys, each key reads as its own value and every earlier key is untouched |
| JsObjects.AssignKeys | src/App.tsx:522-525 | starting from `{}`, the keys are exactly the assigned ones, in order |
| JsObjects.AssignAt | src/App.tsx:522-525 | starting from `{}` with distinct keys, key `i` reads as value `i` |
| Schema.Codes | src/App.tsx:447-448 | one code per field, in field order |
| Schema.ChoiceKeys | src/types.ts:42 | the stored values of a select's choices, in order |
| Catalog.PrematchFields | src/App.tsx:17-100 | the pre-match section has 7 fields |
| Catalog.AutonomousFields | src/App.tsx:102-206 | the autonomous section has 10 fields |
| Catalog.TeleopFields | src/App.tsx:208-322 | the teleop section has 11 fields |
| Catalog.EndgameFields | src/App.tsx:324-356 | the endgame section has 3 fields |
| Catalog.PostmatchFields | src/App.tsx:358-394 | the post-match section has 3 fields |
| Catalog.RankingPointsFields | src/App.tsx:396-442 | the ranking-points section has 5 fields |
| Catalog.AllFields | src/App.tsx:447 | the six sections in order make the 39 fields the form is built from |
| Catalog.CounterFields | src/App.tsx:475 | the autonomous, teleop and endgame sections make the 24 fields the counter handler searches |
| Catalog.CounterFieldsInForm | src/App.tsx:447-475 | the fields the counter handler searches are the form's fields 7 to 30, in the same order |
| Catalog.AllCodesPositioned | src/App.tsx:17-442 | the 39 codes of the six catalogs, each at its own position |
| Catalog.AllCodesDistinct | src/App.tsx:17-442 | the field codes of the whole form are pairwise distinct |
| Catalog.DistinctByPosition | src/App.tsx:17-442 | a list whose entries each sit at their own code position has no repeats |
| Catalog.ExportNamesAreNotCodes | src/App.tsx:519-527 | no field is coded `timers` or `totalRankingPoints`, so the export does not overwrite a field |
| Catalog.DefaultsConform | src/App.tsx:17-442 | every default fits its field: a select default is "" or one of its choice keys, a numeric default lies in `[min, max]`, text and boolean defaults have their types |
| Catalog.CounterStepsAreOne | src/App.tsx:102-322 | every counter field counts in steps of 1 |
| Catalog.CounterCodePositions | src/App.tsx:475 | every code the counter handler searches lies at positions 7 to 30 of the form, after the pre-match codes and before the post-match and ranking-point codes |
| Catalog.CounterCodesAreNotExportNames | src/App.tsx:475-527 | no field the counter handler finds is coded `timers` or `totalRankingPoints` |
| Catalog.RankingFlagsStartUnset | src/App.tsx:396-442 | the last five fields are the ranking-point flags, each defaulting to `false` |
| FormState.Defaults | src/App.tsx:448 | one default per field, in field order |
| FormState.InitialForm | src/App.tsx:446-451 | the initial state is a well-formed object |
| FormState.InitialFormDefaults | src/App.tsx:446-451 | with distinct codes, the initial state has exactly one entry per field, in field order, each the field's default |
| FormState.FindField | src/App.tsx:475-476 | `find` fails exactly for a code no field carries, and otherwise returns the first field carrying the code |
| FormState.StepOf | src/App.tsx:479 | `field.step \|\| 1`: the step when it is present and non-zero, and 1 when it is absent or zero |
| FormState.CounterOperand | src/App.tsx:478 | `prev[code] \|\| 0`: a number is itself, an absent value or `""` is 0, `false` is 0 and `true` is 1, a non-empty string has no numeric operand |
| FormState.AdjustCounter | src/App.tsx:473-487 | the counter handler: unchanged for a code not found, no key but `code` changes, the key set grows by at most `code` |
| FormState.Max | src/App.tsx:480 | `Math.max(a, b)`: at least both arguments, and one of them |
| FormState.CounterRule | src/App.tsx:478-480 | increment gives `current + step`; decrement gives `current - step` when that is not negative and 0 otherwise |
| FormState.CounterStaysNonNegative | src/App.tsx:478-480 | with a positive step, a non-negative counter stays a non-negative number |
| FormState.UnitCounterScenario | src/App.tsx:478-480 | with step 1 from 0, decrement, increment and decrement give 0, 1, 0 |
| Timers.Shown | src/App.tsx:624-627 | a stopped timer shows its `elapsed`; a running one shows at least its `elapsed` once the clock has reached its start |
| Timers.ToggleOne | src/App.tsx:491-511 | a stopped timer starts at `now` and keeps its `elapsed`; a running one stops and banks `now - startTime`; either way the time shown at `now` is unchanged |
| Timers.Toggle | src/App.tsx:489-513 | a missing timer counts as stopped at 0; only `code`'s timer changes, and the key set gains `code` |
| Timers.ToggleMonotone | src/App.tsx:489-513 | if the clock has not gone back past a running timer's start, a toggle never lowers an `elapsed` |
| Timers.ToggleAllBanksIntervals | src/App.tsx:489-513 | toggling at `t0, t1, ...` runs exactly after an odd number of toggles and banks every completed interval |
| Timers.StartStopScenario | src/App.tsx:489-549 | start, then stop 250 ms later, banks 250; another 100 ms pair brings it to 350; a tick at any instant during each run does not change the banked total |
| Timers.TickOne | src/App.tsx:538-545 | a running timer re-bases `startTime` to `now` and banks the interval; a stopped one is unchanged |
| Timers.Ticked | src/App.tsx:533-549 | every timer ticked, key order and key set kept |
| Timers.TickedByPosition | src/App.tsx:537-546 | a table holding every timer ticked, position by position, is the ticked table |
| Timers.TickTimers | src/App.tsx:533-549 | the `forEach` loop gives the ticked table; `updated` holds exactly when some timer is running, and otherwise returns the previous table itself |
| Timers.TickKeepsShown | src/App.tsx:541-542 | a tick does not change the time any timer shows at the same instant |
| Timers.TickMonotone | src/App.tsx:541 | if the clock has not gone back past any running timer's start, a tick never lowers an `elapsed` |
| Ranking.Truthy | src/App.tsx:458-462 | JavaScript truthiness: a value is falsy exactly when it is absent, `false`, 0 or `""` |
| Ranking.WeightedFlags | src/App.tsx:456-464 | the weighted count of the set flags never exceeds the sum of the weights |
| Ranking.RankingPoints | src/App.tsx:456-464 | the total is at most 7, and at least 3 when `winRP` is set |
| Ranking.RankingPointsTerms | src/App.tsx:457-463 | the total is 1 per set flag among `autoRP`, `coralRP`, `bargeRP` and `tieRP`, plus 3 for `winRP` |
| Ranking.TotalRankingPoints | src/App.tsx:456-464 | the sequential `if`s compute the weighted count of the five flags |
| Ranking.WeightedFlagsBounds | src/App.tsx:456-464 | the weighted count lies between 0 and the sum of the weights, is the sum with every flag set and 0 with none set |
| Ranking.RankingPointsBounds | src/App.tsx:456-464 | the total lies in `[0, 7]`, is 7 with all five flags set and 0 with none set |
| Ranking.WinOnlyIsThree | src/App.tsx:461 | with only `winRP` set, the total is 3 |
| Ranking.AboveSixNeedsAllFlags | src/App.tsx:456-464 | the total exceeds 6 exactly when all five flags are set, despite the "/ 6" label at line 731 |
| Ranking.NoFlagSetIsZero | src/App.tsx:456-464 | with all five flags stored as `false`, the total is 0 |
| Export.ToJson | src/App.tsx:521 | a form value is written as a JSON string, number or boolean, never an object, and reads back as itself |
| Export.Spread | src/App.tsx:521 | `{ ...formData }` keeps the form's key order and keys, each value written as JSON |
| Export.ElapsedValues | src/App.tsx:522-525 | one value per timer, in table order: position `i` is the stored `elapsed` of the `i`-th timer |
| Export.Elapsed | src/App.tsx:522-525 | the reduce over `Object.entries(timers)` builds a well-formed object |
| Export.ElapsedContents | src/App.tsx:522-525 | the `timers` property holds exactly the timer codes, in table order, each with its stored `elapsed` |
| Export.Members | src/App.tsx:528 | `JSON.stringify` walks the members in key order |
| Export.ExportRecord | src/App.tsx:519-527 | the export record is a well-formed object |
| Export.ExportRecordShape | src/App.tsx:519-527 | the record's keys are the form keys in order, then `timers` and `totalRankingPoints`; form values are unchanged |
| Export.MemberKeys | src/App.tsx:528 | the member keys, in order |
| Export.MemberValues | src/App.tsx:528 | the member values, in order |
| Export.ObjectOf | src/App.tsx:528 | the object built from a member list is well formed |
| Export.MembersRebuild | src/App.tsx:528 | listing a record's members and rebuilding an object from them gives the record back |
| Export.ExportRoundTrip | src/App.tsx:519-529 | reading the exported text back gives the export record with the form's ranking-point total, and its `timers` part rebuilds the elapsed table |
| Export.FormDataString | src/App.tsx:519-529 | the exported text is a JSON object: it starts with `{` and ends with `}` |
| Json.EscapeChar | src/App.tsx:528 | a written character starts with a backslash exactly when it is a quotation mark, a backslash or a control character, and never starts with a quotation mark |
| Json.EscapeString | src/App.tsx:528 | escaping never shortens the text, and the escape of a non-empty string is non-empty |
| Json.Quote | src/App.tsx:528 | a quoted string is wrapped in quotation marks |
| Json.SerializeMembers | src/App.tsx:528 | the member text is empty exactly for no members, and otherwise starts with the first key's quotation mark |
| Json.EscapeCharRoundTrip | src/App.tsx:528 | reading one escaped character gives it back and leaves what follows |
| Json.EscapeStringRoundTrip | src/App.tsx:528 | escaped string content followed by a closing quotation mark reads back as the string |
| Json.QuoteRoundTrip | src/App.tsx:528 | a quoted string reads back as itself |
| Json.CharsStep | src/App.tsx:528 | string content reads one character and then the rest |
| Json.HexDigitValue | src/App.tsx:528 | a hex digit written as `\u00xx` reads back as its value |
| Json.DigitRunPrefix | src/App.tsx:528 | the digit run of a numeral followed by a non-digit is the numeral |
| Json.NaturalRoundTrip | src/App.tsx:528 | a written natural number reads back as itself |
| Json.NumberRoundTrip | src/App.tsx:528 | a written integer reads back as itself |
| Json.NegativeRoundTrip | src/App.tsx:528 | a negative integer reads back through its minus sign |
| Json.MinusRoundTrip | src/App.tsx:528 | a minus sign followed by a natural number reads as its negation |
| Json.NumberValueRoundTrip | src/App.tsx:528 | a number value reads back as itself |
| Json.BoolRoundTrip | src/App.tsx:528 | `true` and `false` read back as themselves |
| Json.ValueRoundTrip | src/App.tsx:528 | every written value reads back as itself before a delimiter |
| Json.ObjectRoundTrip | src/App.tsx:528 | a written object reads back as itself |
| Json.MembersRoundTrip | src/App.tsx:528 | written members read back as themselves, up to the closing brace |
| Json.LastMemberRoundTrip | src/App.tsx:528 | the last member reads back, up to the closing brace |
| Json.NextMemberRoundTrip | src/App.tsx:528 | a member followed by a comma reads back with the members after it |
| Json.LastMemberText | src/App.tsx:528 | the text of a single member and a closing brace, split at the key |
| Json.NextMemberText | src/App.tsx:528 | the text of a member and a comma, split at the key |
| Json.MemberLast | src/App.tsx:528 | a key, a colon, a value and a closing brace read as one member |
| Json.MemberNext | src/App.tsx:528 | a key, a colon, a value, a comma and more members read as those members |
| Json.RoundTrip | src/App.tsx:528 | `JSON.parse(JSON.stringify(v))` gives `v` for every value the export holds |
| Json.Serialize | src/App.tsx:528 | the written text is never empty |
| Json.ParseChar | src/App.tsx:528 | reading one character of string content consumes input |
| Json.ParseChars | src/App.tsx:528 | reading string content consumes input |
| Json.ParseString | src/App.tsx:528 | reading a string consumes input |
| Json.DigitRun | src/App.tsx:528 | the digit run is a prefix of digits, not followed by a digit |
| Json.ParseNatural | src/App.tsx:528 | reading a natural number consumes input |
| Json.ParseNumber | src/App.tsx:528 | reading an integer consumes input |
| Json.ParseMembers | src/App.tsx:528 | reading members consumes input |
| Json.ParseValue | src/App.tsx:528 | a successful read consumes at least one character |
| Decimal.DigitChar | src/components/Timer.tsx:37 | the digit character of `d` denotes `d` |
| Decimal.DigitValue | src/components/Timer.tsx:37 | the value of a digit character, inverse to `DigitChar` |
| Decimal.NatToString | src/components/Timer.tsx:37 | the numeral is non-empty, all digits, has no leading zero, and has one digit exactly below 10 |
| Decimal.NatToStringValue | src/components/Timer.tsx:37 | the numeral of `n` denotes `n` |
| Decimal.IntToString | src/components/Timer.tsx:37 | the text of an integer is never empty |
| TimerDisplay.JsRemainder | src/components/Timer.tsx:13 | JavaScript's `%`: the dividend minus the remainder is a multiple of the divisor, the remainder takes the sign of the dividend and is smaller than the divisor in magnitude, and it is the mathematical remainder for non-negative dividends |
| TimerDisplay.Seconds | src/components/Timer.tsx:12 | `Math.floor(elapsed / 1000)`: the largest whole number of seconds not above `elapsed` |
| TimerDisplay.Hundredths | src/components/Timer.tsx:13 | for a non-negative time, `(elapsed % 1000) / 10`, in `[0, 99]` |
| TimerDisplay.PadStart | src/components/Timer.tsx:37 | `padStart`: a string at least `n` long is kept; a shorter one gets fill characters in front up to length `n` |
| TimerDisplay.DisplayBounds | src/components/Timer.tsx:12-13 | `seconds*1000 + hundredths*10 <= elapsed < seconds*1000 + hundredths*10 + 10` |
| TimerDisplay.DisplayMonotone | src/components/Timer.tsx:12-13 | a later time never shows a lexicographically smaller (seconds, hundredths) pair |
| TimerDisplay.TwoDigits | src/components/Timer.tsx:37 | a number 0..99 padded to two places is its tens digit and its ones digit |
| TimerDisplay.Display | src/components/Timer.tsx:12-37 | for a non-negative time the text has at least four characters, the third from the end a dot |
| TimerDisplay.DisplayFormat | src/components/Timer.tsx:37 | the text is the decimal of the seconds, a dot, and exactly two digits spelling the hundredths |
| Engine.FormEngine.constructor | src/App.tsx:446-453 | the first render: every field of the six sections at its default, no timer, nothing toggled, and the engine invariant holds |
| Engine.FormEngine.HandleInputChange | src/App.tsx:466-471 | for a code that some field carries, `code` now holds `value` with no bounds check; no other key and no timer changes |
| Engine.FormEngine.HandleCounter | src/App.tsx:473-487 | the counter adjustment over the autonomous, teleop and endgame fields; no other key and no timer changes |
| Engine.FormEngine.ToggleTimer | src/App.tsx:489-513 | for a code that some field carries, the timers become the toggled table, `code` joins the toggled set, and the form is untouched |
| Engine.FormEngine.Tick | src/App.tsx:531-549 | the timers become the ticked table, unchanged when none is running; the form is untouched |
| Engine.FormEngine.GetFormDataString | src/App.tsx:456-529 | the exported text is the JSON of the export record with the form's ranking-point total |
| Engine.FormEngine.ExportedKeys | src/App.tsx:519-527 | the export record lists the form keys in order and then `timers` and `totalRankingPoints`, keeps each form value, and carries the form's ranking-point total |
| Engine.FormEngine.ExportedTimersAreToggled | src/App.tsx:491-525 | the `timers` property holds exactly the codes toggled at least once |
| Engine.TotalElapsed | src/App.tsx:624-627 | the inline total is the time the timer shows at `now`, a missing timer counting as stopped at 0 |
| Engine.TimerText | src/App.tsx:623-642 | the inline timer text is the `Timer` component's text for the inline total |
| Engine.TimerTextIsDisplay | src/App.tsx:623-642 | the inline timer text of `renderField` is the `Timer` component's text for the shown time, and a stopped timer's text does not change as the clock moves |
| AppState.InitialFormOfCatalog | src/App.tsx:446-451 | the initial form has one entry per catalog field, in catalog order, each its default, and no `timers` or `totalRankingPoints` entry |
| AppState.InitialStateValid | src/App.tsx:446-453 | the first render's state keeps the engine invariant: both tables well formed, a timer entry exactly per toggled code, no form key named `timers` or `totalRankingPoints` |
| Engine.InitialRankingPointsZero | src/App.tsx:446-464 | the ranking-point total of the initial form is 0 |
| Engine.CounterIgnoresOtherSections | src/App.tsx:475-476 | the counter handler leaves the form unchanged for pre-match, post-match and ranking-point codes |
| Engine.CoralLevelOneCounter | src/App.tsx:102-206 | the counter handler finds the autonomous level-1 coral counter `CLOA`, with step 1 |
| Engine.CoralLevelOneScenario | src/App.tsx:473-487 | from 0, `CLOA` under decrement, increment, decrement reads 0, 1, 0 |

## Left out

- Presentation: the JSX layout, class names, the theme context and toggle, and the section rendering loop. No logic of the engine depends on them.
- Field titles and descriptions: both are display text only and no operation of the engine reads them, so the descriptor leaves them out.
- The QR code (`QRCodeSVG`) and the "Commit" button that shows it (`handleCommit`, `showQRCode`). The model stops at the JSON text.
- `setInterval`/`clearInterval` scheduling: a tick is one call of `Tick(now)`. The event loop is not modelled.
- `Date.now()`: it is the parameter `now`. The tick's updater calls the clock twice for each running timer (src/App.tsx:541-542); the model reads one instant for both. The toggle calls it once in either branch (src/App.tsx:499, src/App.tsx:508).
- `Number(e.target.value)` parsing of number and range inputs: JavaScript floating-point and `NaN` semantics. Number values are integers already.
- Floating point in general: numbers are unbounded integers, so there is no rounding and no 2^53 limit. JavaScript writes a number of magnitude 1e21 or more in exponent form ("1e+21"); `Decimal.IntToString` always writes every digit.
- The render dispatch over the seven field kinds and its `default: null` case: widget choice only. A closed datatype makes the default case vacuous.
- The `formResetBehavior` field: it is declared, and the model keeps it in the descriptor, but no operation of the app acts on it.
- `MetricCard`, `StatusIndicator` and the monitoring types in src/types.ts: presentational, and not used by the form engine.
- `scoutConfig` and the notes text area: neither feeds the engine.
- Inherited property names (`toString`, `constructor`, …): a JavaScript read such as `prev[code]` also finds them on every object. No field code is one, so the model reads own keys only.
- Integer-like property names: JavaScript lists keys such as `"1"` before the other keys whatever their creation order. No field code is integer-like, so the model keeps pure creation order.
- FormState.AdjustCounter: a non-empty string counter value is not given its JavaScript meaning on decrement. `"5" - 1` would give 4, and a non-numeric string gives `NaN`; both leave the value unchanged in the model. Increment concatenates the step's decimal text, as `+` does. A counter field only holds text after a `handleInputChange` with text under a counter code.
- Lone UTF-16 surrogates: a JavaScript string can hold an unpaired surrogate, which `JSON.stringify` writes as a `\udxxx` escape. A Dafny `char` cannot hold one, so the model's strings never contain one and the model has no such escape.
- Json.Parse: reads the compact text that `JSON.stringify` writes: no whitespace, no fractions or exponents, no duplicate keys, and objects, strings, integers and booleans only. It is not a reader for every JSON text of RFC 8259.
- The ghost field `toggled` of `Engine.FormEngine` is a record of the codes ever toggled. It states which codes the export's `timers` property lists; the source has no such variable.

# Gemini wide screen and input box height adjuster, modelled in Dafny

The model covers the userscript `gemini_wide_screen_mode.user.js`. The
script does three things on the Gemini chat page:

- It widens the conversation layout when "wide mode" is on.
- It adds a toggle button for wide mode, plus two size buttons that raise or
  lower the input box's row bounds.
- It keeps the wide-mode flag in local storage and the four row bounds in
  session storage.

The files follow the script's parts:

- `js_values.dfy` (module `JsValues`): the JavaScript values the script
  exchanges with Web Storage. These are `null`, `parseInt(s, 10)` (leading
  white space, an optional sign, the longest run of decimal digits, NaN when
  there are none) and `String(v)` for numbers and booleans.
- `row_bounds.dfy` (module `RowBounds`): the four bounds `maxRowsWide`,
  `minRowsWide`, `minRowsNormal` and `maxRowsNormal`.
  - The size buttons pick one bound through a four-way branch table.
  - Up adds one row, with no ceiling.
  - Down is `Math.max(floor, bound - 1)`. A maximum's floor is its mode's
    minimum; a minimum's floor is 1.
- `preferences.dfy` (module `Preferences`): loading and saving.
  - The flag is on only for the exact stored text `"true"`, and is saved as
    `"true"`/`"false"`.
  - Each bound loads as `parseInt(item, 10) || default`, with defaults 12, 6,
    3 and 8. A missing item, unparsable text and `0` all give the default.
  - A bound is saved under its own variable name.
- `styles.dfy` (module `Styles`): what `resizeStuff` writes and the toggle's
  icon text.
  - The container `maxWidth` is `'100%'` in wide mode and `''` otherwise.
  - The maximum rows are the active mode's maximum.
  - The minimum rows are `Math.max(3, active minimum)`.
  - The icon is `'remove'` in wide mode and `'add'` otherwise.
- `injection.dfy` (module `Injection`): the guard that creates the three
  buttons only once, as a pure state machine over what it sees of the page.
  - The toggle goes into the top anchor (`afterbegin`).
  - The two size buttons go in *after* the bottom anchor (`afterend`). Their
    existence checks search the bottom anchor's descendants, so the script
    never finds its own size buttons there. The model keeps elements inside
    the bottom anchor (the host page's) apart from buttons after it (the
    script's), and proves that the guard still creates each control at most
    once: the toggle in the top anchor is what stops a second creation.
  - A retry scheduled with `setTimeout` is a pending-retry counter. A retry
    that fires calls `createToggleButton` directly, without the
    `buttonCreated` test, as the script does.
- `script.dfy` (module `WideScreen`): the script as imperative code.
  - The module-level variables are the fields of a `Script` object, and each
    handler is a method that updates them in place.
  - The part of the host page the script touches is a `Page` object. Layout
    containers and editors are arrays that `resizeStuff` overwrites in loops.
  - Local and session storage are `Storage` objects.
  - Each method's contract ties its new state to the functions of the modules
    above.

The bounds are plain integers with no invariant between them. The comments
at lines 135 and 139 say a maximum goes down "but not below" its mode's
minimum, yet the code does not keep a maximum at or above its minimum:

- nothing stops Up on a minimum from passing its maximum
  (`RowBounds.UpPassesMaximum`);
- nothing validates the loaded values;
- Down on a maximum below its minimum raises it to the minimum
  (`RowBounds.DownCanRaiseMaximum`).

The model follows the code.

## Model

| member | source | states |
|---|---|---|
| `JsValues.TrimStartSkipsWhiteSpace` | gemini_wide_screen_mode.user.js:26-29 | `parseInt` drops a leading run of ECMAScript white space and line terminators, and the text it keeps does not start with one |
| `JsValues.ToJsString` | gemini_wide_screen_mode.user.js:26-29 | a missing item (`null`) becomes the text "null" before `parseInt` reads it; `JsValues.ParseIntOfNull` proves that this parses to NaN |
| `JsValues.ParseInt` | gemini_wide_screen_mode.user.js:26-29 | `parseInt(s, 10)`: skip white space, take an optional sign, read the longest run of digits, NaN without one; characterised by `JsValues.ParseIntReadsSignedDigits`, `JsValues.ParseIntWithoutDigits` and `JsValues.ParseIntRoundTrip` |
| `JsValues.NumberToString` | gemini_wide_screen_mode.user.js:118 | `String(n)` of the whole number a size button stores; `JsValues.ParseIntRoundTrip` proves `parseInt` reads it back as `n` |
| `JsValues.BoolToString` | gemini_wide_screen_mode.user.js:272 | `String(b)` of the flag, "true" or "false"; `Preferences.SaveWideMode` and `Preferences.WideModeRoundTrip` state what is stored and read back |
| `JsValues.DigitPrefix` | gemini_wide_screen_mode.user.js:26-29 | the digits `parseInt` reads are all decimal digits |
| `JsValues.DigitPrefixIsLongest` | gemini_wide_screen_mode.user.js:26-29 | those digits are a prefix of the text, and the character after them is not a digit (the number is the longest run of digits) |
| `JsValues.NatToDecimal` | gemini_wide_screen_mode.user.js:118 | `String(n)` of a natural number is a non-empty run of decimal digits |
| `JsValues.DecimalValue` | gemini_wide_screen_mode.user.js:118 | the digits `String(n)` writes spell `n` again |
| `JsValues.DigitPrefixOfDigits` | gemini_wide_screen_mode.user.js:26-29 | digits followed by a non-digit are read up to the non-digit exactly |
| `JsValues.TrimStartOfPadded` | gemini_wide_screen_mode.user.js:26-29 | white space before a text that does not start with white space is skipped, and nothing else is |
| `JsValues.ParseIntTrimmedSigned` | gemini_wide_screen_mode.user.js:26-29 | after the white space, an optional `+` or `-` and the digits after it give the signed value of those digits |
| `JsValues.UnsignedOfSigned` | gemini_wide_screen_mode.user.js:26-29 | the sign is taken off a signed number, and the result is negative exactly when the sign was `-` |
| `JsValues.ParseIntReadsSignedDigits` | gemini_wide_screen_mode.user.js:26-29 | `parseInt(ws + sign + digits + rest, 10)` is the signed value of the digits, whatever non-digit text follows them |
| `JsValues.ParseIntWithoutDigits` | gemini_wide_screen_mode.user.js:26-29 | `parseInt` is NaN when no digit follows the white space and the optional sign |
| `JsValues.ParseIntOfNull` | gemini_wide_screen_mode.user.js:26-29 | a missing item, read as the text "null", parses to NaN |
| `JsValues.ParseIntRoundTrip` | gemini_wide_screen_mode.user.js:26-29 | every whole number the size buttons store with `setItem` parses back to itself |
| `RowBounds.Max` | gemini_wide_screen_mode.user.js:135 | `Math.max` is at least both arguments and equal to one of them |
| `RowBounds.TargetOf` | gemini_wide_screen_mode.user.js:114-128 | the bound a size button changes, each of the four as an if-and-only-if of the expanded marker and the mode |
| `RowBounds.Set` | gemini_wide_screen_mode.user.js:114-151 | assigning one bound sets that bound and leaves the other three as they were |
| `RowBounds.Up` | gemini_wide_screen_mode.user.js:114-130 | the targeted bound goes up by exactly one and the other three are unchanged |
| `RowBounds.DownStepsToFloor` | gemini_wide_screen_mode.user.js:132-151 | Down lowers the bound by one while it is above its floor and leaves it at the floor otherwise; the other bounds and the floor stay unchanged |
| `RowBounds.Down` | gemini_wide_screen_mode.user.js:132-151 | `Math.max(floor, bound - 1)` on the targeted bound (lines 135, 139, 143, 147); characterised by `RowBounds.DownStepsToFloor`, `RowBounds.DownRespectsFloor` and `RowBounds.DownTimesValue` |
| `RowBounds.DownRespectsFloor` | gemini_wide_screen_mode.user.js:132-151 | after Down, a maximum is at least its mode's minimum and a minimum is at least 1 |
| `RowBounds.DownAfterUp` | gemini_wide_screen_mode.user.js:114-151 | Down undoes Up on the same bound when the bound was not below its floor |
| `RowBounds.UpAfterDown` | gemini_wide_screen_mode.user.js:114-151 | Up undoes Down on a bound that was above its floor |
| `RowBounds.DownAtFloor` | gemini_wide_screen_mode.user.js:132-151 | a bound at its floor is a fixed point of Down |
| `RowBounds.DownTimesValue` | gemini_wide_screen_mode.user.js:132-151 | `n > 0` Down presses leave the bound at `max(floor, bound - n)` and the other bounds unchanged |
| `RowBounds.UpTimesValue` | gemini_wide_screen_mode.user.js:114-130 | `n` Up presses raise the bound by `n` and leave the others unchanged |
| `RowBounds.TenDownsFromSix` | gemini_wide_screen_mode.user.js:146-148 | ten presses of Down on a wide minimum of 6 stop at 1 |
| `RowBounds.UpPassesMaximum` | gemini_wide_screen_mode.user.js:125-128 | from the default bounds, seven Up presses on the wide minimum give 13 rows against a wide maximum of 12: nothing keeps maximum at or above minimum |
| `RowBounds.DownCanRaiseMaximum` | gemini_wide_screen_mode.user.js:135 | Down on a wide maximum below the wide minimum raises it to that minimum |
| `Preferences.KeysDistinct` | gemini_wide_screen_mode.user.js:26-29 | the four bounds are stored under four different keys |
| `Preferences.WideModeOnlyForTrue` | gemini_wide_screen_mode.user.js:21 | the flag loads as on exactly when the stored item is the text "true" |
| `Preferences.LoadWideMode` | gemini_wide_screen_mode.user.js:21 | `getItem(...) === 'true'`; `Preferences.WideModeOnlyForTrue` proves it is on exactly for the stored text "true" |
| `Preferences.SaveWideMode` | gemini_wide_screen_mode.user.js:272 | saving the flag stores "true" or "false" under `geminiWideModeEnabled` and leaves every other key alone |
| `Preferences.WideModeRoundTrip` | gemini_wide_screen_mode.user.js:272 | loading the flag after saving it gives back the saved flag |
| `Preferences.OrDefault` | gemini_wide_screen_mode.user.js:26-29 | `x \|\| d` on a `parseInt` result gives `d` for NaN and 0 and keeps every other number, negative ones included |
| `Preferences.LoadMissingBound` | gemini_wide_screen_mode.user.js:26-29 | a missing bound loads as its default |
| `Preferences.LoadRowBound` | gemini_wide_screen_mode.user.js:26-29 | `parseInt(getItem(key), 10) || d`; characterised by `Preferences.LoadMissingBound`, `Preferences.LoadStoredBound`, `Preferences.LoadBoundPrefix` and `Preferences.LoadBoundWithoutDigits` |
| `Preferences.LoadRows` | gemini_wide_screen_mode.user.js:26-29 | the four bounds read at start; `Preferences.LoadRowsPerBound` proves each comes from its own key with its own default, and `Preferences.FreshSessionDefaults` gives 12, 6, 3 and 8 for an empty session |
| `Preferences.LoadStoredBound` | gemini_wide_screen_mode.user.js:26-29 | a stored number loads as itself, except that a stored 0 loads as the default |
| `Preferences.LoadBoundPrefix` | gemini_wide_screen_mode.user.js:26-29 | a stored text of white space, a sign and digits followed by other text loads as the signed digits (the default when they are 0) |
| `Preferences.LoadBoundWithoutDigits` | gemini_wide_screen_mode.user.js:26-29 | a stored text without digits after the white space and sign loads as the default |
| `Preferences.LoadRowsPerBound` | gemini_wide_screen_mode.user.js:26-29 | each bound is loaded from its own key with its own default |
| `Preferences.FreshSessionDefaults` | gemini_wide_screen_mode.user.js:26-29 | an empty session storage gives the bounds 12, 6, 3 and 8 |
| `Preferences.SaveThenLoad` | gemini_wide_screen_mode.user.js:114-151 | after a size button saves a non-zero bound, loading the session again gives that bound back and the other three as they loaded before |
| `Preferences.SaveRowBound` | gemini_wide_screen_mode.user.js:114-151 | `setItem(key, n)` of one bound (lines 118, 121, 124, 127, 136, 140, 144, 148); `Preferences.SaveThenLoad` proves a saved non-zero bound loads back and the others load as before |
| `Preferences.SaveKeepsOtherKey` | gemini_wide_screen_mode.user.js:114-151 | saving one bound leaves the stored items of the other bounds as they were |
| `Styles.EditorStyleFor` | gemini_wide_screen_mode.user.js:96-105 | every editor gets the same maximum rows as the root element |
| `Styles.Resized` | gemini_wide_screen_mode.user.js:86-92 | the values `resizeStuff` writes for a mode and bounds; characterised by `Styles.ResizedValues`, `Styles.ResizedIgnoresInactiveMode` and `Styles.ResizedFollowsMinimum` |
| `Styles.ResizedValues` | gemini_wide_screen_mode.user.js:86-92 | the width is `'100%'` exactly in wide mode and `''` otherwise; the maximum rows are the active mode's maximum; the minimum rows are the active mode's minimum raised to 3 |
| `Styles.ResizedIgnoresInactiveMode` | gemini_wide_screen_mode.user.js:86-100 | changing a bound of the inactive mode changes no style value |
| `Styles.ResizedFollowsMinimum` | gemini_wide_screen_mode.user.js:92 | above 3, one more row of the active minimum raises the applied minimum by one |
| `Styles.IconDistinguishesModes` | gemini_wide_screen_mode.user.js:269 | the icon is `'remove'` exactly in wide mode and `'add'` exactly in normal mode, so the two modes get different icons |
| `Styles.IconFor` | gemini_wide_screen_mode.user.js:269 | `'remove'` or `'add'`; `Styles.IconDistinguishesModes` proves each icon belongs to exactly one mode |
| `Injection.CreateStepOutcome` | gemini_wide_screen_mode.user.js:170-250 | `createToggleButton` with an anchor missing only schedules a retry; with a control found it changes nothing; otherwise it adds exactly one toggle and one of each size button and sets `buttonCreated` |
| `Injection.CreateStep` | gemini_wide_screen_mode.user.js:170-250 | `createToggleButton` on the guard state; `Injection.CreateStepOutcome` states its three outcomes |
| `Injection.CreateStepIdempotent` | gemini_wide_screen_mode.user.js:181-187 | once the anchors are there, a second `createToggleButton` changes nothing more |
| `Injection.SizeButtonsInvisibleToGuard` | gemini_wide_screen_mode.user.js:182-234 | size buttons already inserted after the bottom anchor do not stop the guard; one more of each is inserted when there is no toggle |
| `Injection.CheckStepGuard` | gemini_wide_screen_mode.user.js:276-282 | `checkIfPageReadyForButton` calls `createToggleButton` exactly when the page is complete and `buttonCreated` is unset, and otherwise changes nothing |
| `Injection.CheckStep` | gemini_wide_screen_mode.user.js:276-282 | `checkIfPageReadyForButton` on the guard state; `Injection.CheckStepGuard` states when it creates |
| `Injection.Apply` | gemini_wide_screen_mode.user.js:285-289 | one event: an observer callback, a retry firing (line 177), an anchor render or a ready-state change; `Injection.ApplyKeepsConsistent` proves it keeps the one-set-when-created invariant |
| `Injection.Run` | gemini_wide_screen_mode.user.js:285-295 | a sequence of events; `Injection.RunKeepsConsistent` and `Injection.AtMostOnce` prove each control is created at most once |
| `Injection.ApplyKeepsConsistent` | gemini_wide_screen_mode.user.js:170-289 | every event keeps "one of each control when `buttonCreated` is set, none before, with the anchors present" |
| `Injection.RunKeepsConsistent` | gemini_wide_screen_mode.user.js:170-289 | any sequence of events keeps that invariant |
| `Injection.AtMostOnce` | gemini_wide_screen_mode.user.js:170-295 | starting from an untouched page, any sequence of callbacks, retries, renders and ready-state changes creates each control at most once, and `buttonCreated` is set exactly when the toggle exists |
| `Injection.ObserverCreatesOnce` | gemini_wide_screen_mode.user.js:285-289 | on a complete page with both anchors, the first observer callback creates one of each control and later callbacks add none |
| `Injection.ObserversAfterCreation` | gemini_wide_screen_mode.user.js:277 | once `buttonCreated` is set, observer callbacks change nothing in the guard's state |
| `Injection.RetryScenario` | gemini_wide_screen_mode.user.js:175-179 | anchors missing at the first check: the retry that runs after they render creates one set of controls, and later callbacks add none |
| `WideScreen.Script.constructor` | gemini_wide_screen_mode.user.js:21-29 | the flag is loaded from local storage and the bounds from session storage; no controls yet and no retries pending |
| `WideScreen.Script.ResizeStuff` | gemini_wide_screen_mode.user.js:78-106 | every container, the root element and every editor carry the values derived from the mode and bounds; the guard's view and the icon are unchanged |
| `WideScreen.Script.UpdateButtonIcon` | gemini_wide_screen_mode.user.js:266-273 | the icon shows the mode when a toggle exists, and the flag is saved with `String(b)`; nothing else changes |
| `WideScreen.Script.ToggleWideMode` | gemini_wide_screen_mode.user.js:108-112 | the flag flips, the page is restyled for the new mode, the icon is refreshed and the new flag is saved; the bounds stay unchanged |
| `WideScreen.Script.WindowSizeUp` | gemini_wide_screen_mode.user.js:114-130 | the targeted bound goes up by one (`RowBounds.Up`), only that bound is saved, and the page is restyled |
| `WideScreen.Script.WindowSizeDown` | gemini_wide_screen_mode.user.js:132-151 | the targeted bound steps down to no lower than its floor (`RowBounds.Down`), only that bound is saved, and the page is restyled |
| `WideScreen.Script.CreateToggleButton` | gemini_wide_screen_mode.user.js:170-250 | the page and the script's flags change as the guard's `CreateStep` says; a new toggle's icon starts empty; bounds, storage and styles are unchanged |
| `WideScreen.Script.CheckIfPageReadyForButton` | gemini_wide_screen_mode.user.js:276-282 | the state changes as the guard's `CheckStep` says |
| `WideScreen.Script.MutationObserverCallback` | gemini_wide_screen_mode.user.js:285-289 | the guard's check runs, then the icon is updated and the flag saved, then the page restyled |
| `WideScreen.Script.RetryFires` | gemini_wide_screen_mode.user.js:177 | a scheduled retry runs `createToggleButton` without the `buttonCreated` test, using up one pending retry; a new toggle's icon starts empty, and bounds, storage and styles are unchanged |
| `WideScreen.Start` | gemini_wide_screen_mode.user.js:291-292 | startup makes a new script object, loads the preferences, then checks the page once from an untouched guard state; a toggle created then has an empty icon, and the styles are unchanged |

## Left out

- Trusted Types (lines 31-68): the policy passes strings through unchanged.
- `addGlobalStyle` and its style sheet (lines 153-167 and 252-263): the
  model has no CSS.
- The inserted buttons' HTML templates: the model records which controls
  exist and where, not their markup.
- `getNonce` (lines 70-76): nothing the model covers uses it.
- The `pageReady` flag (lines 23 and 278): it is written and never read.
- Console logging.
- Event scheduling. The `MutationObserver` (lines 294-295) and
  `setTimeout` (line 177) are not modelled as timers. Observer callbacks,
  retries, host renders and ready-state changes are the `Injection.Event`
  values, in any order. A retry is a pending-retry counter.
- The click listeners (lines 237-243): the handlers are the methods
  `ToggleWideMode`, `WindowSizeUp` and `WindowSizeDown`, and clicks are
  calls to them.
- `WideScreen.Script.WindowSizeUp`: the `.pre-fullscreen` query is the
  `expanded` parameter, so the model does not look at the page for it.
- `WideScreen.Script.WindowSizeDown`: the `.pre-fullscreen` query is the
  `expanded` parameter here too.
- The `try`/`catch` in `createToggleButton`: the model has no DOM
  exceptions, so that path is not taken.
- The host page removing or rebuilding the anchors: renders only add them.
- What the browser does with the row values. The `calc(...)` heights are
  the fixed strings the script writes; they are not evaluated.
- Floating-point numbers: numbers are unbounded integers. Precision above
  2^53, exponent notation in `String(n)` and `-0` are not modelled.

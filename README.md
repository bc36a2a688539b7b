# Joist update checker, frame profiler and navigation-bar styling in Dafny

This project models the parts of the joist simulation framework (PhET
Interactive Simulations) that hold state or decide something:

- **UpdateCheck** (`update_check.dfy`, module `UpdateChecking`): the singleton
  that asks the PhET server for the latest published version of the running
  simulation. It is a five-state machine (`unchecked`, `checking`,
  `up-to-date`, `out-of-date`, `offline`) driven by `check()`,
  `resetTimeout()`, a 15000 ms timer and the request's `onload` and
  `onerror` callbacks. The class `UpdateCheck` assigns its fields in the
  order the source does. Each of its methods is specified by a pure step
  function on a `Snapshot` of those fields. `Run` delivers any sequence of
  events, in any order the browser could deliver them, so properties of
  whole runs can be proved: the invariant `Consistent`, "disabled checks
  never move", "an unpublished sim never sends a request", and two
  behaviours that follow from the code not matching responses to requests.
- **Profiler** (`profiler.dfy`, module `Profiling`): a 30-slot histogram
  (an `array<int>`) of the milliseconds between frame starts, with the
  long-interval and all-interval lists, cleared on every 60th frame. Its
  invariant `Accounted` says that slot `j` counts exactly the occurrences of
  `j` ms in `allTimes` and that `longTimes` is exactly the entries of
  `allTimes` of 30 ms or more (or NaN), in order. It implies the count
  balance `Balanced`: the histogram total plus the length of `longTimes`
  equals the length of `allTimes`.
- **NavigationBarScreenButton**, **PhetButton**, **HomeButton**
  (`navigation_bar_screen_button.dfy`, `phet_button.dfy`, `home_button.dfy`):
  the selection rule, the press listener and the three styling tables, as
  functions over booleans, colour strings and the checker's state. One lemma
  links the menu button to the checker: a green menu icon always means the
  checker holds a newer version.
- `js_builtins.dfy` (module `JsBuiltins`) gives JavaScript's `substring`
  (indices clamped, then swapped when out of order) and `indexOf` (-1 when
  absent) their index rules, and `Option` for values that may be
  `null` or `undefined`.

Three behaviours of the checker follow from what its code does and does not check:

- Nothing ties a response to its request: neither `timeout` nor `onload`
  checks the state, so a late `onload` overwrites `offline`
  (`LateLoadOverwritesOffline`).
- `check()` guards only on the state, so after a timeout a second request
  can be in flight while the first is still pending (`TwoRequestsInFlight`).
- The sim-name check happens only when assertions are enabled
  (`Config.assertionsEnabled`). An empty sim name always passes it.

## Model

| member | source | states |
|---|---|---|
| `JsBuiltins.Substring` | js/UpdateCheck.js:121-122 | `substring` clamps each index into the string and returns the slice between the smaller and the larger clamped index, for every pair of indices |
| `JsBuiltins.IndexOf` | js/NavigationBarScreenButton.js:52 | `indexOf` returns the first position holding the element, with no earlier occurrence, or -1 exactly when the element is absent |
| `UpdateChecking.NameMatches` | js/UpdateCheck.js:117-118 | the name check holds iff the comment carries the sim name at index 2, or the sim name is empty |
| `UpdateChecking.VersionToken` | js/UpdateCheck.js:121-122 | the token has no space; it is the text from index (length of the sim name) + 3 up to the first following space when there is one, and empty otherwise |
| `UpdateChecking.LoadOutcome` | js/UpdateCheck.js:112-124 | the response yields no version when the comment is missing or (with assertions on) the name mismatches; otherwise it yields what `SimVersion.parse` makes of the token |
| `UpdateChecking.Verdict` | js/UpdateCheck.js:127-135 | the result is `out-of-date` or `up-to-date`; it is `out-of-date` iff compare is -1, or compare is 0 and our suffix is non-empty |
| `UpdateChecking.Initial` | js/UpdateCheck.js:36-41 | a fresh checker is `unchecked`, has no latest version, no timer and no request |
| `UpdateChecking.CheckStep` | js/UpdateCheck.js:88-107 | no change when checks are off or the state is not `unchecked`/`offline`; an unpublished sim goes to `up-to-date` with no timer and no request; a published sim with CORS support enters `checking` and sends a request, with the timer armed for 15000 ms; a request is issued exactly when the state enters `checking`; without CORS support nothing changes; `latestVersion` is untouched |
| `UpdateChecking.ResetTimeoutStep` | js/UpdateCheck.js:72-78 | re-arms the timer for the full duration while `checking`, and changes nothing otherwise |
| `UpdateChecking.FireStep` | js/UpdateCheck.js:80-83 | the timer is no longer pending and the state is `offline`, whatever it was |
| `UpdateChecking.LoadStep` | js/UpdateCheck.js:109-140 | the timer is cleared; the state is `offline` iff the response yields no version, and then `latestVersion` is kept; otherwise `latestVersion` is the parsed version and the state is the verdict of comparing ours with it |
| `UpdateChecking.ErrorStep` | js/UpdateCheck.js:141-145 | the timer is cleared and the state is `offline`; nothing else changes |
| `UpdateChecking.InitialConsistent` | js/UpdateCheck.js:36-41 | a fresh checker satisfies the invariant |
| `UpdateChecking.StepKeepsConsistent` | js/UpdateCheck.js:56-145 | every deliverable event preserves the invariant: a timer is pending iff the state is `checking`; `checking` has a request out; no request when checks are off, the sim is unpublished or CORS is missing; `out-of-date`/`up-to-date` agree with the recorded latest version |
| `UpdateChecking.RunKeepsConsistent` | js/UpdateCheck.js:56-145 | every snapshot reached by any run of events from a consistent one is consistent |
| `UpdateChecking.DisabledNeverMoves` | js/UpdateCheck.js:88-93 | with updates not checked, every run from a fresh checker leaves it exactly as it was: `unchecked`, no request, no timer |
| `UpdateChecking.UnpublishedNeverRequests` | js/UpdateCheck.js:95-99 | an unpublished sim never sends a request and is only ever `unchecked` or `up-to-date` |
| `UpdateChecking.LateLoadOverwritesOffline` | js/UpdateCheck.js:80-140 | after check and timer fire the state is `offline`; a response arriving then still sets `latestVersion` and replaces `offline` by the verdict |
| `UpdateChecking.TwoRequestsInFlight` | js/UpdateCheck.js:88-107 | check, timer fire, check leaves the checker `checking` with two requests outstanding |
| `UpdateChecking.UpdateCheck.constructor` | js/UpdateCheck.js:25-44 | the configuration (sim name, our version, switches) is fixed and the snapshot is the initial one, which is consistent |
| `UpdateChecking.UpdateCheck.ClearTimeout` | js/UpdateCheck.js:62-65 | no timer is pending afterwards; nothing else changes |
| `UpdateChecking.UpdateCheck.SetTimeout` | js/UpdateCheck.js:67-70 | a timer is pending with deadline now + 15000; nothing else changes |
| `UpdateChecking.UpdateCheck.ResetTimeout` | js/UpdateCheck.js:72-78 | the new fields are `ResetTimeoutStep` of the old ones |
| `UpdateChecking.UpdateCheck.Timeout` | js/UpdateCheck.js:80-83 | the state becomes `offline`; nothing else changes |
| `UpdateChecking.UpdateCheck.TimerFires` | js/UpdateCheck.js:68-69 | the pending timer runs `timeout`: the new fields are `FireStep` of the old ones |
| `UpdateChecking.UpdateCheck.Check` | js/UpdateCheck.js:88-149 | the new fields are `CheckStep` of the old ones |
| `UpdateChecking.UpdateCheck.OnLoad` | js/UpdateCheck.js:109-140 | the new fields are `LoadStep` of the old ones and the response |
| `UpdateChecking.UpdateCheck.OnError` | js/UpdateCheck.js:141-145 | the new fields are `ErrorStep` of the old ones |
| `Profiling.Between` | js/Profiler.js:53 | the interval is a number (start minus last start) iff both start times are defined, and NaN otherwise |
| `Profiling.Cleared` | js/Profiler.js:30-36 | 30 zero slots, empty `longTimes` and `allTimes` |
| `Profiling.Record` | js/Profiler.js:74-82 | filing an interval appends it to `allTimes`; an interval of 30 or more, or NaN, is appended to `longTimes` and leaves the histogram alone; a short one leaves `longTimes` alone and adds one to its own slot only; 30 slots remain |
| `Profiling.SumIncrement` | js/Profiler.js:76-77 | incrementing one slot raises the histogram total by exactly one |
| `Profiling.ClearedBalanced` | js/Profiler.js:68-72 | after a reset the histogram total plus the length of `longTimes` equals that of `allTimes` (all zero) |
| `Profiling.LongsAreTheLongOnes` | js/Profiler.js:79-81 | the entries kept as long, in order, are exactly the entries that are not short (30 ms or more, or NaN) |
| `Profiling.CountsAddUp` | js/Profiler.js:74-82 | when no interval is negative, the per-slot counts of short intervals plus the number of long ones equal the number of intervals |
| `Profiling.AccountedIsBalanced` | js/Profiler.js:74-82 | per-interval accounting implies the count balance: histogram total plus the length of `longTimes` equals the length of `allTimes` |
| `Profiling.ClearedAccounted` | js/Profiler.js:68-72 | after a reset every slot counts the (no) occurrences of its value and `longTimes` holds the (no) long entries |
| `Profiling.RecordKeepsAccounted` | js/Profiler.js:74-82 | filing a non-negative or NaN interval keeps every slot equal to the number of its value's occurrences in `allTimes`, and `longTimes` equal to the non-short entries of `allTimes` in order |
| `Profiling.RecordKeepsBalance` | js/Profiler.js:74-82 | filing a non-negative or NaN interval keeps histogram total plus the length of `longTimes` equal to the length of `allTimes` |
| `Profiling.Profiler.constructor` | js/Profiler.js:25-38 | 30 zero slots, empty lists, frame count 0, no start times; the per-interval accounting holds |
| `Profiling.Profiler.FrameStarted` | js/Profiler.js:45-48 | the frame count grows by exactly one and the start time is recorded; nothing else changes |
| `Profiling.Profiler.ClearHistogram` | js/Profiler.js:68-70 | all 30 slots are 0 |
| `Profiling.Profiler.Reset` | js/Profiler.js:68-72 | the data becomes `Cleared()` in place and the per-interval accounting holds; the frame count and start times are kept |
| `Profiling.Profiler.File` | js/Profiler.js:74-82 | the data becomes `Record` of the old data and the interval, in place, and the per-interval accounting is kept; the frame count and start times are kept |
| `Profiling.Profiler.FrameEnded` | js/Profiler.js:51-85 | on a frame whose count is a multiple of 60 the data is cleared and the interval dropped; otherwise the interval is filed, a short one incrementing only its own slot; the histogram keeps 30 slots, each counting its value's occurrences in `allTimes`, and `longTimes` stays the non-short entries of `allTimes`; the last start time becomes the current one |
| `NavigationBarScreenButtons.SelectedFor` | js/NavigationBarScreenButton.js:51-53 | a listed screen's button is selected iff the index is the screen's first position; an unlisted screen's iff the index is -1 |
| `NavigationBarScreenButtons.SelectionExclusive` | js/NavigationBarScreenButton.js:51-53 | two different listed screens are never selected at the same index |
| `NavigationBarScreenButtons.NavigationBarScreenButton.Press` | js/NavigationBarScreenButton.js:54-58 | the index becomes the screen's position, the button is selected and no other listed screen is |
| `NavigationBarScreenButtons.ButtonLook` | js/NavigationBarScreenButton.js:97-109 | text colour by selection and bar colour ('black'/'#f2e916', 'gray'/'white'); opacity 1.0 when selected, else 0.65 when down and 0.5 otherwise; never both highlights, one exactly when over or down, the brightening one only on a 'black' bar |
| `NavigationBarScreenButtons.SelectedStandsOut` | js/NavigationBarScreenButton.js:101-106 | on any bar the selected button's text colour differs from an unselected one's and its opacity is higher |
| `PhetButtonStyle.PhetButtonLook` | js/PhetButton.js:119-125 | the dark logo iff the background is white (fill not 'black' and no home screen); a green icon iff the state is `out-of-date`; '#0a0'/'#222' with the dark logo, '#3F3'/'white' with the bright one |
| `PhetButtonStyle.HomeScreenIsBright` | js/PhetButton.js:121-124 | on the home screen the bright logo is used and the look does not depend on the background fill |
| `PhetButtonStyle.GreenOnlyWithNewerVersion` | js/PhetButton.js:122-123 | for a consistent checker, a green icon means a latest version is recorded and compares as newer than ours (or equal while ours has a suffix) |
| `PhetButtonStyle.UnpublishedNeverGreen` | js/PhetButton.js:122-123 | for an unpublished sim, no run of checker events ever turns the icon green |
| `HomeButtonStyle.HomeIconFill` | js/HomeButton.js:67-74 | the pressed colours ('gray', '#444') come exactly from state 'pressed'; the light colours ('gray', 'white') exactly from a 'black' bar; an unpressed icon on any other bar is '#222' |
| `HomeButtonStyle.FillDependsOnTwoTests` | js/HomeButton.js:67-74 | the fill depends only on whether the bar is exactly 'black' and the state exactly 'pressed' |
| `HomeButtonStyle.PressIsVisible` | js/HomeButton.js:69-72 | on any bar the pressed colour differs from every other state's colour |

## Left out

- `SimVersion` (parsing, comparison, `toString`) is not part of this model. `SimVersion.parse` and `compare` are parameters of the checker (`Config.parse`, `Config.compare`). Any result of `compare` is allowed, and the decision rule treats it as the code does.
- The network and JSON plumbing (`XMLHttpRequest`, `open`/`send`, the request URL, `JSON.parse`) is foreign I/O. A response is an event carrying the `comment` string, or None when the body is not JSON or has no string `comment`.
- `compare` throwing inside `onload` is not modelled; only `SimVersion.parse` failing is.
- Browser timers: `window.setTimeout`/`clearTimeout` and the numeric `timeoutId` become an optional deadline. The clock reading is a parameter of `Check` and `ResetTimeout`. The timer fires as an event that is enabled only while the timer is pending.
- `updateURL` (URL encoding and build globals) is not modelled. `areUpdatesChecked` (`!window.together`) and CORS support (`'withCredentials' in req`) are inputs fixed at construction.
- `UpdateChecking.UpdateCheck.OnLoad`, `UpdateChecking.UpdateCheck.OnError`: they require a request to be outstanding. The browser calls them only for a request that was sent.
- Property-change notification (the observable `PropertySet`) is not modelled. Observers read the fields.
- Profiler: the FPS and average frame time (floating-point `Math.round` and division) and the jQuery DOM report are not modelled. Neither is `Profiler.start`, which only wires the two callbacks to the sim's events.
- `Profiling.Profiler.FrameEnded` requires the interval, when defined, to be non-negative on a frame that files it (a count that is not a multiple of 60); report frames never use the interval. A negative one would index `histogram[-1]`, which in JavaScript adds a property outside the 30 slots. The NaN interval of the first frame is modelled: it goes to `longTimes` and `allTimes`.
- Layout and scene-graph code is not modelled: icon scaling, spacing, `LOGO_SCALE`, the transform linking in `linkPhetButtonTransform`, the menu pop-up and its resize positioning, accessibility peers and DOM listeners.
- `js/TogetherTypes.js`, `js/demo/DialogsDemoView.js` and `js/share/Pointers.js` are not part of this model. They are a descriptor table, demo UI and a wrapper over an external collection.
- Strings are Dafny sequences of characters, whereas JavaScript's `length` and `substring` count UTF-16 code units. The two agree on a comment whose text before the version token has no character outside the Basic Multilingual Plane; sim names and the comment's "# <name> " prefix are ASCII.
- Colours are the strings the source compares and assigns. A `Color` object given as a fill counts as "not 'black'", as `!==` does.

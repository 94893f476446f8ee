# Ex-Orcism: the ritual state machine, in Dafny

Ex-Orcism is a one-screen mobile app. The user types an ex's name and picks a
destruction method. A progress bar then runs from 0 to 100 with haptic ticks,
and the app shows a result card with a random quote and a random share-card
layout. A random "petty affirmation" can follow. All of this lives in the
`App` component of `App.js`. This project models its logic:

- `text.dfy`, module `Text`: JavaScript's `String.prototype.trim`. It decides
  whether a name was entered.
- `catalog.dfy`, module `Catalog`: the four content lists (8 quotes, 5 methods,
  6 affirmations, 12 share-card templates). Also the draw
  `Math.floor(Math.random() * n)`. The random number is a fraction `num / den`
  with `num < den`, passed in as a parameter.
- `progress.dfy`, module `Progress`: one tick of the progress interval as a
  function, and the complete run of ticks in one ritual.
- `dates.dfy`, module `Dates`: `getFormattedDate`. Month, day and year are
  parameters.
- `app.dfy`, module `ExOrcism`: the component's state as class `App`. The
  class has one field per `useState` variable. Two more fields record whether
  the progress interval is scheduled (`ticking`) and whether the fade-out
  started by `completeRitual` has yet to finish (`completing`). A ghost log
  records the haptic requests. Each transition is a method. The class states
  two invariants:
  - `Valid` holds after any sequence of calls.
  - `Consistent` holds when every call is one the screen offers at that
    moment, that is, its button is rendered.
- `scenarios.dfy`, module `Scenarios`: whole runs from a freshly mounted
  component.

Facts about `App.js` that shape the model:

- There are 12 share-card templates (App.js:49-114).
- Progress stays at 100 after the ritual until `reset` (App.js:204-208,
  235-239, 288).
- `reset` does not cancel a fade-out already under way (App.js:235,
  282-289). A `reset` during the fade would be followed by the result stage
  with no method selected. The screen offers no reset button during the
  ritual, so `Consistent` holds along every path in which each action
  finishes before the next begins. `App.Reset` states this with
  `old(OffersResultActions())`.

## Model

| member | source | states |
|---|---|---|
| `Text.SkipLeading` | App.js:189 | The forward scan of `trim()` stops at the first character that is not whitespace, and everything it skips is whitespace. |
| `Text.SkipTrailing` | App.js:189 | The backward scan of `trim()` stops just after the last character that is not whitespace, and everything it skips is whitespace. |
| `Text.Trim` | App.js:189 | `trim()` is empty exactly when the name is all JavaScript whitespace or line terminators. Otherwise the trimmed name neither starts nor ends with whitespace. |
| `Text.TrimInfix` | App.js:189 | The trimmed name is a contiguous part of the name with only whitespace before and after it. |
| `Catalog.Pick` | App.js:123 | `Math.floor(u * n)` with `u` in [0, 1) is always a valid index in [0, n). |
| `Catalog.PickInterval` | App.js:123 | The draw selects index i exactly when `u` lies in [i/n, (i+1)/n), so every entry gets an equal share of [0, 1). |
| `Catalog.PickReachesEvery` | App.js:237 | Every index is the outcome of some draw, so no entry is unreachable. |
| `Catalog.RandomTemplate` | App.js:122-124 | `getRandomTemplate()` returns one of the 12 share-card templates. |
| `Catalog.RandomQuote` | App.js:237 | The quote drawn at completion is one of the 8 quotes. |
| `Catalog.RandomAffirmation` | App.js:244 | The affirmation drawn is one of the 6 affirmations. |
| `Catalog.MethodNamesDistinct` | App.js:319-321 | The 5 method names, used as button keys, are pairwise distinct. |
| `Progress.TickStep` | App.js:203-214 | One tick keeps progress an even value in [0, 100] and never lowers it. It fires the completion exactly when the value it finds is 100 or more. It pulses only on a multiple of 20, and never on the firing tick. |
| `Progress.TraceShape` | App.js:202-215 | Started at even p, the interval ticks (100-p)/2+1 times. Tick i starts from p+2i. Only the last tick fires the completion. |
| `Progress.Trace` | App.js:202-215 | The ticks the interval delivers from a starting value: at least one, the first being the tick from that value, and the last one firing the completion. |
| `Progress.RitualTick` | App.js:203-214 | Tick k of a ritual started at 0, for k below 50, leaves 2(k+1), pulses exactly when k is a multiple of 10, and does not fire. |
| `Progress.RitualRun` | App.js:202-215 | From 0: 50 ticks reach exactly 100 and never pass it. Tick 51 fires the completion, and it is the only tick that does. Light pulses come on the ticks that start at 0, 20, 40, 60 and 80, which is five in all. The shake threshold of 50 is passed from the 26th tick on. |
| `Dates.Digits` | App.js:119 | An integer prints as at least one decimal digit with no leading zero. |
| `Dates.DigitsRoundTrip` | App.js:119 | Reading the printed digits back gives the number. |
| `Dates.NumberText` | App.js:119 | A number prints with a leading minus exactly when it is negative. The rest is the decimal digits of its magnitude, and reading them back gives that magnitude. |
| `Dates.FormattedDate` | App.js:116-120 | The date text starts with the three-letter month name of `getMonth()` and a space. |
| `Dates.MonthNamesShape` | App.js:118 | There are 12 month names, all of three letters and pairwise distinct. |
| `Dates.NumberTextInjective` | App.js:119 | Different integers print as different text. |
| `Dates.FormattedDateInjective` | App.js:116-120 | Two different (month, day, year) triples never print the same date text. |
| `ExOrcism.TickHaptics` | App.js:204-212 | One tick asks for a light impact when it pulses and for the success notification when it fires, the notification last. |
| `ExOrcism.RitualHapticsLight` | App.js:210-212 | Up to the 50th tick a ritual asks only for light impacts, one every ten ticks from the first. |
| `ExOrcism.RitualHapticsWhole` | App.js:202-221 | The 51 ticks of a ritual ask for five light impacts and then the success notification. |
| `ExOrcism.App.NameBlank` | App.js:189 | `!exName.trim()` holds exactly when the name is all whitespace. |
| `ExOrcism.App.OffersMethod` | App.js:303-323 | The method buttons are on screen on the name stage once the name trims to something, one per method. |
| `ExOrcism.App.OffersResultActions` | App.js:364-422 | The affirmation and reset buttons are on screen on the result stage with a method selected, and on the affirmation stage. |
| `ExOrcism.App.Shaking` | App.js:165 | The shake loop runs on the ritual stage once progress passes 50. |
| `ExOrcism.ShakingFromTick26` | App.js:165-215 | During a ritual started at 0, the shake runs after tick k+1 exactly when k is 25 or more, that is from the 26th tick on. |
| `ExOrcism.App.constructor` | App.js:127-134 | The initial state: the name screen, empty name and texts, no method, progress 0, not sharing, the first template, no interval. This state is `Consistent`. |
| `ExOrcism.App.SetExName` | App.js:310 | Text entry changes the name and nothing else. |
| `ExOrcism.App.StartRitual` | App.js:188-197 | If the name trims to empty, no state changes and no haptic fires. Otherwise: a medium impact, the method stored, the ritual stage, progress 0, and the interval scheduled on entering the stage. Name, quote, affirmation and template are unchanged. Pressing a method button on the name screen keeps `Consistent`. |
| `ExOrcism.App.Tick` | App.js:203-214 | Progress, the pulse and firing follow `TickStep`, and the haptic requests are `TickHaptics` of that tick. Firing clears the interval and starts the completion. The count of callback runs goes up by one. No other field changes. |
| `ExOrcism.App.FinishRitual` | App.js:235-239 | The result stage, with a quote from the 8 and a template from the 12. The interval is gone. Name, method, affirmation and progress are unchanged. |
| `ExOrcism.App.GetPettyAffirmation` | App.js:242-246 | From any stage: a medium impact, then the affirmation stage with one of the 6 affirmations. Name, method, quote and template are unchanged. From the result or affirmation screen it keeps `Consistent`. |
| `ExOrcism.App.Reset` | App.js:282-289 | From any stage: the name stage, with name, method, quote and affirmation cleared and progress 0. The template, the sharing flag and a fade-out under way are untouched. |
| `ExOrcism.App.RunInterval` | App.js:200-218 | From progress 0 the interval callback runs exactly 51 times (the count of `Tick` calls) and then stops, with progress 100 and the completion under way. The haptics are five light impacts followed by one success notification. Nothing else changes. The values progress takes on those ticks, and the shake start on the 26th, are proved over the same ticks by `Progress.RitualRun` and `ShakingFromTick26`. |
| `ExOrcism.NoDeadEnd` | App.js:303-424 | In a `Consistent` state one of these can always move the app on: the name screen, the interval, the fade-out, or the result and affirmation buttons. |
| `Scenarios.BurnItRitual` | App.js:188-239 | Name "Jordan" with "Burn It": after 51 runs of the interval callback the result stage shows the Burn It method and a quote from the list. The haptics are medium, five light, success. |
| `Scenarios.WhitespaceName` | App.js:189 | A name of spaces: choosing a method leaves the name stage, no method and no interval. |
| `Scenarios.ResetMidRitual` | App.js:282-289 | A reset at progress 40 leaves progress 0, no interval and no completion under way, so no completion can arrive later. |
| `Scenarios.TwoAffirmations` | App.js:242-246 | "Get Petty Affirmation" and then "Another One" each show one of the 6 affirmations. The name, method and quote stay. |

## Left out

- Rendering and styles (App.js:291-671) are presentation. Only the render conditions that gate the buttons are kept, as `OffersMethod` and `OffersResultActions`. The upper-cased name on the share card is left out.
- The float, shake, fade and scale animations (App.js:146-186, 195-196, 224-234) are timed floating-point values. Only the shake condition (`Shaking`) is kept. The end of the fade is the `FinishRitual` call.
- `shareResult` (App.js:248-280) calls the sharing, view-capture and alert libraries. It never changes the stage, and it is the only writer of `isSharing`.
- Haptic calls (App.js:191, 211, 221, 243, 251) are device calls. They appear only as entries in the ghost `haptics` log. The model assumes every haptic request succeeds. In the source, a rejected request at App.js:191 or App.js:243 stops that transition, and a rejected one at App.js:221 means the fade never starts, so the ritual stays at 100.
- `Math.random()` is a parameter: a fraction `num / den` in [0, 1). The 53-bit granularity of a JavaScript double is not modelled.
- `setInterval`, its 50 ms cadence, and React's effect scheduling and state batching are not modelled. Each tick is an explicit `Tick` call. A state update and the effect it triggers happen in one method.
- The awaits before state updates are not modelled. Each operation happens as one atomic step, so no other event can arrive during an await. In the source, "Exorcise Another" can be pressed while `getPettyAffirmation` waits on its haptic call (App.js:243-245, 403). The affirmation stage then shows with the name, method and quote cleared. That state is not `Consistent`, and the model does not reach it.
- `new Date()` (App.js:117) is not read. Month, day and year are parameters.
- Strings are sequences of Unicode code points, where JavaScript strings are UTF-16 code units. A name holding a lone surrogate cannot be represented. This does not change what `trim()` decides, since every whitespace character is a single code unit.

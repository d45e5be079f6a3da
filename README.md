# Animation playground: counter, random range and progress driver

A model of the logic inside the playground's `script.js`, the script of a
browser demo of CSS transitions and animations. Almost all of that script writes
classes and styles to the page. Three small pieces compute something and are
modelled here:

- **Random range** (`random_range.dfy`, module `RandomRange`):
  `getRandomNumber(min, max)` is `Math.floor(Math.random() * (max - min + 1)) + min`.
  The model replaces the floating-point draw by the integer `k` it floors to.
  `IsDraw(n, k)` says which integers `Math.floor(u * n)` can give for `u` in [0, 1).
  The result is `min + k`. For `min <= max` this gives every value of [min, max],
  each from exactly one draw. The script never checks `min <= max`.
  `createParticles` passes `window.innerWidth - 20` as `max`, so on a narrow window
  `min > max` does happen. The model keeps that case: the result then lies in
  (max, min]. `calculateRandomIncrement` and the particle count are the same
  helper with (1, 10) and (5, 15).
- **Counter** (`counter.dfy`, module `Counter`): the global integer
  `globalCounter`, as class `Cell`. `Update(change)` adds `change`. It returns the
  colour the script paints, green exactly when `validatePositiveNumber` holds of the
  new value and red otherwise. It also returns the logged message
  `Counter increased by N` or `Counter decreased by N`. `Reset()` sets the value to
  zero and chooses the neutral colour. The decimal rendering of `N` is in
  `decimal.dfy` (module `Decimal`), together with the reader that inverts it.
- **Progress driver** (`progress.dfy`, module `Progress`): `startProgressAnimation`
  and the callback of its interval, as class `Driver`. Timers are interval ids:
  - `handle` is the global `progressInterval`.
  - `live` holds the intervals not yet cleared.
  - `Start()` is a call of the start function.
  - `Fire(h, k)` is the browser firing interval `h`, with `k` the draw of
    `getRandomNumber(1, 5)`.
  - Ghost fields record the increments the current stream has added (`applied`)
    and every width written to the bar (`rendered`).

  The pure functions `Advance` (one firing) and `Replay` (a whole stream) specify
  the driver. The lemmas about them give the bounds:
  - progress stays in [0, 100];
  - every firing below 100 strictly increases progress;
  - a stream fires at most 100 times;
  - drawing five every time fills the bar on exactly the twentieth firing.

  `Driver.Valid()` is kept by every method. It says:
  - at most one interval is ever live, the one the handle names;
  - the live stream fired only while below 100;
  - the stream is live exactly while progress is below 100;
  - every width written lies in [0, 100], and the last one is the current progress.

`script.js` has no cancel operation: apart from a new start, completion
(script.js:163-166) is the only thing that clears an interval.

## Model

| member | source | states |
|---|---|---|
| RandomRange.RandomNumber | script.js:13-17 | the result lies in [min, max] when min <= max, and in (max, min] for a reversed range |
| RandomRange.DrawFor | script.js:15 | every value in range is produced by a draw, and by exactly one draw, so for min <= max a uniform draw gives a uniform value |
| RandomRange.Reachable | script.js:13-17 | a value can be returned exactly when it lies in range (both directions) |
| RandomRange.SingletonRange | script.js:15 | a one-value range such as (5, 5) always yields that value |
| RandomRange.RandomIncrement | script.js:23-28 | `calculateRandomIncrement` returns a value in [1, 10] |
| RandomRange.ParticleCount | script.js:108 | the particle count lies in [5, 15] |
| Decimal.NatToString | script.js:51 | the rendering of a magnitude is non-empty, all digits, and starts with '0' only for zero |
| Decimal.DigitsValueOfRendering | script.js:51 | the digits of a rendering denote the number rendered |
| Decimal.ReadNat | script.js:51 | whatever the reader accepts is the rendering of the number it returns, so reading is the inverse of rendering in this direction too |
| Decimal.RenderingOfDigits | script.js:51 | a canonical numeral is exactly the rendering of the number it denotes |
| Decimal.ReadNatToString | script.js:51 | reading a rendering back gives the number rendered |
| Decimal.NatToStringInjective | script.js:51 | two magnitudes render the same exactly when they are equal |
| Counter.Css | script.js:45-71 | each colour choice (green and red at lines 45 and 47, the neutral reset colour at line 71) writes a CSS hex colour: '#' followed by six lower-case hex digits |
| Counter.Abs | script.js:51 | the result is the non-negative one of x and -x |
| Counter.ChangeMessage | script.js:51 | the message is longer than its fixed prefix; what it says is stated by MessageMeaning |
| Counter.MessageMeaning | script.js:51 | the message reads "increased" exactly when change > 0 and gives the magnitude of change |
| Counter.ChangeMessageInjective | script.js:51 | two changes log the same message exactly when they are equal |
| Counter.ZeroChangeReadsDecreased | script.js:51 | a change of 0 logs "Counter decreased by 0" |
| Counter.Cell.constructor | script.js:4 | the counter starts at 0 |
| Counter.Cell.Update | script.js:34-62 | the value becomes old value + change; the colour is green exactly when the new value is > 0 (validatePositiveNumber, lines 60-62, via `IsPositive` and `ValueColor`, lines 43-48) and red exactly when it is <= 0, so zero is painted red; the message is `ChangeMessage(change)` |
| Counter.Cell.Reset | script.js:67-72 | the value becomes 0 and the neutral colour is chosen |
| Progress.Advance | script.js:161-166 | one firing never takes progress above 100, and never below 0 from non-negative values |
| Progress.AdvanceStep | script.js:161-166 | below 100, a firing with an increment in [1, 5] strictly increases progress by at most the increment, adds all of it unless it clamps, and clamps to exactly 100 iff the sum reaches 100 |
| Progress.Replay | script.js:149-166 | a stream's progress starts at 0 and stays in [0, 100] |
| Progress.ReplayAtLeastTicks | script.js:160-166 | after n firings progress is at least n, or 100 |
| Progress.ReplayAtMostFivePerTick | script.js:161 | after n firings progress is at most 5 n |
| Progress.StreamBound | script.js:160-166 | a stream that fires only below 100 fires at most 100 times |
| Progress.ReplayFives | script.js:160-166 | drawing five every time, progress after n firings is 5 n clamped at 100 |
| Progress.FivesFillOnTwentiethTick | script.js:160-166 | drawing five every time, the first 20 firings happen below 100 and the twentieth fills the bar |
| Progress.Increments | script.js:161 | each draw of getRandomNumber(1, 5) gives an increment in [1, 5] |
| Progress.Driver.constructor | script.js:5 | at load no interval exists, progress is 0 and nothing has been written |
| Progress.Driver.Start | script.js:147-160 | the previous interval is cleared, a fresh interval becomes the only live one, progress is 0 and 0% is written |
| Progress.Driver.Fire | script.js:160-170 | a cleared interval never fires; a live one adds its draw, clamps at 100 and clears itself there, writes progress as the width, and keeps the driver invariant |
| Progress.RunInterval | script.js:160-170 | firing with a sequence of draws applies their increments in order, and stops early only when the bar is full |
| Progress.FillWithFives | script.js:147-171 | after a start with every draw five, the stream stops after exactly 20 firings at 100, and a 21st firing does nothing |
| Progress.RestartReplacesStream | script.js:147-166 | starting again while running replaces the stream: the old interval no longer fires and the new one advances from 0 |

## Left out

- Page effects: element lookups, `textContent`, `style.*` writes and class toggles. This covers `handleButtonClick`, `toggleSpinner`, `showModal`/`hideModal`, `flipCard`/`checkFlippedState` and `animateSection`. The colour of the counter and the width of the bar are kept, as returned values and a ghost log.
- `createParticles` element creation and placement: they depend on the window size and on timers. Only the particle count is modelled.
- Wall-clock timing of `setTimeout`/`setInterval` (100 ms, 600 ms, 3000 ms): an interval is an id that is live or cleared, and a firing is an explicit call.
- `Math.random` and floating point: the draw is the integer it floors to. Rounding of `u * n` for spans past 2^53 is not modelled.
- JavaScript numbers are doubles, but the counter is an unbounded integer. Fractional changes, rounding of large sums and exponent notation (magnitudes of 10^21 and more) are not modelled.
- `console.log` output and the event listeners for Escape and page load. The text of the counter's log message is modelled.
- Progress.Driver: each interval's callback has its own `progress` variable, but the model keeps only the current stream's. A cleared interval never fires again, so the others are never read.

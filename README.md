# Typewriter flag widget — a Dafny model

This project models the behaviour of the single-page CTF flag widget in
`src/App.tsx`. The widget fetches a short text (the flag) and reveals it one
character every 500 ms. A JavaScript string is a sequence of UTF-16 code
units, and `length`, `substring` and `===` count and compare code units. So
the model's strings are sequences of code units (`JsString`), and a
"character" here is one code unit.

- `typewriter.dfy`, module `UseTypewriter`, models the `useTypewriter` hook.
  The hook holds a target string `base` and a displayed string `display`.
  Whenever `base` changes, its effect clears the old interval, resets the
  display to `""` and starts a repeating interval. Each interval callback
  sets the display to `base.substring(0, display.length + 1)` and clears the
  interval once the display equals `base`.
  - The pure part is the reveal cycle. `Step` is one interval period and
    `Run(base, n)` is the state after `n` periods. `RunClosedForm` gives
    `Run` in closed form, and the other lemmas follow from it.
  - The class `Typewriter` holds the hook's state (`base`, `display`,
    whether the interval is alive, whether the component is mounted). Its
    methods `SetBase`, `Tick`, `Unmount` and `Read` keep the invariant
    `Valid()`, which says the state equals `Run(base, ticks)` for the ghost
    count `ticks` of periods since the last reset.
- `app.dfy`, module `AppComponent`, models the `App` component.
  - The request status `"loading" | "done" | "failed"` is the datatype `Status`.
  - The two outcomes of the fetch are the methods `OnFetchSuccess(text)` and
    `OnFetchFailure()`.
  - The render choice between `Loading...` and the live display is `Rendered`
    and `App.View`.

Time is a count of ticks. Tick `k` is the interval callback that fires
`k * 500` ms after the effect started. The 500 is the constant
`TYPEWRITER_TIME_PER_KEY`, modelled as `TimePerKey`.

The model follows the code at these points, where an idealised reading of the widget would differ:

- **Empty target.** The code still starts an interval for an empty `base`.
  Its first tick computes `""`, finds it equal to `base` and clears the
  interval. So an empty target settles after one tick, not zero
  (`TicksToSettle`).
- **Status is not terminal.** The fetch effect in `App` has no dependency
  list, so it runs again after every render. A later outcome can therefore
  move the status again. The model allows either outcome from any status
  and claims no terminality.
- **Same text again.** The effect depends on `[base]`. Setting `base` to the
  value it already has does not re-run the effect. So `SetBase` with the
  current value, and `OnFetchSuccess` with the current flag, leave the reveal
  where it is.
- **HTTP errors.** A non-2xx response is not a failure in the code. `fetch`
  resolves and its body becomes the flag. Only a rejected request or a
  rejected body read reaches the `catch` and sets `"failed"`.
- **Completion time.** The full target of length n is shown at n * 500 ms
  (`RevealSchedule`), not at (n - 1) * 500 ms.

## Model

| member | source | states |
|---|---|---|
| `UseTypewriter.EncodeScalar` | src/App.tsx:43 | the fetched body becomes a JavaScript string of UTF-16 code units: one unit for a character inside the Basic Multilingual Plane, a high/low surrogate pair that decodes back to the character outside it |
| `UseTypewriter.Substring` | src/App.tsx:22 | JavaScript `substring(0, end)` yields a prefix of the string whose length in code units is `end` clamped to the string's length |
| `UseTypewriter.Step` | src/App.tsx:21-28 | a cleared interval changes nothing; a live tick keeps the display a prefix of `base`, grows a strict prefix by exactly one character, and leaves the interval alive exactly when the display still differs from `base` |
| `UseTypewriter.Run` | src/App.tsx:21-28 | n periods of the interval callback from the reset state; its own contract states only that the display stays a prefix of `base`, and `RunClosedForm` carries the full property |
| `UseTypewriter.RunClosedForm` | src/App.tsx:17-28 | after n ticks from a reset the display is the first min(n, \|base\|) characters of `base`, and the interval is alive exactly while n < max(1, \|base\|) |
| `UseTypewriter.SettlesAfterExactly` | src/App.tsx:19-27 | the interval stays alive for the first max(1, \|base\|) ticks, and tick number max(1, \|base\|) leaves `display == base` with the interval cleared (one tick producing `""` for an empty base) |
| `UseTypewriter.NothingChangesAfterSettling` | src/App.tsx:25-27 | once the interval has cleared itself, no later tick changes the display or restarts the interval |
| `UseTypewriter.DisplayGrows` | src/App.tsx:22 | an earlier display is always a prefix of a later one, and the display grows by at most one character per tick |
| `UseTypewriter.AstralCharTakesTwoTicks` | src/App.tsx:22-27 | a character outside the Basic Multilingual Plane takes two ticks: the first shows its lone high surrogate with the interval still alive, the second shows the whole character and clears the interval |
| `UseTypewriter.RevealSchedule` | src/App.tsx:21-28 | at time ms the display is the first ms / 500 characters of `base`; it equals `base` exactly from \|base\| * 500 ms on; the interval is cleared exactly from max(1, \|base\|) * 500 ms on |
| `UseTypewriter.Typewriter.constructor` | src/App.tsx:13-21 | mounting the hook sets `base` to the initial value and the display to `""`, and starts an interval even for an empty initial value |
| `UseTypewriter.Typewriter.SetBase` | src/App.tsx:17-31 | a new value clears the old interval, resets the display to `""` and starts a fresh interval with no progress carried over; the current value again, or any value after unmounting, changes nothing |
| `UseTypewriter.Typewriter.Tick` | src/App.tsx:21-28 | the new state is `Step` of the old one: `base` unchanged, the display a prefix of `base` growing by exactly one character while it differs from `base`, the interval cleared exactly when the display reaches `base`, and nothing changed once cleared |
| `UseTypewriter.Typewriter.Unmount` | src/App.tsx:30 | the effect's cleanup clears the interval and leaves `base` and the display as they were |
| `UseTypewriter.Typewriter.Read` | src/App.tsx:33 | the hook returns the display together with the unchanged `base`; the display is a prefix of `base` of length min(ticks, \|base\|) |
| `AppComponent.App.constructor` | src/App.tsx:37-38 | the status starts as `"loading"` and the typewriter starts over `""` with a live interval |
| `AppComponent.App.OnFetchSuccess` | src/App.tsx:42-45 | the fetched text is handed to the typewriter first and then the status becomes `"done"`; a new text restarts the reveal from `""`, the current text leaves the reveal as it was |
| `AppComponent.App.OnFetchFailure` | src/App.tsx:46-48 | a rejection sets the status to `"failed"` and leaves the typewriter, and so its `base`, untouched |
| `AppComponent.App.View` | src/App.tsx:51-56 | while the status is `"loading"` the widget shows `Loading...`; otherwise it shows the current display, a prefix of the flag of length min(ticks, \|flag\|) |
| `AppComponent.Rendered` | src/App.tsx:52-55 | the render choice between `Loading...` and the current display; it has no contract of its own, and `RenderedIsLoadingOrPrefix` and `App.View` carry its properties |
| `AppComponent.RenderedIsLoadingOrPrefix` | src/App.tsx:52-55 | the rendered text is `Loading...` while loading and otherwise exactly the first n characters of the target after n ticks |

## Left out

- The `fetch` call, its URL and `req.text()` are network I/O. Their outcome is an input: a call to `OnFetchSuccess(text)` or `OnFetchFailure()`.
- React's rendering and scheduling are left out: `useState`/`useEffect` ordering, batching of the two state updates in the success callback, and re-renders. `OnFetchSuccess` performs the two updates in source order. A render between them, which would still show `Loading...`, is not observable in the model.
- The fetch effect re-runs on every render, and so re-fetches after every tick. The model does not generate these extra fetches. Any sequence of outcome calls is allowed instead.
- `setInterval` wall-clock timing and drift are left out. Time is the discrete tick count, with tick k at exactly k * 500 ms.
- `UseTypewriter.Typewriter.Read`: the prefix invariant holds at every method boundary, not at the render between `setBase` and its effect. React renders once with the new `base` and the old display before the effect resets the display to `""`. After a re-fetch that returns a different text, that render shows a prefix of the old text with status `"done"`. The model's `SetBase` performs the state change and the effect as one step, so that intermediate render is not modelled.
- The hook's local `_display` and the React state `display` are one field. The callback always writes the local value to the state right after computing it.
- `AppComponent.App.View`: the source renders `Loading...` exactly while loading. The contract does not claim the converse as a string equality, because a fetched flag whose revealed prefix is the text `Loading...` would render the same string.
- JSX output beyond the choice of the paragraph's text is left out.
- The commented-out DOM-scraping script at the end of the file is commentary, not code, and is not modelled.

# Race-start page effects, modelled in Dafny

`script.js` drives three effects on a single-page birthday site with a racing theme:

- **Start sequence.** A click on the start flag shows an overlay and mutes the background track. A one-second interval then lights the five light units of a start gantry, one unit per tick, with a beep on each. The tick after the fifth clears the interval and arms a timeout. Its length is random, drawn from [500, 2000) ms. When the timeout fires, every bulb goes out at once ("lights out"). The same callback starts a synthesised engine sound, restarts and unmutes the track, removes the page's scroll lock, hides the overlay and smooth-scrolls to the `#vibe` section.
- **Scroll progress.** A race-car icon follows the scroll position. It is placed at `10 + 80 * scrollY / (scrollHeight - innerHeight)` vh.
- **Reveal on scroll.** Each content box starts transparent and offset. Even-indexed boxes sit to the left and odd-indexed boxes to the right. An IntersectionObserver puts each box into its resting style when it comes into view.

The project has three modules, one per effect:

- `start_sequence.dfy` (module `StartSequence`) is imperative, like the source. `Page` holds the state that every run shares: the bulbs of each light unit, the overlay, the scroll lock, the optional `AudioElement` and counters of the effects issued (audio contexts, beeps, engine sounds, smooth scrolls). Each click creates its own `Run`, which holds what the click handler's closure holds: the `activeLight` counter, the interval and the timeout. The two timer callbacks are the methods `Run.Tick` and `Run.Fire`. The methods are proved against the pure functions `LitUnit`, `LightsOff`, `Countdown` and `SuspenseDelay`, and the lemmas are stated about those functions. `UninterruptedRun` composes a click with the timer events the browser delivers when nothing else happens: six ticks, then the timeout.
- `scroll_progress.dfy` (module `ScrollProgress`) is the scroll handler's formula over `real`.
- `reveal.dfy` (module `Reveal`) has the pure style choices. It also has the two loops of the source as array methods: the setup loop and the observer callback.

Where the code and its comments disagree, or where the code does less than a reader might expect, the model follows the code:

- The interval is cleared on its **sixth** tick, the first tick that finds `activeLight == 5`. So lights out comes at 6000 ms plus the delay, one full cadence after the fifth unit lights (`LightsOutMs`, `UninterruptedRun`).
- The delay is `r * 1500 + 500`, which lies in [500, 2000) ms. The comment at script.js:172 says "0.2s - 1.5s"; that comment is stale.
- The click creates a **new** AudioContext every time (`Page.audioContexts` goes up by one per click). Nothing reuses it.
- The click does **not** reset the bulbs. Nothing guards against a second click either: each click gets an independent `Run` that shares the `Page`.

## Model

| member | source | states |
|---|---|---|
| `ScrollProgress.CarPosition` | script.js:13-28 | The car's top is a vh length exactly when the scrollable extent is non-zero. With a zero extent the JavaScript division gives NaN or an infinity, which the style write rejects. |
| `ScrollProgress.CarAtStart` | script.js:15-26 | At scroll offset 0 the car is at 10 vh. |
| `ScrollProgress.CarAtEnd` | script.js:15-26 | Scrolled by the whole extent, the car is at 90 vh. |
| `ScrollProgress.CarHalfway` | script.js:15-26 | At half the extent, the car is at 50 vh. |
| `ScrollProgress.CarMonotone` | script.js:15-26 | With a positive extent, scrolling further down never moves the car up. |
| `ScrollProgress.CarWithinBand` | script.js:15-26 | For `0 <= scrollY <= docHeight` the car stays within [10, 90] vh. |
| `ScrollProgress.CarProgressRecovered` | script.js:15-26 | The car's offset into the band, divided by 80, is the scrolled fraction `scrollY / docHeight`. |
| `Reveal.InitialStyle` | script.js:62-72 | The initial style has opacity "0" and the 0.8 s eased transition. Its transform is the left slide exactly for even indices and the right slide exactly for odd indices. It is never the resting style. |
| `Reveal.InitialStylesAlternate` | script.js:68-72 | Neighbouring boxes slide in from opposite sides, and the pattern repeats with period two. |
| `Reveal.OnEntry` | script.js:52-55 | An intersecting entry gets opacity "1" and the resting transform, and keeps its transition. A non-intersecting entry is left unchanged. |
| `Reveal.OnEntryIdempotent` | script.js:52-55 | Applying the update twice is the same as applying it once. |
| `Reveal.RestingIsFinal` | script.js:50-56 | A revealed box stays revealed, whatever later entries report. |
| `Reveal.Notified` | script.js:50-56 | Handling a batch of entries keeps the number of elements. |
| `Reveal.NotifiedAt` | script.js:50-56 | After a batch, each element reported as intersecting by some entry is in its resting style. Every other element is exactly as before. |
| `Reveal.NotifiedIdempotent` | script.js:50-56 | Replaying the same batch of entries changes nothing. |
| `Reveal.RevealedIffSeen` | script.js:50-75 | After setup and any batch, a box is revealed if and only if some entry reported it as intersecting. A box never reported keeps its initial style. |
| `Reveal.InitialStyles` | script.js:62-75 | The styles right after setup: one per content box, box `i` having `InitialStyle(i)`. |
| `Reveal.Prepare` | script.js:62-75 | The setup loop gives element `i` exactly `InitialStyle(i)`, so the array equals `InitialStyles` of its length. |
| `Reveal.Observe` | script.js:50-57 | The observer callback updates the element array in place to `Notified` of its old contents. |
| `Reveal.SetUpAndObserve` | script.js:50-75 | After the setup loop and one observer callback, box `i` is revealed if and only if some entry reported it as intersecting; a box not reported keeps its initial style. |
| `StartSequence.LitUnit` | script.js:159-163 | Lighting unit `u` turns on every bulb of `u`. Every other unit is unchanged, and the shape is kept. |
| `StartSequence.LightsOff` | script.js:177 | Lights out leaves no bulb on and keeps the shape. |
| `StartSequence.Countdown` | script.js:155-168 | The lighting ticks of one run keep the shape of the gantry. |
| `StartSequence.CountdownAt` | script.js:158-168 | After `n` lighting ticks, units `0..n-1` are fully lit and every other unit is as it was, which may already be lit, since a click does not reset the bulbs. So the units light in index order, one per tick. |
| `StartSequence.CountdownFromDark` | script.js:158-168 | From a dark gantry whose units each have a bulb, the fully lit units after `n` lighting ticks are exactly units `0..n-1`. |
| `StartSequence.CountdownGrows` | script.js:158-168 | No bulb is turned off while the units are being lit. |
| `StartSequence.SuspenseDelay` | script.js:173 | For `r` in [0, 1), the delay lies in [500, 2000) ms. |
| `StartSequence.SuspenseDelayCovers` | script.js:173 | Every delay in [500, 2000) ms comes from some `r` in [0, 1). |
| `StartSequence.LightsOutMs` | script.js:158-175 | With five units, lights out comes between 6500 and 8000 ms after the click: six 1000 ms ticks, then the delay. |
| `StartSequence.Page.Click` | script.js:85-98 | A click shows the overlay and mutes the track (volume 0, one more play request) when the track exists. It creates one more AudioContext and returns a fresh run with `activeLight == 0` and only the interval live. Bulbs, scroll lock and the other counters are unchanged. |
| `StartSequence.Page.LightUnit` | script.js:161-163 | The bulb loop leaves the bulbs equal to `LitUnit` of the old bulbs. Nothing else changes. |
| `StartSequence.Page.AllLightsOut` | script.js:177 | The bulb loop leaves the bulbs equal to `LightsOff` of the old bulbs. Nothing else changes. |
| `StartSequence.Run.constructor` | script.js:155-158 | A run starts with the counter at 0, the interval live and no timeout. |
| `StartSequence.Run.Tick` | script.js:158-204 | While `activeLight < 5`, a tick lights exactly unit `activeLight`, beeps once and increments the counter. If that unit does not exist, the tick throws and changes nothing. The first tick with `activeLight == 5` clears the interval and arms the timeout with `SuspenseDelay(r)`. Overlay, scroll lock, audio and engine are untouched. `Valid` keeps `activeLight <= 5` and allows at most one live timer. |
| `StartSequence.Run.Fire` | script.js:175-202 | A ghost field records the bulbs as lights out finds them. The timeout fires only after all five units were lit and more than five ticks have passed. It turns every bulb off and starts the engine once, in the same step. When the track exists, it sets the track's time to 0 and its volume to 0.5. It clears the scroll lock, hides the overlay and requests one scroll when `#vibe` exists. |
| `StartSequence.UninterruptedRun` | script.js:85-205 | One click plus its timer events, with no second click. Exactly five beeps are issued. The run's record of the bulbs as lights out found them equals `Countdown(old, 5)`, and each of units 0-4 is fully lit in it. Lights out comes at `LightsOutMs(r)`. Afterwards no bulb is on, the engine has started once, scrolling is unlocked, the overlay is hidden and the track is at time 0 and volume 0.5. |

## Left out

- Web Audio synthesis (script.js:98-152): the beep oscillator, the noise buffer, the filter and gain ramps, and the timed stop. These are floating-point signal processing on platform objects. Each effect is kept only as a counter of effects issued (`beeps`, `engineStarts`, `audioContexts`).
- The white-noise fill and `Math.random()` in general. Randomness is the parameter `r`, with `0 <= r < 1`.
- The real-time scheduling of `setInterval` and `setTimeout`. Timer firings are the explicit events `Run.Tick` and `Run.Fire`, and elapsed time is a ghost counter advanced by those events.
- The promise returned by `audio.play()` and its rejection. Only the request is counted. The smooth scroll is likewise a counter of scroll requests.
- Interleavings of several runs. Each click gets its own `Run` over the shared `Page`, so overlapping runs can be expressed step by step. End-to-end ordering is proved only for a single uninterrupted run (`UninterruptedRun`), because with two runs one run's lights out can clear the other run's lit units. No mutual exclusion is claimed.
- DOM querying, listener registration, `history.scrollRestoration` and the initial scroll to the top (script.js:1-13, 60, 74, 78-85). Elements are plain fields, sequences and arrays. The observer's registration and its 0.2 visibility threshold are platform behaviour: an entry's `isIntersecting` is taken as given.
- The click handler exists only when both the start flag and the overlay exist (script.js:83). The model covers that case only.
- Bulbs with the `light-bulb` class outside any light unit. Lights out clears every bulb of the document; the model's document bulbs are those of the light units.
- The confetti button and loading the confetti library from a CDN (script.js:33-47). This is a foreign library call and network I/O.
- The unused `trackContainer` and `maxMove` (script.js:11, 21), and the `cursor` style set on the flag (script.js:84).
- ScrollProgress.CarProgressRecovered: the scroll formula is computed over `real`. The rounding of JavaScript doubles (script.js:17, 26) is not modelled, so this round trip holds only in exact arithmetic; with doubles the recovered fraction can differ from `scrollY / docHeight` in the last bit.

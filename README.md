# Ibonarium lab: state evolution engine

A model of the lab's state engine in `app.js`. The lab keeps one shared record of six numeric layers: time, cosmos, geo, bio, social and meta. It changes that record in two ways:

- a fast tick (`evolveState`) rewrites three derived fields and now and then writes a line;
- a slow sync (`fetchData`) merges weather and market readings and a simulated solar flux.

Both write to a terminal that keeps the 20 most recent timestamped lines.

Files and modules:

- `layers.dfy`, module `Layers`: the record as datatypes, the load-time defaults, the three coupling formulas, and `Evolved`, the state effect of one tick, with the lemmas about it.
- `terminal.dfy`, module `Terminal`: log lines, `Logged` (one append with eviction of the oldest line), and lemmas about any run of appends.
- `sync.dfy`, module `Sync`: the network replies as inputs, the per-group merges, and `Synced`, the whole sync with its stop-at-first-failure handler. `SyncLines` is an independent list of the lines a sync writes.
- `app.dfy`, module `App`: class `IbonariumLab`. It holds the six groups and the terminal as fields. Its methods `Log`, `EvolveState` and `FetchData` assign those fields one after another, as the source does. `FetchData`'s three steps are the methods `MergeWeather`, `MergeMarket` and `AlignCosmos`. A failed request makes `FetchData` write the error line and return before the next step. Each method's `modifies` clause names exactly the fields it writes. Each method is proved against the pure function of the same operation.

Inputs the source takes from the environment are parameters:

- every `Math.random()` draw is a real `r` with `0 <= r < 1`;
- every `new Date()` at a log call is an opaque `Stamp`;
- each network request is a `Reply`. `Rejected` means the request or the decoding of its body threw, or the body decoded to `null`, so that reading its member threw. `Resolved(None)` means the decoded body's `current` or `bitcoin` member is absent or falsy (app.js:81, app.js:91 test truthiness), so the merge is skipped.

What the code does, and so what the model does:

- `evolveState` (app.js:122-133) has no solar-flux jitter and no clamping. It uses the weights 0.4 and 0.3 for harmony, derives the growth rate from the harmony it has just written, and logs only when the draw exceeds 0.995.
- One `try` wraps all three sync steps (app.js:76-105). A failed weather request therefore skips the market and cosmos steps. A failed market request keeps the geo merge already done, and its line. Either failure writes exactly one error line.
- `cosmos.solarFlux` and `geo.magneticStress` are never clamped. `magneticStress` is never written after load.
- The record `IBONARIUM_STATE` is a module-level object (app.js:6) that the renderer also reads. The page creates exactly one lab (app.js:198-199), so the model holds the record as fields of that one lab.

## Model

| member | source | states |
|---|---|---|
| Layers.Entropy | app.js:124 | for anxiety in [0,1], entropy lies in [0.04,0.14] |
| Layers.Harmony | app.js:125 | for anxiety and stability index in [0,1], harmony lies in [0.3,1] |
| Layers.GrowthRate | app.js:127-128 | for harmony in [0.3,1], growth rate lies in [1.15,1.5] |
| Layers.Evolved | app.js:122-128 | after a tick, entropy, harmony and growth rate agree with the formulas. Growth rate uses the harmony written in the same tick. Every other field is unchanged, anxiety and stability index included. Inputs in [0,1] give harmony in [0.3,1] and growth rate in [1.15,1.5] |
| Layers.EvolvedFixpoint | app.js:122-128 | a tick leaves the record unchanged exactly when its derived fields already agree with the formulas |
| Layers.EvolvedIdempotent | app.js:122-128 | two ticks with nothing in between give the same record as one |
| Layers.EvolvedUnique | app.js:122-128 | a tick's result is the only record that agrees with the formulas and keeps all non-derived fields |
| Layers.DefaultsBounded | app.js:6-37 | about the constant `Layers.Defaults`, which holds the 18 load-time values of app.js:6-37: the load-time record has its derived fields in range but disagrees with the formulas. The first tick gives entropy 0.06, harmony 0.896 and growth rate 1.448 |
| Terminal.Logged | app.js:59-66 | the new line goes last. Below 20 lines the log grows by one. At 20 or more, exactly the oldest line goes and the rest keep their order. A log within 20 lines stays within 20 |
| Terminal.LogAllKeepsRecent | app.js:59-66 | from a log of at most 20 lines, any run of appends leaves exactly the last 20 lines of old log plus new lines, in order |
| Terminal.TwentyFiveLines | app.js:63-66 | 25 appends to an empty log leave the 6th to 25th lines, in order |
| Sync.MergeGeo | app.js:81-83 | the weather sets the thermal gradient to the temperature and turbulence to wind speed / 50. Magnetic stress is kept |
| Sync.Anxiety | app.js:92-93 | anxiety lies in [0,1]. It is 1 exactly when the absolute change is 10 or more; otherwise it is a tenth of the absolute change |
| Sync.Connectivity | app.js:94 | for a draw in [0,1), connectivity lies in [0.8,1.0) |
| Sync.SolarFlux | app.js:99 | for a draw in [0,1), solar flux lies in [140,160) |
| Sync.MergeSocial | app.js:91-94 | a market record sets anxiety to the capped tenth of the absolute change, in [0,1], and connectivity to 0.8 + 0.2r, in [0.8,1). Migration is kept |
| Sync.Synced | app.js:75-106 | a sync never changes time, bio or meta. Geo is merged exactly when the weather reply has a record. Social is merged exactly when the weather request did not fail and the market reply has a record. When neither request failed, the flux becomes 140 + 20·rFlux, in [140,160), and the other cosmos fields are kept; otherwise cosmos is unchanged. A failed weather request leaves the record unchanged. Unit-range inputs and the derived ranges are preserved |
| Sync.GeoStep | app.js:81-85 | only geo and the terminal change. Without a `current` record nothing changes. With one, geo is merged and the geo line reporting the temperature is logged |
| Sync.SocialStep | app.js:91-96 | only social and the terminal change. Without a `bitcoin` record nothing changes. With one, social is merged and the line reporting the new anxiety is logged |
| Sync.CosmosStep | app.js:99-100 | only the solar flux changes, to 140 + 20r in [140,160), and the cosmos line is logged |
| Sync.Failure | app.js:102-103 | the handler keeps the record as it is and logs the error line, which ends up last. A log within 20 lines stays within 20 |
| Sync.SyncLines | app.js:84-103 | the lines a sync writes, from the log calls at app.js:84, 95, 100 and 103: one to three lines. Only the last can be the error or cosmos line; the others are geo or social lines |
| Sync.MarketScenario | app.js:91-93 | a market change of 20 or -20 percent gives anxiety exactly 1 |
| Sync.SyncLinesFailures | app.js:76-105 | a sync writes exactly one error line, as its last line, when a request fails. When both requests succeed it writes none and its last line is the cosmos line |
| Sync.SyncedLog | app.js:75-105 | the terminal after a sync is the old terminal with the sync's lines appended one by one through the bounded log |
| App.IbonariumLab.constructor | app.js:39-57 | start-up: the record at its defaults and the two start-up lines, in order |
| App.IbonariumLab.Log | app.js:59-68 | the terminal becomes the bounded append of the stamped line. Nothing else changes. Capacity is preserved |
| App.IbonariumLab.EvolveState | app.js:122-133 | the record becomes the one-tick result. The terminal gains the new-harmony line only when the draw exceeds 0.995, and is unchanged otherwise. Only time, meta, bio and the terminal may be written |
| App.IbonariumLab.MergeWeather | app.js:81-85 | a `current` record sets thermal gradient and turbulence and appends the geo line. Without one, nothing changes. Only geo and the terminal may be written |
| App.IbonariumLab.MergeMarket | app.js:91-96 | a `bitcoin` record sets anxiety and connectivity and appends the social line with the new anxiety. Without one, nothing changes. Only social and the terminal may be written |
| App.IbonariumLab.AlignCosmos | app.js:99-100 | the solar flux becomes 140 + 20r, and the cosmos line is appended. Only cosmos and the terminal may be written |
| App.IbonariumLab.FetchData | app.js:75-106 | record and terminal become the sync's result, with early return at the first failed request. Only geo, social, cosmos and the terminal may be written. Capacity is preserved |

## Left out

- Rendering (`viz.js`), the panels and chart bars (`updateUI`), hover highlighting (`setupEventListeners`, `highlightLayer`, `resetLayers`) and the clock (`updateClock`): these only display values.
- Message text: `toFixed`, `toLocaleTimeString` and the string templates are not modelled. A line holds an event that carries the value it reports, and an opaque stamp.
- The requests themselves (URLs, `fetch`, `json()`, `console.error`): their outcomes are the `Reply` inputs.
- Scheduling: the initial sync, the 30-second sync, the 100 ms tick and the one-second clock (`setInterval`, `async`/`await`). The model treats one tick and one sync as atomic calls. The interleaving of a tick between the awaits of a sync is not modelled.
- The sink calls after each tick (`updateUI`, `viz.update`) do not change the record and are left out.
- IEEE-754 behaviour and rounding of the formulas: numbers are exact reals.
- Records with non-numeric fields: `Weather` and `Market` assume that a present `current` or `bitcoin` member holds numbers. A member that lacks them is not modelled. In app.js a missing `temperature_2m` makes the thermal gradient `undefined` and the line read "Temp undefined°C". A missing `wind_speed_10m` makes the turbulence NaN, and a missing `usd_24h_change` makes anxiety NaN.
- The terminal's initial contents come from the page markup, which is not part of this model. The model starts the terminal empty.
- App.IbonariumLab.constructor: the lab's start-up also starts the first sync and the intervals. Those are scheduling and are left out of its contract.

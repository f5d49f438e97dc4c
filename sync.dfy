/** The external-data merge of the lab (app.js: fetchData). The two network
    replies are inputs; a single handler catches every failure, so a failure
    keeps what was merged before it, skips the rest and writes one error line. */
module Sync {
  import opened Layers
  import opened Terminal

  datatype Option<T> = None | Some(value: T)

  /** What one request yields: `Rejected` when the request or the decoding of its
      body fails, or the body is null (an exception reaches the handler); otherwise
      the decoded body's record, absent when the body has no such member. */
  datatype Reply<T> = Rejected | Resolved(record: Option<T>)

  /** The `current` member of the weather reply. */
  datatype Weather = Weather(temperature: real, windSpeed: real)

  /** The `bitcoin` member of the market reply: its 24-hour change in percent. */
  datatype Market = Market(change24h: real)

  /** The stamps of the lines one sync may write, one per log call. */
  datatype SyncStamps = SyncStamps(geo: Stamp, social: Stamp, cosmos: Stamp, error: Stamp)

  /** The record together with the terminal: everything a sync can change. */
  datatype World = World(state: Layers, log: seq<Line>)

  function Abs(x: real): (r: real)
    ensures r >= 0.0 && (r == x || r == -x)
  {
    if x < 0.0 then -x else x
  }

  function Min(a: real, b: real): (r: real)
    ensures r <= a && r <= b && (r == a || r == b)
  {
    if b < a then b else a
  }

  /** The weather sets the thermal gradient to the temperature and scales the wind
      speed down by 50 into the turbulence; magnetic stress is never written. */
  function MergeGeo(g: Geo, w: Weather): (r: Geo)
    ensures r.magneticStress == g.magneticStress
    ensures r.thermalGradient == w.temperature && r.turbulence * 50.0 == w.windSpeed
  {
    g.(thermalGradient := w.temperature, turbulence := w.windSpeed / 50.0)
  }

  /** Anxiety from a percentage change: a tenth of its size, capped at 1. */
  function Anxiety(change: real): (a: real)
    ensures 0.0 <= a <= 1.0
    ensures a == 1.0 <==> Abs(change) >= 10.0
    ensures a < 1.0 ==> a * 10.0 == Abs(change)
  {
    Min(1.0, Abs(change) / 10.0)
  }

  /** Connectivity from a uniform draw in [0, 1). */
  function Connectivity(r: real): (c: real)
    requires 0.0 <= r < 1.0
    ensures 0.8 <= c < 1.0
  {
    0.8 + r * 0.2
  }

  /** The simulated solar flux from a uniform draw in [0, 1). */
  function SolarFlux(r: real): (f: real)
    requires 0.0 <= r < 1.0
    ensures 140.0 <= f < 160.0
  {
    140.0 + r * 20.0
  }

  /** The market record sets anxiety and connectivity; migration is kept. */
  function MergeSocial(s: Social, m: Market, r: real): (t: Social)
    requires 0.0 <= r < 1.0
    ensures 0.0 <= t.anxiety <= 1.0 && 0.8 <= t.connectivity < 1.0
    ensures t.anxiety == Anxiety(m.change24h) && t.connectivity == Connectivity(r)
    ensures t.migration == s.migration
  {
    s.(anxiety := Anxiety(m.change24h)).(connectivity := Connectivity(r))
  }

  /** Step 1, once the weather reply has arrived: only geo and the terminal change,
      and only when there is a `current` record. */
  function GeoStep(w: World, current: Option<Weather>, at: Stamp): (r: World)
    ensures r.state.(geo := w.state.geo) == w.state
    ensures current.None? ==> r == w
    ensures current.Some? ==>
              && r.state.geo == MergeGeo(w.state.geo, current.value)
              && r.log == Logged(w.log, Line(at, GeoSynced(current.value.temperature)))
  {
    match current
    case None => w
    case Some(c) =>
      World(w.state.(geo := MergeGeo(w.state.geo, c)), Logged(w.log, Line(at, GeoSynced(c.temperature))))
  }

  /** Step 2, once the market reply has arrived: only social and the terminal change,
      and only when there is a `bitcoin` record; the line reports the new anxiety. */
  function SocialStep(w: World, bitcoin: Option<Market>, r: real, at: Stamp): (v: World)
    requires 0.0 <= r < 1.0
    ensures v.state.(social := w.state.social) == w.state
    ensures bitcoin.None? ==> v == w
    ensures bitcoin.Some? ==>
              && v.state.social == MergeSocial(w.state.social, bitcoin.value, r)
              && v.log == Logged(w.log, Line(at, SocialSynced(v.state.social.anxiety)))
  {
    match bitcoin
    case None => w
    case Some(m) =>
      var social := MergeSocial(w.state.social, m, r);
      World(w.state.(social := social), Logged(w.log, Line(at, SocialSynced(social.anxiety))))
  }

  /** Step 3, which cannot fail: the flux alone changes, to 140 + 20r in [140, 160),
      and the cosmos line is logged. */
  function CosmosStep(w: World, r: real, at: Stamp): (v: World)
    requires 0.0 <= r < 1.0
    ensures v.state == w.state.(cosmos := w.state.cosmos.(solarFlux := SolarFlux(r)))
    ensures 140.0 <= v.state.cosmos.solarFlux < 160.0
    ensures v.log == Logged(w.log, Line(at, CosmosAligned))
  {
    World(w.state.(cosmos := w.state.cosmos.(solarFlux := SolarFlux(r))), Logged(w.log, Line(at, CosmosAligned)))
  }

  /** The handler: the state as it is, the error line last in the terminal. */
  function Failure(w: World, at: Stamp): (r: World)
    ensures r.state == w.state
    ensures r.log == Logged(w.log, Line(at, SyncFailed))
    ensures r.log[|r.log| - 1] == Line(at, SyncFailed)
    ensures |w.log| <= Capacity ==> |r.log| <= Capacity
  {
    w.(log := Logged(w.log, Line(at, SyncFailed)))
  }

  /** One whole sync: the three steps in order, the first failure ending it in the handler. */
  function Synced(w: World, weather: Reply<Weather>, market: Reply<Market>,
                  rConnectivity: real, rFlux: real, at: SyncStamps): (r: World)
    requires 0.0 <= rConnectivity < 1.0 && 0.0 <= rFlux < 1.0
    // a sync never touches these groups
    ensures r.state.time == w.state.time && r.state.bio == w.state.bio && r.state.meta == w.state.meta
    // geo: merged exactly when the weather reply has a `current` record
    ensures r.state.geo == if weather.Resolved? && weather.record.Some?
                           then MergeGeo(w.state.geo, weather.record.value) else w.state.geo
    // social: merged only when the weather step did not fail and the market reply has a record
    ensures r.state.social == if weather.Resolved? && market.Resolved? && market.record.Some?
                              then MergeSocial(w.state.social, market.record.value, rConnectivity)
                              else w.state.social
    // cosmos: the flux becomes 140 + 20 rFlux, in [140, 160), exactly when neither request failed
    ensures weather.Resolved? && market.Resolved? ==>
              r.state.cosmos == w.state.cosmos.(solarFlux := SolarFlux(rFlux))
    ensures weather.Rejected? || market.Rejected? ==> r.state.cosmos == w.state.cosmos
    // a failure before any merge leaves the record as it was
    ensures weather.Rejected? ==> r.state == w.state
    // a sync keeps the two coupling inputs in the unit interval, and the derived ranges with them
    ensures InUnitRange(w.state) ==> InUnitRange(r.state)
    ensures Bounded(w.state) ==> Bounded(r.state)
  {
    match weather
    case Rejected => Failure(w, at.error)
    case Resolved(current) =>
      var afterGeo := GeoStep(w, current, at.geo);
      match market
      case Rejected => Failure(afterGeo, at.error)
      case Resolved(bitcoin) =>
        CosmosStep(SocialStep(afterGeo, bitcoin, rConnectivity, at.social), rFlux, at.cosmos)
  }

  /** A market change of 20 percent gives anxiety exactly 1, even with no weather record. */
  lemma MarketScenario(w: World, at: SyncStamps)
    ensures Synced(w, Resolved(None), Resolved(Some(Market(20.0))), 0.0, 0.0, at).state.social.anxiety == 1.0
    ensures Synced(w, Resolved(None), Resolved(Some(Market(-20.0))), 0.0, 0.0, at).state.social.anxiety == 1.0
  {
  }

  /** The lines one sync writes, in order, whatever the record holds. */
  function SyncLines(weather: Reply<Weather>, market: Reply<Market>, at: SyncStamps): (r: seq<Line>)
    ensures 1 <= |r| <= 3
    ensures r[|r| - 1].message == SyncFailed || r[|r| - 1].message == CosmosAligned
    ensures forall i :: 0 <= i < |r| - 1 ==> r[i].message.GeoSynced? || r[i].message.SocialSynced?
  {
    var failed := [Line(at.error, SyncFailed)];
    match weather
    case Rejected => failed
    case Resolved(current) =>
      var geo := if current.Some? then [Line(at.geo, GeoSynced(current.value.temperature))] else [];
      match market
      case Rejected => geo + failed
      case Resolved(bitcoin) =>
        var social := if bitcoin.Some? then [Line(at.social, SocialSynced(Anxiety(bitcoin.value.change24h)))] else [];
        geo + social + [Line(at.cosmos, CosmosAligned)]
  }

  /** The number of error lines in `lines`. */
  function Failures(lines: seq<Line>): (n: nat) {
    if lines == [] then 0 else (if lines[0].message == SyncFailed then 1 else 0) + Failures(lines[1..])
  }

  lemma FailuresOne(line: Line)
    ensures Failures([line]) == if line.message == SyncFailed then 1 else 0
  {
    assert [line][1..] == [];
  }

  lemma {:induction false} FailuresConcat(a: seq<Line>, b: seq<Line>)
    ensures Failures(a + b) == Failures(a) + Failures(b)
    decreases |a|
  {
    if a == [] {
      assert a + b == b;
    } else {
      assert (a + b)[0] == a[0] && (a + b)[1..] == a[1..] + b;
      FailuresConcat(a[1..], b);
    }
  }

  /** A sync writes exactly one error line when a request fails, as its last line,
      and none when both succeed. */
  lemma SyncLinesFailures(weather: Reply<Weather>, market: Reply<Market>, at: SyncStamps)
    ensures Failures(SyncLines(weather, market, at)) == if weather.Rejected? || market.Rejected? then 1 else 0
    ensures weather.Rejected? || market.Rejected? ==>
              SyncLines(weather, market, at)[|SyncLines(weather, market, at)| - 1] == Line(at.error, SyncFailed)
    ensures weather.Resolved? && market.Resolved? ==>
              SyncLines(weather, market, at)[|SyncLines(weather, market, at)| - 1] == Line(at.cosmos, CosmosAligned)
  {
    var failed := Line(at.error, SyncFailed);
    FailuresOne(failed);
    match weather
    case Rejected =>
    case Resolved(current) =>
      var geo := if current.Some? then [Line(at.geo, GeoSynced(current.value.temperature))] else [];
      assert Failures(geo) == 0 by { if current.Some? { FailuresOne(geo[0]); } }
      match market
      case Rejected =>
        FailuresConcat(geo, [failed]);
      case Resolved(bitcoin) =>
        var social := if bitcoin.Some? then [Line(at.social, SocialSynced(Anxiety(bitcoin.value.change24h)))] else [];
        var cosmos := Line(at.cosmos, CosmosAligned);
        assert Failures(social) == 0 by { if bitcoin.Some? { FailuresOne(social[0]); } }
        FailuresOne(cosmos);
        FailuresConcat(geo, social);
        FailuresConcat(geo + social, [cosmos]);
  }

  lemma LogAllOne(lines: seq<Line>, line: Line)
    ensures LogAll(lines, [line]) == Logged(lines, line)
  {
    assert [line][1..] == [];
  }

  /** The terminal after a sync is the terminal with the sync's lines logged, so a
      failing sync adds exactly one error line and a full terminal stays full. */
  lemma SyncedLog(w: World, weather: Reply<Weather>, market: Reply<Market>,
                  rConnectivity: real, rFlux: real, at: SyncStamps)
    requires 0.0 <= rConnectivity < 1.0 && 0.0 <= rFlux < 1.0
    ensures Synced(w, weather, market, rConnectivity, rFlux, at).log == LogAll(w.log, SyncLines(weather, market, at))
  {
    var failed := Line(at.error, SyncFailed);
    match weather
    case Rejected =>
      LogAllOne(w.log, failed);
    case Resolved(current) =>
      var afterGeo := GeoStep(w, current, at.geo);
      var geo := if current.Some? then [Line(at.geo, GeoSynced(current.value.temperature))] else [];
      assert afterGeo.log == LogAll(w.log, geo) by {
        if current.Some? { LogAllOne(w.log, geo[0]); }
      }
      match market
      case Rejected =>
        LogAllOne(afterGeo.log, failed);
        LogAllConcat(w.log, geo, [failed]);
      case Resolved(bitcoin) =>
        var afterSocial := SocialStep(afterGeo, bitcoin, rConnectivity, at.social);
        var social := if bitcoin.Some? then [Line(at.social, SocialSynced(Anxiety(bitcoin.value.change24h)))] else [];
        assert afterSocial.log == LogAll(afterGeo.log, social) by {
          if bitcoin.Some? { LogAllOne(afterGeo.log, social[0]); }
        }
        var cosmos := Line(at.cosmos, CosmosAligned);
        LogAllOne(afterSocial.log, cosmos);
        LogAllConcat(w.log, geo, social);
        LogAllConcat(w.log, geo + social, [cosmos]);
  }
}

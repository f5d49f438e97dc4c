/** The lab object of app.js: the shared layer record, held as its six groups,
    and the terminal the lab writes to. Each method assigns the fields the
    source assigns, in the source's order. In app.js the record is a module-level
    object that the renderer also reads; the page creates exactly one lab, so the
    record is held here as fields of that one lab. */
module App {
  import opened Layers
  import opened Terminal
  import opened Sync

  class IbonariumLab {
    var time: Time
    var cosmos: Cosmos
    var geo: Geo
    var bio: Bio
    var social: Social
    var meta: Meta
    var terminal: seq<Line>

    /** The layer record as one value. */
    function State(): (s: Layers)
      reads this
    {
      Layers(time, cosmos, geo, bio, social, meta)
    }

    /** The record together with the terminal. */
    function Current(): (w: World)
      reads this
    {
      World(State(), terminal)
    }

    /** The terminal holds no more lines than its capacity. */
    ghost predicate Valid()
      reads this
    {
      |terminal| <= Capacity
    }

    /** Start-up: the record at its defaults and the two start-up lines, stamped
        `bootAt` and `monitorAt`. */
    constructor (bootAt: Stamp, monitorAt: Stamp)
      ensures Valid()
      ensures State() == Defaults
      ensures terminal == [Line(bootAt, CoreActive), Line(monitorAt, Monitoring)]
    {
      time, cosmos, geo, bio, social, meta := Defaults.time, Defaults.cosmos, Defaults.geo,
                                              Defaults.bio, Defaults.social, Defaults.meta;
      terminal := [];
      new;
      Log(CoreActive, bootAt);
      Log(Monitoring, monitorAt);
    }

    /** Appends a line stamped `at`; beyond capacity the oldest line is removed. */
    method Log(message: Message, at: Stamp)
      modifies this`terminal
      ensures terminal == Logged(old(terminal), Line(at, message))
      ensures old(Valid()) ==> Valid()
    {
      terminal := terminal + [Line(at, message)];
      if |terminal| > Capacity {
        terminal := terminal[1..];
      }
    }

    /** One fast tick with the draw `r`: rewrites entropy, harmony and growth rate,
        and logs the new harmony only when `r` exceeds 0.995. */
    method EvolveState(r: real, at: Stamp)
      requires 0.0 <= r < 1.0
      modifies this`time, this`meta, this`bio, this`terminal
      ensures State() == Evolved(old(State()))
      ensures terminal == if r > 0.995 then Logged(old(terminal), Line(at, Recalibrating(meta.harmony)))
                          else old(terminal)
      ensures old(Valid()) ==> Valid()
    {
      time := time.(entropy := Entropy(social.anxiety));
      meta := meta.(harmony := Harmony(social.anxiety, meta.stabilityIndex));
      bio := bio.(growthRate := GrowthRate(meta.harmony));
      if r > 0.995 {
        Log(Recalibrating(meta.harmony), at);
      }
    }

    /** Step 1 of a sync once the weather reply has arrived: a `current` record sets
        the thermal gradient and the turbulence and is logged. */
    method MergeWeather(current: Option<Weather>, at: Stamp)
      modifies this`geo, this`terminal
      ensures Current() == GeoStep(old(Current()), current, at)
      ensures old(Valid()) ==> Valid()
    {
      if current.Some? {
        geo := geo.(thermalGradient := current.value.temperature);
        geo := geo.(turbulence := current.value.windSpeed / 50.0);
        Log(GeoSynced(current.value.temperature), at);
      }
    }

    /** Step 2 of a sync once the market reply has arrived: a `bitcoin` record sets
        anxiety and connectivity and is logged. */
    method MergeMarket(bitcoin: Option<Market>, rConnectivity: real, at: Stamp)
      requires 0.0 <= rConnectivity < 1.0
      modifies this`social, this`terminal
      ensures Current() == SocialStep(old(Current()), bitcoin, rConnectivity, at)
      ensures old(Valid()) ==> Valid()
    {
      if bitcoin.Some? {
        var change := Abs(bitcoin.value.change24h);
        social := social.(anxiety := Min(1.0, change / 10.0));
        social := social.(connectivity := 0.8 + rConnectivity * 0.2);
        Log(SocialSynced(social.anxiety), at);
      }
    }

    /** Step 3 of a sync: the simulated solar flux, logged. */
    method AlignCosmos(rFlux: real, at: Stamp)
      requires 0.0 <= rFlux < 1.0
      modifies this`cosmos, this`terminal
      ensures Current() == CosmosStep(old(Current()), rFlux, at)
      ensures old(Valid()) ==> Valid()
    {
      cosmos := cosmos.(solarFlux := 140.0 + rFlux * 20.0);
      Log(CosmosAligned, at);
    }

    /** One sync with the replies `weather` and `market` and the draws `rConnectivity`
        and `rFlux`. The first failed request ends it: what was merged before stays,
        one error line is written and the remaining steps are skipped. */
    method FetchData(weather: Reply<Weather>, market: Reply<Market>,
                     rConnectivity: real, rFlux: real, at: SyncStamps)
      requires 0.0 <= rConnectivity < 1.0 && 0.0 <= rFlux < 1.0
      modifies this`geo, this`social, this`cosmos, this`terminal
      ensures Current() == Synced(old(Current()), weather, market, rConnectivity, rFlux, at)
      ensures old(Valid()) ==> Valid()
    {
      if weather.Rejected? {
        Log(SyncFailed, at.error);
        return;
      }
      MergeWeather(weather.record, at.geo);
      if market.Rejected? {
        Log(SyncFailed, at.error);
        return;
      }
      MergeMarket(market.record, rConnectivity, at.social);
      AlignCosmos(rFlux, at.cosmos);
    }
  }
}

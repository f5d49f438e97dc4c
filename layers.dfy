/** The six-layer state record of the lab and the per-tick coupling rules
    (app.js: the IBONARIUM_STATE record and evolveState). Every number of the
    source is a double; here it is a `real`. */
module Layers {

  datatype Time = Time(pulse: real, entropy: real, acceleration: real)
  datatype Cosmos = Cosmos(solarFlux: real, gravityNoise: real, orbitalPhase: real)
  datatype Geo = Geo(magneticStress: real, thermalGradient: real, turbulence: real)
  datatype Bio = Bio(growthRate: real, decayRate: real, respiration: real)
  datatype Social = Social(anxiety: real, connectivity: real, migration: real)
  datatype Meta = Meta(stabilityIndex: real, harmony: real, collapseRisk: real)

  /** One value of the whole record: the six named groups. */
  datatype Layers = Layers(time: Time, cosmos: Cosmos, geo: Geo, bio: Bio, social: Social, meta: Meta)

  /** The values the record holds when the page loads. */
  const Defaults: Layers := Layers(
    Time(7.83, 0.04, 1.0),
    Cosmos(145.0, 0.12, 0.45),
    Geo(32.0, 1.2, 0.15),
    Bio(1.2, 0.05, 0.85),
    Social(0.2, 0.95, 0.1),
    Meta(0.92, 0.88, 0.02))

  /** The two inputs of the coupling rules lie in the unit interval. */
  predicate InUnitRange(s: Layers) {
    0.0 <= s.social.anxiety <= 1.0 && 0.0 <= s.meta.stabilityIndex <= 1.0
  }

  /** The ranges the derived fields then reach. */
  predicate Bounded(s: Layers) {
    && InUnitRange(s)
    && 0.3 <= s.meta.harmony <= 1.0
    && 1.15 <= s.bio.growthRate <= 1.5
  }

  /** Time entropy as a function of social anxiety. */
  function Entropy(anxiety: real): (e: real)
    ensures 0.0 <= anxiety <= 1.0 ==> 0.04 <= e <= 0.14
  {
    0.04 + anxiety * 0.1
  }

  /** Harmony falls with anxiety and with the distance of stability from 1. */
  function Harmony(anxiety: real, stability: real): (h: real)
    ensures 0.0 <= anxiety <= 1.0 && 0.0 <= stability <= 1.0 ==> 0.3 <= h <= 1.0
  {
    1.0 - (anxiety * 0.4 + (1.0 - stability) * 0.3)
  }

  /** Growth rate as a function of harmony. */
  function GrowthRate(harmony: real): (g: real)
    ensures 0.3 <= harmony <= 1.0 ==> 1.15 <= g <= 1.5
  {
    1.0 + harmony * 0.5
  }

  /** The derived fields agree with the fields they are derived from. */
  predicate Coupled(s: Layers) {
    && s.time.entropy == Entropy(s.social.anxiety)
    && s.meta.harmony == Harmony(s.social.anxiety, s.meta.stabilityIndex)
    && s.bio.growthRate == GrowthRate(s.meta.harmony)
  }

  /** `s` and `t` differ at most in entropy, harmony and growth rate. */
  predicate SameBesidesDerived(s: Layers, t: Layers) {
    && s.cosmos == t.cosmos && s.geo == t.geo && s.social == t.social
    && s.time.(entropy := 0.0) == t.time.(entropy := 0.0)
    && s.meta.(harmony := 0.0) == t.meta.(harmony := 0.0)
    && s.bio.(growthRate := 0.0) == t.bio.(growthRate := 0.0)
  }

  /** The state part of one tick: the three assignments of evolveState, in their order;
      the growth rate reads the harmony written just before it. */
  function Evolved(s: Layers): (t: Layers)
    ensures Coupled(t) && SameBesidesDerived(s, t)
    ensures InUnitRange(s) ==> Bounded(t)
  {
    var s1 := s.(time := s.time.(entropy := Entropy(s.social.anxiety)));
    var s2 := s1.(meta := s1.meta.(harmony := Harmony(s1.social.anxiety, s1.meta.stabilityIndex)));
    s2.(bio := s2.bio.(growthRate := GrowthRate(s2.meta.harmony)))
  }

  /** A tick changes nothing in a record that is already coupled, and only then. */
  lemma EvolvedFixpoint(s: Layers)
    ensures Evolved(s) == s <==> Coupled(s)
  {
  }

  /** Ticking twice without anything else happening in between is ticking once. */
  lemma EvolvedIdempotent(s: Layers)
    ensures Evolved(Evolved(s)) == Evolved(s)
  {
    EvolvedFixpoint(Evolved(s));
  }

  /** Evolved is the only coupled record that keeps every non-derived field of `s`. */
  lemma EvolvedUnique(s: Layers, t: Layers)
    requires Coupled(t) && SameBesidesDerived(s, t)
    ensures t == Evolved(s)
  {
    assert t.time == t.time.(entropy := 0.0).(entropy := t.time.entropy);
    assert t.meta == t.meta.(harmony := 0.0).(harmony := t.meta.harmony);
    assert t.bio == t.bio.(growthRate := 0.0).(growthRate := t.bio.growthRate);
  }

  /** The record at load time already has its derived fields in range but is not coupled:
      the first tick rewrites the entropy. */
  lemma DefaultsBounded()
    ensures Bounded(Defaults) && !Coupled(Defaults)
    ensures Evolved(Defaults).time.entropy == 0.06
    ensures Evolved(Defaults).meta.harmony == 0.896 && Evolved(Defaults).bio.growthRate == 1.448
  {
  }
}

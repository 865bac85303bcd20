/**
 * The emotion-to-music-parameter mapper of backend/personalisation_engine/mapper.py:
 * a per-user smoothing state (`Module1State`) and the rule engine
 * `map_emotion_to_params`, which clamps a sample, pushes it into the state,
 * classifies an intent, chooses tempo, timbre, texture, instruments and
 * harmony, and gates the size of the change through a hysteresis state machine.
 */
module Mapper {
  import opened Common

  // ---------- configuration ----------
  const SmoothWindow: nat := 2
  const ConfidenceMicro: real := 0.45
  const StressIndexOverride: real := 0.65
  const PersistenceRequired: nat := 2
  const CooldownFullCycles: nat := 1
  const BpmJitter: nat := 6
  const BpmLowMin: int := 45
  const BpmLowMax: int := 60
  const TimbreValenceWeight: real := 0.6
  const TimbreArousalWeight: real := 0.3
  const TimbreStressWeight: real := 0.5
  const DeltaFullThreshold: real := 0.25
  const DeltaLayerThreshold: real := 0.10
  /** `deque(maxlen=4)` of `intent_history` */
  const IntentHistoryLen: nat := 4
  /** `& 0xFFFFFFFF` keeps the low 32 bits */
  const SeedModulus: nat := 0x1_0000_0000

  // ---------- data ----------
  datatype Intent = Calming | Comforting | Uplifting | Stabilizing
  datatype Level = Micro | Layer | Full
  datatype Mode = Major | Minor | Modal
  datatype Timbre = Dark | Warm | Bright
  datatype Texture = Sparse | Medium | Rich
  /** The `meta.reason` strings. */
  datatype Reason =
    | LowConfidence | InitialStress | InitialCycle
    | LargeDeltaWithPersistence | LargeDeltaNoPersistence
    | ModerateDelta | SmallDelta | NoHistory

  /** The `emotion_data` dictionary; a missing key is `None`. */
  datatype EmotionData = EmotionData(
    emotion: Option<string>,
    valence: Option<real>,
    arousal: Option<real>,
    intensity: Option<real>,
    aus: Option<map<string, real>>,
    confidence: Option<real>)

  /** What `map_emotion_to_params` pushes into the state after clamping. */
  datatype Reading = Reading(valence: real, arousal: real, intensity: real, aus: map<string, real>)

  /** The result of `Module1State.smoothed()`. */
  datatype Averages = Averages(valence: real, arousal: real, intensity: real, aus: map<string, real>)

  /** The three facial action units the rules look at. */
  datatype Cues = Cues(au4: real, au7: real, au12: real)

  datatype Meta = Meta(reason: Reason, confidenceUsed: real, stressIndex: Option<real>)

  /** The parameter dictionary; `avoid_instruments` is a set whose list order is not modelled. */
  datatype Params = Params(
    decision: Level,
    intent: Intent,
    bpm: int,
    mode: Mode,
    timbre: Timbre,
    texture: Texture,
    instruments: seq<string>,
    avoidInstruments: set<string>,
    harmonicTension: real,
    seed: nat,
    meta: Meta)

  /** Outcome of the hysteresis step: the level, its reason and the new intent history and cooldown. */
  datatype Verdict = Verdict(level: Level, reason: Reason, intentHistory: seq<Intent>, cooldown: nat)

  // ---------- seed and jitter ----------

  /** The text whose SHA-256 digest gives the seed: `f"{user_id}:{cycle_index}"`. */
  function SeedKey(userId: string, cycleIndex: nat): string {
    userId + ":" + NatToDecimal(cycleIndex)
  }

  /** For one user, different cycles hash different texts. */
  lemma SeedKeyInjective(userId: string, a: nat, b: nat)
    requires SeedKey(userId, a) == SeedKey(userId, b)
    ensures a == b
  {
    var p := userId + ":";
    assert SeedKey(userId, a)[|p|..] == NatToDecimal(a);
    assert SeedKey(userId, b)[|p|..] == NatToDecimal(b);
    DecimalInjective(a, b);
  }

  /**
   * `deterministic_seed`: `hashPrefix(t)` stands for the integer value of the
   * first 16 hexadecimal digits of the SHA-256 digest of `t`; the seed keeps its
   * low 32 bits.
   */
  function DeterministicSeed(hashPrefix: string -> nat, userId: string, cycleIndex: nat): (seed: nat)
    ensures seed < SeedModulus
  {
    hashPrefix(SeedKey(userId, cycleIndex)) % SeedModulus
  }

  /** `jitter_bpm(base, seed)`: adds floor((seed mod 1000) / 1000 * 6), a jitter of 0 to 5. */
  function JitterBpm(base: int, seed: nat): (bpm: int)
    ensures base <= bpm <= base + BpmJitter - 1
  {
    base + (seed % 1000) * BpmJitter / 1000
  }

  // ---------- reading a sample ----------

  /** The clamped valence, arousal and intensity, with the dictionary's defaults. */
  function ReadingOf(data: EmotionData): (r: Reading)
    ensures -1.0 <= r.valence <= 1.0 && 0.0 <= r.arousal <= 1.0 && 0.0 <= r.intensity <= 1.0
    ensures data.aus.None? ==> r.aus == map[]
    ensures data.aus.Some? ==> r.aus == data.aus.value
    ensures data.valence.None? ==> r.valence == 0.0
    ensures data.arousal.None? ==> r.arousal == 0.0
    ensures data.intensity.None? ==> r.intensity == 0.0
    ensures data.valence.Some? && -1.0 <= data.valence.value <= 1.0 ==> r.valence == data.valence.value
    ensures data.arousal.Some? && 0.0 <= data.arousal.value <= 1.0 ==> r.arousal == data.arousal.value
    ensures data.intensity.Some? && 0.0 <= data.intensity.value <= 1.0 ==> r.intensity == data.intensity.value
    ensures data.valence.Some? && data.valence.value < -1.0 ==> r.valence == -1.0
    ensures data.valence.Some? && data.valence.value > 1.0 ==> r.valence == 1.0
    ensures data.arousal.Some? && data.arousal.value < 0.0 ==> r.arousal == 0.0
    ensures data.arousal.Some? && data.arousal.value > 1.0 ==> r.arousal == 1.0
    ensures data.intensity.Some? && data.intensity.value < 0.0 ==> r.intensity == 0.0
    ensures data.intensity.Some? && data.intensity.value > 1.0 ==> r.intensity == 1.0
  {
    Reading(
      Clamp(data.valence.GetOr(0.0), -1.0, 1.0),
      Clamp(data.arousal.GetOr(0.0), 0.0, 1.0),
      Clamp(data.intensity.GetOr(0.0), 0.0, 1.0),
      data.aus.GetOr(map[]))
  }

  /** The clamped confidence; a sample without one is fully trusted. */
  function ConfidenceOf(data: EmotionData): (c: real)
    ensures 0.0 <= c <= 1.0
    ensures data.confidence.None? ==> c == 1.0
    ensures data.confidence.Some? && 0.0 <= data.confidence.value <= 1.0 ==> c == data.confidence.value
    ensures data.confidence.Some? && data.confidence.value < 0.0 ==> c == 0.0
    ensures data.confidence.Some? && data.confidence.value > 1.0 ==> c == 1.0
  {
    Clamp(data.confidence.GetOr(1.0), 0.0, 1.0)
  }

  /** A reading whose values lie in their documented ranges. */
  predicate InRange(r: Reading) {
    -1.0 <= r.valence <= 1.0 && 0.0 <= r.arousal <= 1.0 && 0.0 <= r.intensity <= 1.0
  }

  // ---------- smoothing over the window ----------

  /** Every action unit that occurs in some map of the window. */
  function KeysOf(h: seq<map<string, real>>): (keys: set<string>)
    ensures forall k :: k in keys <==> exists i | 0 <= i < |h| :: k in h[i]
  {
    if h == [] then {}
    else
      var keys := KeysOf(h[..|h| - 1]) + h[|h| - 1].Keys;
      assert forall i | 0 <= i < |h| - 1 :: h[..|h| - 1][i] == h[i];
      keys
  }

  /** One action unit across the window, 0.0 where a map lacks it (`a.get(k, 0.0)`). */
  function Column(h: seq<map<string, real>>, k: string): (col: seq<real>)
    ensures |col| == |h|
    ensures forall i | 0 <= i < |h| :: col[i] == if k in h[i] then h[i][k] else 0.0
  {
    seq(|h|, i requires 0 <= i < |h| => if k in h[i] then h[i][k] else 0.0)
  }

  /** The per-action-unit means of `smoothed()`: one entry per key seen in the window. */
  function AuMeans(h: seq<map<string, real>>): (m: map<string, real>)
    ensures m.Keys == KeysOf(h)
    ensures forall k | k in m :: m[k] == Mean(Column(h, k))
  {
    map k | k in KeysOf(h) :: Mean(Column(h, k))
  }

  /** A window holding one map averages to that map. */
  lemma AuMeansSingleton(a: map<string, real>)
    ensures AuMeans([a]) == a
  {
    var m := AuMeans([a]);
    assert m.Keys == a.Keys;
    forall k | k in a ensures m[k] == a[k] {
      assert Column([a], k) == [a[k]];
      MeanSingleton(a[k]);
    }
  }

  // ---------- the rules ----------

  /** Values of AU4, AU7 and AU12: the smoothed value, else the raw one, else 0.0. */
  function AuIndicator(smoothedAus: map<string, real>, rawAus: map<string, real>, key: string): (v: real)
    ensures key in smoothedAus ==> v == smoothedAus[key]
    ensures key !in smoothedAus && key in rawAus ==> v == rawAus[key]
    ensures key !in smoothedAus && key !in rawAus ==> v == 0.0
  {
    if key in smoothedAus then smoothedAus[key] else if key in rawAus then rawAus[key] else 0.0
  }

  /** The three cues, each taken from the smoothed map when it has the key. */
  function CuesOf(smoothedAus: map<string, real>, rawAus: map<string, real>): (c: Cues)
    ensures "AU4" in smoothedAus ==> c.au4 == smoothedAus["AU4"]
    ensures "AU7" in smoothedAus ==> c.au7 == smoothedAus["AU7"]
    ensures "AU12" in smoothedAus ==> c.au12 == smoothedAus["AU12"]
    ensures "AU4" !in smoothedAus && "AU4" in rawAus ==> c.au4 == rawAus["AU4"]
    ensures "AU7" !in smoothedAus && "AU7" in rawAus ==> c.au7 == rawAus["AU7"]
    ensures "AU12" !in smoothedAus && "AU12" in rawAus ==> c.au12 == rawAus["AU12"]
    ensures "AU4" !in smoothedAus && "AU4" !in rawAus ==> c.au4 == 0.0
    ensures "AU7" !in smoothedAus && "AU7" !in rawAus ==> c.au7 == 0.0
    ensures "AU12" !in smoothedAus && "AU12" !in rawAus ==> c.au12 == 0.0
  {
    Cues(AuIndicator(smoothedAus, rawAus, "AU4"),
         AuIndicator(smoothedAus, rawAus, "AU7"),
         AuIndicator(smoothedAus, rawAus, "AU12"))
  }

  /**
   * Once the raw sample has been pushed, every key it holds is in the smoothed
   * map, so the raw fallback never changes a cue: the cues are those of the
   * smoothed map alone.
   */
  lemma RawFallbackUnused(ausHist: seq<map<string, real>>, raw: map<string, real>)
    requires ausHist != [] && ausHist[|ausHist| - 1] == raw
    ensures CuesOf(AuMeans(ausHist), raw) == CuesOf(AuMeans(ausHist), map[])
  {
    var sm := AuMeans(ausHist);
    forall k | k in raw ensures k in sm {
      assert k in ausHist[|ausHist| - 1];
    }
  }

  /** `stress_index = max(au4, au7)` */
  function StressIndex(c: Cues): (stress: real)
    ensures stress >= c.au4 && stress >= c.au7
    ensures stress == c.au4 || stress == c.au7
  {
    Max(c.au4, c.au7)
  }

  /** The intent, by priority: calming, then uplifting, then comforting, else stabilizing. */
  function ClassifyIntent(stress: real, valence: real, arousal: real): (intent: Intent)
    ensures stress > StressIndexOverride ==> intent == Calming
    ensures intent == Calming <==> stress > StressIndexOverride || (valence < -0.25 && arousal > 0.5)
    ensures intent == Uplifting <==> stress <= StressIndexOverride && valence > 0.4 && arousal > 0.5
    ensures intent == Comforting <==> stress <= StressIndexOverride && valence < -0.4 && arousal <= 0.5
  {
    if stress > StressIndexOverride || (valence < -0.25 && arousal > 0.5) then Calming
    else if valence > 0.4 && arousal > 0.5 then Uplifting
    else if valence < -0.4 && arousal <= 0.5 then Comforting
    else Stabilizing
  }

  /** Base tempo from smoothed arousal, pulled toward 60 when calming. */
  function BaseBpm(arousal: real, intent: Intent): (base: int)
    ensures base in {52, 60, 69, 78}
    ensures intent == Calming ==> base != 78
    ensures base == 52 <==> arousal <= 0.25
    ensures base == 60 <==> 0.25 < arousal <= 0.55
    ensures base == 69 <==> intent == Calming && arousal > 0.55
    ensures base == 78 <==> intent != Calming && arousal > 0.55
  {
    var bucket := if arousal <= 0.25 then (BpmLowMin + BpmLowMax) / 2
                  else if arousal <= 0.55 then 60
                  else 78;
    if intent == Calming && bucket > 70 then (bucket + 60) / 2 else bucket
  }

  /** A calming tempo never exceeds 74 bpm. */
  lemma CalmingBpmAtMost74(arousal: real, seed: nat)
    ensures JitterBpm(BaseBpm(arousal, Calming), seed) <= 74
  {
  }

  function TimbreScore(valence: real, arousal: real, stress: real): real {
    valence * TimbreValenceWeight - arousal * TimbreArousalWeight - stress * TimbreStressWeight
  }

  function ThresholdTimbre(score: real): Timbre {
    if score <= -0.3 then Dark else if score <= 0.1 then Warm else Bright
  }

  /**
   * The timbre: the score threshold, then three overrides that turn bright into
   * warm (stress above 0.6, AU4 above 0.6, AU12 above 0.55 with negative valence).
   */
  function FinalTimbre(valence: real, arousal: real, c: Cues): (t: Timbre)
    ensures var t0 := ThresholdTimbre(TimbreScore(valence, arousal, StressIndex(c)));
            t == t0 || (t0 == Bright && t == Warm)
    ensures StressIndex(c) > 0.6 || c.au4 > 0.6 ==> t != Bright
    ensures c.au12 > 0.55 && valence < 0.0 ==> t != Bright
    ensures t == Bright <==>
              ThresholdTimbre(TimbreScore(valence, arousal, StressIndex(c))) == Bright
              && StressIndex(c) <= 0.6 && c.au4 <= 0.6 && !(c.au12 > 0.55 && valence < 0.0)
  {
    var stress := StressIndex(c);
    var t0 := ThresholdTimbre(TimbreScore(valence, arousal, stress));
    var t1 := if stress > 0.6 && t0 == Bright then Warm else t0;
    var t2 := if c.au4 > 0.6 && t1 == Bright then Warm else t1;
    if c.au12 > 0.55 && valence < 0.0 && t2 == Bright then Warm else t2
  }

  function Density(arousal: real, intensity: real): real {
    arousal * 0.7 + intensity * 0.3
  }

  /** Texture from density, with rich downgraded to medium when calming. */
  function TextureOf(arousal: real, intensity: real, intent: Intent): (t: Texture)
    ensures intent == Calming ==> t != Rich
    ensures t == Sparse <==> Density(arousal, intensity) <= 0.25
    ensures t == Rich <==> intent != Calming && Density(arousal, intensity) > 0.6
  {
    var d := Density(arousal, intensity);
    var t0 := if d <= 0.25 then Sparse else if d <= 0.6 then Medium else Rich;
    if intent == Calming && t0 == Rich then Medium else t0
  }

  /** The fixed per-intent instrument catalogue. */
  function CatalogueInstruments(intent: Intent): (insts: seq<string>)
    ensures |insts| == 2
  {
    match intent
    case Calming => ["warm_pad", "soft_piano"]
    case Comforting => ["piano", "ethereal_pad"]
    case Uplifting => ["bright_pluck", "warm_pad"]
    case Stabilizing => ["pad", "soft_pluck"]
  }

  /** The avoid set: per intent, plus drums when AU7 is above 0.6. */
  function AvoidSet(intent: Intent, au7: real): (avoid: set<string>)
    ensures au7 > 0.6 ==> {"drums", "aggressive_drums"} <= avoid
    ensures intent == Calming ==> {"bright_synth", "aggressive_drums"} <= avoid
    ensures avoid <= {"bright_synth", "aggressive_drums", "drums"}
    ensures "drums" in avoid <==> au7 > 0.6
    ensures "bright_synth" in avoid <==> intent == Calming || intent == Comforting
    ensures "aggressive_drums" in avoid <==> intent == Calming || au7 > 0.6
    ensures avoid == {} <==> (intent == Uplifting || intent == Stabilizing) && au7 <= 0.6
  {
    var base := match intent
      case Calming => {"bright_synth", "aggressive_drums"}
      case Comforting => {"bright_synth"}
      case _ => {};
    if au7 > 0.6 then base + {"drums", "aggressive_drums"} else base
  }

  /** The catalogue never picks an instrument it also asks to avoid. */
  lemma CatalogueRespectsAvoid(intent: Intent, au7: real)
    ensures forall i | i in CatalogueInstruments(intent) :: i !in AvoidSet(intent, au7)
  {
  }

  function ModeOf(valence: real): (m: Mode)
    ensures m == Major <==> valence >= 0.2
    ensures m == Minor <==> valence <= -0.2
  {
    if valence >= 0.2 then Major else if valence <= -0.2 then Minor else Modal
  }

  /** `harmonic_tension = clamp((1 - valence) * intensity, 0, 1)` */
  function Tension(valence: real, intensity: real): (t: real)
    ensures 0.0 <= t <= 1.0
    ensures 0.0 <= (1.0 - valence) * intensity <= 1.0 ==> t == (1.0 - valence) * intensity
  {
    Clamp((1.0 - valence) * intensity, 0.0, 1.0)
  }

  /** The fixed answer to a low-confidence sample. */
  function FallbackParams(seed: nat, confidence: real): (p: Params)
    ensures p.decision == Micro && p.intent == Stabilizing && p.meta.reason == LowConfidence
    ensures p.bpm == JitterBpm(56, seed) && 56 <= p.bpm <= 61 && p.seed == seed
    ensures p.timbre == Warm && p.texture == Sparse && p.mode == Modal
    ensures p.instruments == ["warm_pad"] && p.avoidInstruments == {}
    ensures p.harmonicTension == 0.1 && p.meta.confidenceUsed == confidence && p.meta.stressIndex.None?
  {
    Params(Micro, Stabilizing, JitterBpm(56, seed), Modal, Warm, Sparse, ["warm_pad"], {},
           0.1, seed, Meta(LowConfidence, confidence, None))
  }

  // ---------- hysteresis ----------

  /** `full_cooldown` after `push`: one less if positive. */
  function Tick(cooldown: nat): (t: nat)
    ensures t <= cooldown
    ensures cooldown > 0 ==> t == cooldown - 1
    ensures t == 0 <==> cooldown <= 1
  {
    if cooldown > 0 then cooldown - 1 else 0
  }

  /** The larger change of smoothed valence and arousal against the previous raw sample. */
  function MaxDelta(valenceHist: seq<real>, arousalHist: seq<real>, sv: real, sa: real): (d: real)
    requires |valenceHist| >= 2 && |arousalHist| >= 2
    ensures d >= Abs(sv - valenceHist[|valenceHist| - 2]) && d >= Abs(sa - arousalHist[|arousalHist| - 2])
    ensures d == Abs(sv - valenceHist[|valenceHist| - 2]) || d == Abs(sa - arousalHist[|arousalHist| - 2])
  {
    Max(Abs(sv - valenceHist[|valenceHist| - 2]), Abs(sa - arousalHist[|arousalHist| - 2]))
  }

  /** The branch that records the intent: a previous result, a previous sample, a large change, no cooldown. */
  predicate LargeDeltaCycle(hasLast: bool, valenceHist: seq<real>, arousalHist: seq<real>,
                            sv: real, sa: real, cooldown: nat)
  {
    hasLast && |valenceHist| >= 2 && |arousalHist| >= 2
    && MaxDelta(valenceHist, arousalHist, sv, sa) > DeltaFullThreshold && cooldown == 0
  }

  /**
   * The decision level. `hasLast` says whether `last_params` is set, the
   * histories are those after the current push, `cooldown` is the value after
   * the push's decrement, `history` is `intent_history` before this cycle.
   */
  function Hysteresis(hasLast: bool, valenceHist: seq<real>, arousalHist: seq<real>,
                      sv: real, sa: real, cooldown: nat, history: seq<Intent>,
                      intent: Intent, stress: real): (v: Verdict)
    ensures v.intentHistory ==
              if LargeDeltaCycle(hasLast, valenceHist, arousalHist, sv, sa, cooldown)
              then BoundedAppend(history, intent, IntentHistoryLen) else history
    ensures v.level == Full <==>
              LargeDeltaCycle(hasLast, valenceHist, arousalHist, sv, sa, cooldown)
              && Count(v.intentHistory, intent) >= PersistenceRequired
    ensures v.cooldown == if v.level == Full then CooldownFullCycles else cooldown
    ensures !hasLast ==> v.level == Layer && (v.reason == InitialStress <==> stress > StressIndexOverride)
    ensures LargeDeltaCycle(hasLast, valenceHist, arousalHist, sv, sa, cooldown) && v.level != Full ==> v.level == Layer
    ensures hasLast && (|valenceHist| < 2 || |arousalHist| < 2) ==> v.level == Micro && v.reason == NoHistory
    ensures hasLast && |valenceHist| >= 2 && |arousalHist| >= 2
            && !LargeDeltaCycle(hasLast, valenceHist, arousalHist, sv, sa, cooldown) ==>
              (v.level == Layer <==> MaxDelta(valenceHist, arousalHist, sv, sa) > DeltaLayerThreshold)
              && v.level != Full
    ensures v.reason == LargeDeltaWithPersistence <==> v.level == Full
    ensures v.reason == LargeDeltaNoPersistence <==>
              LargeDeltaCycle(hasLast, valenceHist, arousalHist, sv, sa, cooldown) && v.level != Full
    ensures v.reason == ModerateDelta <==>
              hasLast && |valenceHist| >= 2 && |arousalHist| >= 2
              && !LargeDeltaCycle(hasLast, valenceHist, arousalHist, sv, sa, cooldown) && v.level == Layer
    ensures v.reason == SmallDelta <==> hasLast && |valenceHist| >= 2 && |arousalHist| >= 2 && v.level == Micro
    ensures v.reason == InitialCycle <==> !hasLast && stress <= StressIndexOverride
  {
    if hasLast then
      if |valenceHist| >= 2 && |arousalHist| >= 2 then
        var maxDelta := MaxDelta(valenceHist, arousalHist, sv, sa);
        if maxDelta > DeltaFullThreshold && cooldown == 0 then
          var h := BoundedAppend(history, intent, IntentHistoryLen);
          if Count(h, intent) >= PersistenceRequired then
            Verdict(Full, LargeDeltaWithPersistence, h, CooldownFullCycles)
          else
            Verdict(Layer, LargeDeltaNoPersistence, h, cooldown)
        else if maxDelta > DeltaLayerThreshold then
          Verdict(Layer, ModerateDelta, history, cooldown)
        else
          Verdict(Micro, SmallDelta, history, cooldown)
      else
        Verdict(Micro, NoHistory, history, cooldown)
    else if stress > StressIndexOverride then
      Verdict(Layer, InitialStress, history, cooldown)
    else
      Verdict(Layer, InitialCycle, history, cooldown)
  }

  /**
   * A single spike cannot promote to full: if the intent is not already in the
   * recent-intent buffer, this cycle is not full.
   */
  lemma NoFullWithoutRecurrence(hasLast: bool, valenceHist: seq<real>, arousalHist: seq<real>,
                                sv: real, sa: real, cooldown: nat, history: seq<Intent>,
                                intent: Intent, stress: real)
    requires |history| <= IntentHistoryLen
    requires intent !in history
    ensures Hysteresis(hasLast, valenceHist, arousalHist, sv, sa, cooldown, history, intent, stress).level != Full
  {
    CountBoundedAppend(history, intent, IntentHistoryLen);
  }

  /**
   * The one-cycle cooldown never blocks anything: `push` brings it back to 0
   * before it is read, so after a full cycle, a next cycle with a large change
   * and the same intent is full again.
   */
  lemma FullCanRepeat(valenceHist: seq<real>, arousalHist: seq<real>, sv: real, sa: real,
                      history: seq<Intent>, intent: Intent, stress: real,
                      valenceHist': seq<real>, arousalHist': seq<real>, sv': real, sa': real, stress': real)
    requires |history| <= IntentHistoryLen
    requires var v := Hysteresis(true, valenceHist, arousalHist, sv, sa, 0, history, intent, stress);
             v.level == Full
    requires |valenceHist'| >= 2 && |arousalHist'| >= 2
    requires MaxDelta(valenceHist', arousalHist', sv', sa') > DeltaFullThreshold
    ensures var v := Hysteresis(true, valenceHist, arousalHist, sv, sa, 0, history, intent, stress);
            Hysteresis(true, valenceHist', arousalHist', sv', sa', Tick(v.cooldown), v.intentHistory, intent, stress').level == Full
  {
    var v := Hysteresis(true, valenceHist, arousalHist, sv, sa, 0, history, intent, stress);
    assert Tick(v.cooldown) == 0;
    CountBoundedAppend(v.intentHistory, intent, IntentHistoryLen);
  }

  // ---------- the per-user state ----------

  /** `Module1State`: bounded histories, the cycle counter, the cooldown, recent intents, the last result. */
  class Module1State {
    const userId: string
    const window: nat
    var valenceHist: seq<real>
    var arousalHist: seq<real>
    var intensityHist: seq<real>
    var ausHist: seq<map<string, real>>
    var lastParams: Option<Params>
    var cycleIndex: nat
    var fullCooldown: nat
    var intentHistory: seq<Intent>

    /** The histories are pushed together and never exceed their capacities. */
    ghost predicate Valid()
      reads this`valenceHist, this`arousalHist, this`intensityHist, this`ausHist,
            this`intentHistory, this`fullCooldown
    {
      |valenceHist| <= window
      && |arousalHist| == |valenceHist| && |intensityHist| == |valenceHist| && |ausHist| == |valenceHist|
      && |intentHistory| <= IntentHistoryLen
      && fullCooldown <= CooldownFullCycles
    }

    /** Every recorded valence, arousal and intensity lies in its documented range. */
    ghost predicate Normalised()
      reads this`valenceHist, this`arousalHist, this`intensityHist
    {
      HistoriesInRange(valenceHist, arousalHist, intensityHist)
    }

    constructor (userId: string, window: nat)
      ensures Valid() && Normalised()
      ensures this.userId == userId && this.window == window
      ensures valenceHist == [] && arousalHist == [] && intensityHist == [] && ausHist == []
      ensures lastParams == None && cycleIndex == 0 && fullCooldown == 0 && intentHistory == []
    {
      this.userId := userId;
      this.window := window;
      valenceHist, arousalHist, intensityHist, ausHist := [], [], [], [];
      lastParams := None;
      cycleIndex, fullCooldown := 0, 0;
      intentHistory := [];
    }

    /** `push`: append to the four windows, advance the cycle, count the cooldown down. */
    method Push(r: Reading)
      requires Valid()
      modifies this
      ensures Valid()
      ensures valenceHist == BoundedAppend(old(valenceHist), r.valence, window)
      ensures arousalHist == BoundedAppend(old(arousalHist), r.arousal, window)
      ensures intensityHist == BoundedAppend(old(intensityHist), r.intensity, window)
      ensures ausHist == BoundedAppend(old(ausHist), r.aus, window)
      ensures cycleIndex == old(cycleIndex) + 1
      ensures fullCooldown == Tick(old(fullCooldown)) && fullCooldown == 0
      ensures lastParams == old(lastParams) && intentHistory == old(intentHistory)
      ensures old(Normalised()) && InRange(r) ==> Normalised()
    {
      if Normalised() && InRange(r) {
        PushKeepsRange(valenceHist, arousalHist, intensityHist, r, window);
      }
      valenceHist := BoundedAppend(valenceHist, r.valence, window);
      arousalHist := BoundedAppend(arousalHist, r.arousal, window);
      intensityHist := BoundedAppend(intensityHist, r.intensity, window);
      ausHist := BoundedAppend(ausHist, r.aus, window);
      cycleIndex := cycleIndex + 1;
      if fullCooldown > 0 {
        fullCooldown := fullCooldown - 1;
      }
    }

    /**
     * `smoothed()`: the means of the three numeric windows (0.0 when empty) and,
     * per action unit seen anywhere in the window, its mean with absent entries
     * counted as 0.0. It only reads the state.
     */
    function Smoothed(): (sm: Averages)
      reads this`valenceHist, this`arousalHist, this`intensityHist, this`ausHist
      ensures sm.valence == Mean(valenceHist) && sm.arousal == Mean(arousalHist) && sm.intensity == Mean(intensityHist)
      ensures forall k :: k in sm.aus <==> exists i | 0 <= i < |ausHist| :: k in ausHist[i]
      ensures forall k | k in sm.aus :: sm.aus[k] == Mean(Column(ausHist, k))
      ensures Normalised() ==>
                -1.0 <= sm.valence <= 1.0 && 0.0 <= sm.arousal <= 1.0 && 0.0 <= sm.intensity <= 1.0
    {
      MeanWithin(valenceHist, -1.0, 1.0);
      MeanWithin(arousalHist, 0.0, 1.0);
      MeanWithin(intensityHist, 0.0, 1.0);
      Averages(Mean(valenceHist), Mean(arousalHist), Mean(intensityHist), AuMeans(ausHist))
    }
  }

  /** Valence in [-1, 1], arousal and intensity in [0, 1], entry by entry. */
  ghost predicate HistoriesInRange(valenceHist: seq<real>, arousalHist: seq<real>, intensityHist: seq<real>) {
    (forall i | 0 <= i < |valenceHist| :: -1.0 <= valenceHist[i] <= 1.0)
    && (forall i | 0 <= i < |arousalHist| :: 0.0 <= arousalHist[i] <= 1.0)
    && (forall i | 0 <= i < |intensityHist| :: 0.0 <= intensityHist[i] <= 1.0)
  }

  lemma PushKeepsRange(valenceHist: seq<real>, arousalHist: seq<real>, intensityHist: seq<real>,
                       r: Reading, cap: nat)
    requires HistoriesInRange(valenceHist, arousalHist, intensityHist) && InRange(r)
    ensures HistoriesInRange(BoundedAppend(valenceHist, r.valence, cap),
                             BoundedAppend(arousalHist, r.arousal, cap),
                             BoundedAppend(intensityHist, r.intensity, cap))
  {
    HistoryStaysInRange(valenceHist, r.valence, cap, -1.0, 1.0);
    HistoryStaysInRange(arousalHist, r.arousal, cap, 0.0, 1.0);
    HistoryStaysInRange(intensityHist, r.intensity, cap, 0.0, 1.0);
  }

  lemma HistoryStaysInRange(s: seq<real>, x: real, cap: nat, lo: real, hi: real)
    requires forall i | 0 <= i < |s| :: lo <= s[i] <= hi
    requires lo <= x <= hi
    ensures forall i | 0 <= i < |BoundedAppend(s, x, cap)| :: lo <= BoundedAppend(s, x, cap)[i] <= hi
  {
    var t := s + [x];
    assert forall i | 0 <= i < |t| :: lo <= t[i] <= hi;
  }

  // ---------- map_emotion_to_params ----------

  /**
   * The parameters chosen by the rules (intent, tempo, timbre, texture,
   * instruments, harmony) from the smoothed values, the raw action units and
   * the seed, with the decision level and reason of the hysteresis step.
   */
  function RuleParams(raw: Reading, confidence: real, sm: Averages, seed: nat,
                      level: Level, reason: Reason): (p: Params)
    ensures 0.0 <= p.harmonicTension <= 1.0
    ensures p.intent == Calming ==> p.bpm <= 74 && p.texture != Rich
    ensures forall i | i in p.instruments :: i !in p.avoidInstruments
  {
    var c := CuesOf(sm.aus, raw.aus);
    var stress := StressIndex(c);
    var intent := ClassifyIntent(stress, sm.valence, sm.arousal);
    CatalogueRespectsAvoid(intent, c.au7);
    Params(level, intent, JitterBpm(BaseBpm(sm.arousal, intent), seed), ModeOf(sm.valence),
           FinalTimbre(sm.valence, sm.arousal, c), TextureOf(sm.arousal, sm.intensity, intent),
           CatalogueInstruments(intent), AvoidSet(intent, c.au7),
           Tension(sm.valence, sm.intensity), seed, Meta(reason, confidence, Some(stress)))
  }

  /** The intent the rules give for these smoothed values and raw action units. */
  function IntentOf(raw: Reading, sm: Averages): Intent {
    ClassifyIntent(StressOf(raw, sm), sm.valence, sm.arousal)
  }

  /** The stress index of the smoothed action units, with the raw sample as fallback. */
  function StressOf(raw: Reading, sm: Averages): real {
    StressIndex(CuesOf(sm.aus, raw.aus))
  }

  /**
   * `map_emotion_to_params(emotion_data, state)`: one cycle of the engine.
   * The sample is clamped and pushed; a low-confidence sample gets the fixed
   * fallback; otherwise the rules choose the parameters from the smoothed
   * values and the hysteresis step chooses the decision level, updating the
   * recent-intent buffer and the cooldown. The result becomes `last_params`.
   */
  method MapEmotionToParams(data: EmotionData, state: Module1State, hashPrefix: string -> nat)
    returns (p: Params)
    requires state.Valid()
    modifies state
    ensures state.Valid()
    ensures old(state.Normalised()) ==> state.Normalised()
    ensures state.valenceHist == BoundedAppend(old(state.valenceHist), ReadingOf(data).valence, state.window)
    ensures state.arousalHist == BoundedAppend(old(state.arousalHist), ReadingOf(data).arousal, state.window)
    ensures state.intensityHist == BoundedAppend(old(state.intensityHist), ReadingOf(data).intensity, state.window)
    ensures state.ausHist == BoundedAppend(old(state.ausHist), ReadingOf(data).aus, state.window)
    ensures state.cycleIndex == old(state.cycleIndex) + 1
    ensures state.lastParams == Some(p)
    ensures p.seed == DeterministicSeed(hashPrefix, state.userId, state.cycleIndex)
    ensures 0.0 <= p.harmonicTension <= 1.0
    // the confidence gate
    ensures ConfidenceOf(data) < ConfidenceMicro ==>
              && p == FallbackParams(p.seed, ConfidenceOf(data))
              && state.intentHistory == old(state.intentHistory)
              && state.fullCooldown == Tick(old(state.fullCooldown))
    // the rules and the hysteresis step
    ensures ConfidenceOf(data) >= ConfidenceMicro ==>
              var sm := state.Smoothed();
              var v := Hysteresis(old(state.lastParams).Some?, state.valenceHist, state.arousalHist,
                                  sm.valence, sm.arousal, Tick(old(state.fullCooldown)),
                                  old(state.intentHistory), IntentOf(ReadingOf(data), sm),
                                  StressOf(ReadingOf(data), sm));
              && p == RuleParams(ReadingOf(data), ConfidenceOf(data), sm, p.seed, v.level, v.reason)
              && state.intentHistory == v.intentHistory
              && state.fullCooldown == v.cooldown
  {
    var reading, confidence, sm, seed := Observe(data, state, hashPrefix);
    if confidence < ConfidenceMicro {
      p := FallbackParams(seed, confidence);
      state.lastParams := Some(p);
    } else {
      p := Decide(state, reading, confidence, sm, seed);
    }
  }

  /**
   * The first half of `map_emotion_to_params`: the sample is read with its
   * defaults and clamped, pushed, and smoothed, and the cycle's seed is drawn.
   */
  method Observe(data: EmotionData, state: Module1State, hashPrefix: string -> nat)
    returns (reading: Reading, confidence: real, sm: Averages, seed: nat)
    requires state.Valid()
    modifies state
    ensures reading == ReadingOf(data) && confidence == ConfidenceOf(data)
    ensures state.Valid()
    ensures old(state.Normalised()) ==> state.Normalised()
    ensures state.valenceHist == BoundedAppend(old(state.valenceHist), reading.valence, state.window)
    ensures state.arousalHist == BoundedAppend(old(state.arousalHist), reading.arousal, state.window)
    ensures state.intensityHist == BoundedAppend(old(state.intensityHist), reading.intensity, state.window)
    ensures state.ausHist == BoundedAppend(old(state.ausHist), reading.aus, state.window)
    ensures state.cycleIndex == old(state.cycleIndex) + 1
    ensures state.fullCooldown == Tick(old(state.fullCooldown))
    ensures state.lastParams == old(state.lastParams) && state.intentHistory == old(state.intentHistory)
    ensures sm == state.Smoothed()
    ensures seed == DeterministicSeed(hashPrefix, state.userId, state.cycleIndex)
  {
    reading := ReadingOf(data);
    confidence := ConfidenceOf(data);
    state.Push(reading);
    sm := state.Smoothed();
    seed := DeterministicSeed(hashPrefix, state.userId, state.cycleIndex);
  }

  /**
   * The confident branch of `map_emotion_to_params`: the hysteresis step
   * updates the recent-intent buffer and the cooldown, the rules choose the
   * parameters, and they become `last_params`.
   */
  method Decide(state: Module1State, reading: Reading, confidence: real, sm: Averages, seed: nat)
    returns (p: Params)
    requires state.Valid()
    modifies state`intentHistory, state`fullCooldown, state`lastParams
    ensures state.Valid()
    ensures var v := Hysteresis(old(state.lastParams).Some?, state.valenceHist, state.arousalHist,
                                sm.valence, sm.arousal, old(state.fullCooldown),
                                old(state.intentHistory), IntentOf(reading, sm),
                                StressOf(reading, sm));
            && p == RuleParams(reading, confidence, sm, seed, v.level, v.reason)
            && state.intentHistory == v.intentHistory
            && state.fullCooldown == v.cooldown
    ensures state.lastParams == Some(p)
  {
    var stress := StressOf(reading, sm);
    var intent := IntentOf(reading, sm);
    var v := Hysteresis(state.lastParams.Some?, state.valenceHist, state.arousalHist,
                        sm.valence, sm.arousal, state.fullCooldown, state.intentHistory, intent, stress);
    state.intentHistory := v.intentHistory;
    state.fullCooldown := v.cooldown;

    p := RuleParams(reading, confidence, sm, seed, v.level, v.reason);
    state.lastParams := Some(p);
  }

  // ---------- the sample of the module's demo ----------

  function DemoSample(): EmotionData {
    EmotionData(Some("angry"), Some(-0.63), Some(0.74), Some(0.55),
                Some(map["AU4" := 0.78, "AU7" := 0.60, "AU12" := 0.10]), Some(0.9))
  }

  /**
   * The demo sample on a fresh state: calming (stress 0.78), a dark timbre
   * (score -0.99), medium texture (rich downgraded), minor mode, base tempo 69,
   * no drums ban (AU7 is exactly 0.6), and a `layer` decision for the first cycle.
   */
  method DemoFirstCycle(hashPrefix: string -> nat) returns (p: Params)
    ensures p.intent == Calming && p.timbre == Dark && p.texture == Medium && p.mode == Minor
    ensures p.decision == Layer && p.meta.reason == InitialStress
    ensures p.instruments == ["warm_pad", "soft_piano"]
    ensures p.avoidInstruments == {"bright_synth", "aggressive_drums"}
    ensures 69 <= p.bpm <= 74
  {
    var state := new Module1State("demo_user", SmoothWindow);
    var data := DemoSample();
    var r := ReadingOf(data);
    assert r == Reading(-0.63, 0.74, 0.55, map["AU4" := 0.78, "AU7" := 0.60, "AU12" := 0.10]);
    p := MapEmotionToParams(data, state, hashPrefix);
    assert state.valenceHist == [r.valence] && state.arousalHist == [r.arousal];
    assert state.intensityHist == [r.intensity] && state.ausHist == [r.aus];
    MeanSingleton(r.valence);
    MeanSingleton(r.arousal);
    MeanSingleton(r.intensity);
    AuMeansSingleton(r.aus);
    var sm := state.Smoothed();
    assert sm == Averages(-0.63, 0.74, 0.55, r.aus);
    var c := CuesOf(sm.aus, r.aus);
    assert c == Cues(0.78, 0.60, 0.10);
    assert StressIndex(c) == 0.78;
    assert IntentOf(r, sm) == Calming;
    assert TimbreScore(-0.63, 0.74, 0.78) == -0.99;
  }
}

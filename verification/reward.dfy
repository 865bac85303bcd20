/**
 * The reward and profile learner of backend/personalisation_engine/reward_engine.py:
 * a clamped linear reward, exponential-moving-average score updates kept in a
 * user profile, a rule that adds strongly disliked names to the profile's
 * `avoid` list, and a decaying exploration rate.
 */
module Reward {
  import opened Common

  // ---------- configuration ----------
  const WValence: real := 0.6
  const WArousal: real := 0.2
  const WBehavior: real := 0.2
  /** learning rate of the score updates */
  const Alpha: real := 0.25
  const EpsilonStart: real := 0.25
  const EpsilonDecay: real := 0.98
  const EpsilonMin: real := 0.05
  const NegativeBanThreshold: real := -0.7
  /** declared in the source but never read: bans do not expire */
  const BanCycles: nat := 6

  /** The keys of `params_used` that the learner reads; a missing key is `None`. */
  datatype ParamsUsed = ParamsUsed(
    instruments: Option<seq<string>>,
    timbre: Option<string>,
    texture: Option<string>,
    bpm: Option<int>)

  /** Python truthiness of an optional string: present and non-empty. */
  predicate Truthy(s: Option<string>) {
    s.Some? && s.value != ""
  }

  // ---------- scores ----------

  /** `scores.get(name, 0.0)` */
  function Score(m: map<string, real>, name: string): real {
    if name in m then m[name] else 0.0
  }

  /**
   * The exponential moving average `clamp(old * (1 - a) + a * reward, -1, 1)`:
   * always in [-1, 1], and when both inputs are in [-1, 1] it moves a quarter of
   * the way toward the reward, so the distance to the reward shrinks by 0.75.
   */
  function Ema(prev: real, reward: real): (r: real)
    ensures -1.0 <= r <= 1.0
    ensures -1.0 <= prev <= 1.0 && -1.0 <= reward <= 1.0 ==>
              Abs(r - reward) == (1.0 - Alpha) * Abs(prev - reward)
    ensures -1.0 <= prev <= 1.0 && -1.0 <= reward <= 1.0 ==> Min(prev, reward) <= r <= Max(prev, reward)
  {
    Clamp(prev * (1.0 - Alpha) + Alpha * reward, -1.0, 1.0)
  }

  /** One score update `scores[name] = Ema(scores.get(name, 0.0), reward)`. */
  function Bump(m: map<string, real>, name: string, reward: real): (r: map<string, real>)
    ensures r.Keys == m.Keys + {name}
    ensures forall k | k in m && k != name :: r[k] == m[k]
    ensures -1.0 <= r[name] <= 1.0
    ensures -1.0 <= Score(m, name) <= 1.0 && -1.0 <= reward <= 1.0 ==>
              Abs(r[name] - reward) == 0.75 * Abs(Score(m, name) - reward)
  {
    m[name := Ema(Score(m, name), reward)]
  }

  /** The instrument loop: one update per entry of `names`, in order (a name listed twice is updated twice). */
  function BumpAll(m: map<string, real>, names: seq<string>, reward: real): (r: map<string, real>)
    ensures r.Keys == m.Keys + SetOf(names)
  {
    if names == [] then m
    else Bump(BumpAll(m, names[..|names| - 1], reward), names[|names| - 1], reward)
  }

  /**
   * After the instrument loop every listed name has a score in [-1, 1] and
   * names outside the list keep their score.
   */
  lemma {:induction false} BumpAllFacts(m: map<string, real>, names: seq<string>, reward: real)
    ensures forall k | k in m && k !in names :: BumpAll(m, names, reward)[k] == m[k]
    ensures forall k | k in names :: -1.0 <= BumpAll(m, names, reward)[k] <= 1.0
  {
    if names != [] {
      var prefix := names[..|names| - 1];
      BumpAllFacts(m, prefix, reward);
      assert forall k :: k in names <==> k in prefix || k == names[|names| - 1];
    }
  }

  /** One more name is one more update. */
  lemma BumpAllStep(m: map<string, real>, names: seq<string>, i: nat, reward: real)
    requires i < |names|
    ensures BumpAll(m, names[..i + 1], reward) == Bump(BumpAll(m, names[..i], reward), names[i], reward)
  {
    assert names[..i + 1][..i] == names[..i];
  }

  /** When no name repeats, each listed score is exactly one EMA step from its old value. */
  lemma {:induction false} BumpAllDistinct(m: map<string, real>, names: seq<string>, reward: real)
    requires NoDup(names)
    ensures forall k | k in names :: k in BumpAll(m, names, reward) && BumpAll(m, names, reward)[k] == Ema(Score(m, k), reward)
  {
    if names != [] {
      var prefix := names[..|names| - 1];
      var last := names[|names| - 1];
      assert NoDup(prefix);
      BumpAllDistinct(m, prefix, reward);
      BumpAllFacts(m, prefix, reward);
      assert last !in prefix;
      assert forall k :: k in names <==> k in prefix || k == last;
    }
  }

  /** `n` updates of one score with the same reward. */
  function EmaRepeat(score: real, reward: real, n: nat): real {
    if n == 0 then score else Ema(EmaRepeat(score, reward, n - 1), reward)
  }

  /** `gap` scaled by 0.75 (one minus the learning rate) `n` times. */
  function Shrink(gap: real, n: nat): (r: real)
    ensures gap >= 0.0 ==> 0.0 <= r <= gap
  {
    if n == 0 then gap else 0.75 * Shrink(gap, n - 1)
  }

  /**
   * Repeated updates with a constant reward converge to it geometrically: after
   * `n` updates the distance to the reward is the starting distance times 0.75^n.
   */
  lemma {:induction false} EmaConvergence(score: real, reward: real, n: nat)
    requires -1.0 <= score <= 1.0 && -1.0 <= reward <= 1.0
    ensures -1.0 <= EmaRepeat(score, reward, n) <= 1.0
    ensures Abs(EmaRepeat(score, reward, n) - reward) == Shrink(Abs(score - reward), n)
  {
    if n > 0 {
      EmaConvergence(score, reward, n - 1);
    }
  }

  /** The tempo bucket: up to 60 is low, up to 80 is mid, above is high. */
  function TempoBucket(bpm: int): (bucket: string)
    ensures bucket == "low" <==> bpm <= 60
    ensures bucket == "mid" <==> 60 < bpm <= 80
    ensures bucket == "high" <==> 80 < bpm
  {
    if bpm <= 60 then "low" else if bpm <= 80 then "mid" else "high"
  }

  /** The bucket of `params_used`, whose missing tempo counts as 60 (low). */
  function UsedBucket(used: ParamsUsed): (bucket: string)
    ensures used.bpm.None? ==> bucket == "low"
  {
    TempoBucket(used.bpm.GetOr(60))
  }

  // ---------- the ban rule ----------

  /** The scores the ban rule averages: each listed instrument's, then the timbre's if there is one. */
  function BanScores(instrumentScores: map<string, real>, timbreScores: map<string, real>,
                     instruments: seq<string>, timbre: Option<string>): (scores: seq<real>)
    ensures |scores| == |instruments| + (if Truthy(timbre) then 1 else 0)
    ensures scores[..|instruments|] == InstrumentScoreList(instrumentScores, instruments)
    ensures forall i | 0 <= i < |instruments| :: scores[i] == Score(instrumentScores, instruments[i])
    ensures Truthy(timbre) ==> scores[|scores| - 1] == Score(timbreScores, timbre.value)
  {
    InstrumentScoreList(instrumentScores, instruments)
      + (if Truthy(timbre) then [Score(timbreScores, timbre.value)] else [])
  }

  function InstrumentScoreList(m: map<string, real>, names: seq<string>): (scores: seq<real>)
    ensures |scores| == |names|
    ensures forall i | 0 <= i < |names| :: scores[i] == Score(m, names[i])
  {
    if names == [] then [] else InstrumentScoreList(m, names[..|names| - 1]) + [Score(m, names[|names| - 1])]
  }

  /** The ban fires when the mean is at most -0.7; an empty list has mean 0.0 and never fires. */
  predicate ShouldBan(scores: seq<real>): (ban: bool)
    ensures ban ==> scores != []
    ensures |scores| == 1 ==> (ban <==> scores[0] <= NegativeBanThreshold)
  {
    MeanSingleton(if |scores| == 1 then scores[0] else 0.0);
    assert |scores| == 1 ==> scores == [scores[0]];
    Mean(scores) <= NegativeBanThreshold
  }

  /** Nothing is banned when there are no instruments and no timbre. */
  lemma NothingToBanWithoutNames(instrumentScores: map<string, real>, timbreScores: map<string, real>,
                                 timbre: Option<string>)
    requires !Truthy(timbre)
    ensures !ShouldBan(BanScores(instrumentScores, timbreScores, [], timbre))
  {
  }

  /** The names a ban adds: the instruments, then the timbre if there is one. */
  function BanNames(instruments: seq<string>, timbre: Option<string>): seq<string> {
    instruments + (if Truthy(timbre) then [timbre.value] else [])
  }

  /**
   * Appending each name that is not yet present. The old list is kept as a
   * prefix (no entry is lost), every name ends up in the list, nothing else is
   * added, and a list without duplicates stays without duplicates.
   */
  function AddAbsent(avoid: seq<string>, names: seq<string>): (r: seq<string>)
    ensures |avoid| <= |r| && r[..|avoid|] == avoid
    ensures forall n | n in names :: n in r
    ensures forall x | x in r :: x in avoid || x in names
    ensures NoDup(avoid) ==> NoDup(r)
  {
    if names == [] then avoid
    else
      var a := AddAbsent(avoid, names[..|names| - 1]);
      var n := names[|names| - 1];
      assert forall k :: k in names <==> k in names[..|names| - 1] || k == n;
      if n in a then a else a + [n]
  }

  // ---------- exploration rate ----------

  /** `epsilon = max(0.05, epsilon * 0.98)` */
  function DecayEpsilon(epsilon: real): (e: real)
    ensures e >= EpsilonMin
    ensures epsilon >= EpsilonMin ==> e <= epsilon
    ensures epsilon > EpsilonMin ==> e < epsilon
    ensures epsilon <= EpsilonStart ==> e <= EpsilonStart
  {
    Max(EpsilonMin, epsilon * EpsilonDecay)
  }

  /** The rate after `n` profile updates from the start value. */
  function EpsilonAfter(n: nat): real {
    if n == 0 then EpsilonStart else DecayEpsilon(EpsilonAfter(n - 1))
  }

  /** From 0.25 the rate stays in [0.05, 0.25] and never increases. */
  lemma {:induction false} EpsilonStaysInRange(n: nat)
    ensures EpsilonMin <= EpsilonAfter(n) <= EpsilonStart
    ensures EpsilonAfter(n + 1) <= EpsilonAfter(n)
  {
    if n > 0 {
      EpsilonStaysInRange(n - 1);
    }
  }

  // ---------- the profile and the engine ----------

  /**
   * A user profile dictionary: the four score maps and the `avoid` list may be
   * missing; `seed_bias` and `preferred_instruments` stand for the keys the
   * learner never touches.
   */
  class Profile {
    var instrumentScores: Option<map<string, real>>
    var timbreScores: Option<map<string, real>>
    var tempoScores: Option<map<string, real>>
    var textureScores: Option<map<string, real>>
    var avoid: Option<seq<string>>
    var seedBias: Option<int>
    var preferredInstruments: Option<seq<string>>

    /** The profile of the module's demo: empty maps, an empty avoid list, `seed_bias` 0. */
    constructor ()
      ensures instrumentScores == Some(map[]) && timbreScores == Some(map[])
      ensures tempoScores == Some(map[]) && textureScores == Some(map[])
      ensures avoid == Some([]) && seedBias == Some(0) && preferredInstruments == None
    {
      instrumentScores, timbreScores := Some(map[]), Some(map[]);
      tempoScores, textureScores := Some(map[]), Some(map[]);
      avoid, seedBias, preferredInstruments := Some([]), Some(0), None;
    }
  }

  /** `RewardEngine`: the exploration rate and a ban table that nothing updates. */
  class RewardEngine {
    var epsilon: real
    var bans: map<string, nat>

    ghost predicate Valid()
      reads this`epsilon
    {
      EpsilonMin <= epsilon <= EpsilonStart
    }

    constructor ()
      ensures Valid() && epsilon == EpsilonStart && bans == map[]
    {
      epsilon := EpsilonStart;
      bans := map[];
    }

    /**
     * `compute_reward`: both deltas clamped to [-1, 1], weighted 0.6 and -0.2,
     * plus 0.2 times the behaviour code, clamped to [-1, 1]. The arousal term is
     * the same whatever the intent. For a behaviour code in [-1, 1] the final
     * clamp never changes the value.
     */
    static function ComputeReward(deltaValence: real, deltaArousal: real, behavior: real,
                                  intent: string): (r: real)
      ensures -1.0 <= r <= 1.0
      ensures -1.0 <= behavior <= 1.0 ==>
                r == WValence * Clamp(deltaValence, -1.0, 1.0) - WArousal * Clamp(deltaArousal, -1.0, 1.0)
                     + WBehavior * behavior
    {
      var dv := Clamp(deltaValence, -1.0, 1.0);
      var da := Clamp(deltaArousal, -1.0, 1.0);
      var arousalTerm := if intent == "calming" then -da else -da;
      Clamp(WValence * dv + WArousal * arousalTerm + WBehavior * behavior, -1.0, 1.0)
    }

    /** `should_explore`: true when the uniform draw from [0, 1) falls below the rate. */
    function ShouldExplore(draw: real): (explore: bool)
      reads this`epsilon
      ensures Valid() && draw < EpsilonMin ==> explore
      ensures Valid() && draw >= EpsilonStart ==> !explore
    {
      draw < epsilon
    }

    /**
     * `update_profile`: create missing score maps empty; update each listed
     * instrument, the timbre and texture (when present and non-empty) and the
     * tempo bucket by one EMA step; when the mean of the updated instrument
     * scores and the timbre score is at most -0.7, append each of those names
     * not yet in `avoid`; finally decay the exploration rate. Nothing else of
     * the profile or of the engine changes.
     */
    method UpdateProfile(profile: Profile, used: ParamsUsed, reward: real)
      modifies this`epsilon, profile`instrumentScores, profile`timbreScores, profile`tempoScores,
               profile`textureScores, profile`avoid
      ensures epsilon == DecayEpsilon(old(epsilon))
      ensures old(Valid()) ==> Valid() && epsilon <= old(epsilon)
      ensures bans == old(bans)
      ensures ScoresLearned(profile, used, reward)
      ensures var scores := BanScores(profile.instrumentScores.value, profile.timbreScores.value,
                                      used.instruments.GetOr([]), used.timbre);
              profile.avoid ==
                if ShouldBan(scores)
                then Some(AddAbsent(old(profile.avoid).GetOr([]), BanNames(used.instruments.GetOr([]), used.timbre)))
                else old(profile.avoid)
      ensures profile.seedBias == old(profile.seedBias)
      ensures profile.preferredInstruments == old(profile.preferredInstruments)
    {
      LearnScores(profile, used, reward);
      ApplyBan(profile, used.instruments.GetOr([]), used.timbre);
      epsilon := Max(EpsilonMin, epsilon * EpsilonDecay);
    }
  }

  /**
   * The four score maps after one update: missing maps created empty; one EMA
   * step for each listed instrument, for the timbre and the texture when present
   * and non-empty, and for the tempo bucket.
   */
  twostate predicate ScoresLearned(profile: Profile, used: ParamsUsed, reward: real)
    reads profile`instrumentScores, profile`timbreScores, profile`tempoScores, profile`textureScores
  {
    && profile.instrumentScores ==
         Some(BumpAll(old(profile.instrumentScores).GetOr(map[]), used.instruments.GetOr([]), reward))
    && profile.timbreScores ==
         Some(if Truthy(used.timbre)
              then Bump(old(profile.timbreScores).GetOr(map[]), used.timbre.value, reward)
              else old(profile.timbreScores).GetOr(map[]))
    && profile.textureScores ==
         Some(if Truthy(used.texture)
              then Bump(old(profile.textureScores).GetOr(map[]), used.texture.value, reward)
              else old(profile.textureScores).GetOr(map[]))
    && profile.tempoScores ==
         Some(Bump(old(profile.tempoScores).GetOr(map[]), UsedBucket(used), reward))
  }

  /** The score updates of `update_profile`. */
  method LearnScores(profile: Profile, used: ParamsUsed, reward: real)
    modifies profile`instrumentScores, profile`timbreScores, profile`tempoScores, profile`textureScores
    ensures ScoresLearned(profile, used, reward)
  {
    // missing maps are created empty
    var instrumentScores := profile.instrumentScores.GetOr(map[]);
    var timbreScores := profile.timbreScores.GetOr(map[]);
    var tempoScores := profile.tempoScores.GetOr(map[]);
    var textureScores := profile.textureScores.GetOr(map[]);

    var instruments := used.instruments.GetOr([]);
    instrumentScores := BumpInstruments(instrumentScores, instruments, reward);

    var timbre := used.timbre;
    if Truthy(timbre) {
      timbreScores := timbreScores[timbre.value := Ema(Score(timbreScores, timbre.value), reward)];
    }

    var texture := used.texture;
    if Truthy(texture) {
      textureScores := textureScores[texture.value := Ema(Score(textureScores, texture.value), reward)];
    }

    // tempo bucket; a missing tempo counts as 60
    var bpm := used.bpm.GetOr(60);
    var bucket := if bpm <= 60 then "low" else if bpm <= 80 then "mid" else "high";
    tempoScores := tempoScores[bucket := Ema(Score(tempoScores, bucket), reward)];

    profile.instrumentScores := Some(instrumentScores);
    profile.timbreScores := Some(timbreScores);
    profile.tempoScores := Some(tempoScores);
    profile.textureScores := Some(textureScores);
  }

  /**
   * The ban rule of `update_profile`, run on the already updated scores: when
   * the mean of the listed instruments' scores and the timbre's score is at
   * most -0.7, each of those names not yet avoided is appended to `avoid`
   * (created empty if missing). The score maps do not change.
   */
  method ApplyBan(profile: Profile, instruments: seq<string>, timbre: Option<string>)
    requires profile.instrumentScores.Some? && profile.timbreScores.Some?
    modifies profile`avoid
    ensures profile.avoid ==
              if ShouldBan(BanScores(profile.instrumentScores.value, profile.timbreScores.value, instruments, timbre))
              then Some(AddAbsent(old(profile.avoid).GetOr([]), BanNames(instruments, timbre)))
              else old(profile.avoid)
  {
    var scores := CollectScores(profile.instrumentScores.value, instruments);
    if Truthy(timbre) {
      scores := scores + [Score(profile.timbreScores.value, timbre.value)];
    }
    var avg := if scores != [] then Sum(scores) / (|scores| as real) else 0.0;
    assert scores == BanScores(profile.instrumentScores.value, profile.timbreScores.value, instruments, timbre);
    if avg <= NegativeBanThreshold {
      var avoid := AppendAbsent(profile.avoid.GetOr([]), BanNames(instruments, timbre));
      profile.avoid := Some(avoid);
    }
  }

  /** The instrument loop of `update_profile`, on the score map. */
  method BumpInstruments(scores: map<string, real>, instruments: seq<string>, reward: real)
    returns (r: map<string, real>)
    ensures r == BumpAll(scores, instruments, reward)
  {
    r := scores;
    var i := 0;
    while i < |instruments|
      invariant 0 <= i <= |instruments|
      invariant r == BumpAll(scores, instruments[..i], reward)
    {
      var inst := instruments[i];
      BumpAllStep(scores, instruments, i, reward);
      assert r[inst := Ema(Score(r, inst), reward)] == Bump(r, inst, reward);
      r := r[inst := Ema(Score(r, inst), reward)];
      i := i + 1;
    }
    assert instruments[..i] == instruments;
  }

  /** The loop collecting the updated instrument scores for the ban rule. */
  method CollectScores(m: map<string, real>, instruments: seq<string>) returns (scores: seq<real>)
    ensures scores == InstrumentScoreList(m, instruments)
  {
    scores := [];
    var i := 0;
    while i < |instruments|
      invariant 0 <= i <= |instruments|
      invariant scores == InstrumentScoreList(m, instruments[..i])
    {
      assert instruments[..i + 1][..i] == instruments[..i];
      scores := scores + [Score(m, instruments[i])];
      i := i + 1;
    }
    assert instruments[..i] == instruments;
  }

  /** The ban loops: append each name not yet in the avoid list. */
  method AppendAbsent(avoid: seq<string>, names: seq<string>) returns (r: seq<string>)
    ensures r == AddAbsent(avoid, names)
  {
    r := avoid;
    var i := 0;
    while i < |names|
      invariant 0 <= i <= |names|
      invariant r == AddAbsent(avoid, names[..i])
    {
      assert names[..i + 1][..i] == names[..i];
      if names[i] !in r {
        r := r + [names[i]];
      }
      i := i + 1;
    }
    assert names[..i] == names;
  }

  /** The reward does not depend on the intent it is given. */
  lemma RewardIgnoresIntent(deltaValence: real, deltaArousal: real, behavior: real, i: string, j: string)
    ensures RewardEngine.ComputeReward(deltaValence, deltaArousal, behavior, i)
         == RewardEngine.ComputeReward(deltaValence, deltaArousal, behavior, j)
  {
  }
}

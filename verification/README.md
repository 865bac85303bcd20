# Personalisation engine: a verified Dafny model

This project models the personalisation engine of the adaptive music backend
(`backend/personalisation_engine/`) and proves properties of it. The engine has three stages.

- **Mapper** (`mapper.py`, module `Mapper`): a deterministic rule engine.
  - A per-user `Module1State` keeps bounded histories of valence, arousal, intensity and
    facial action units (AUs). It also keeps a cycle counter, a cooldown, a recent-intent
    buffer and the last result.
  - `map_emotion_to_params` clamps an emotion sample, pushes it, smooths it, and classifies
    an intent (calming, uplifting, comforting or stabilizing).
  - It then chooses tempo, timbre, texture, instruments, harmony and a deterministic seed.
  - A hysteresis step decides whether the change is `micro`, `layer` or `full`.
  - In the model, `Module1State` is a class whose methods update its fields.
  - `MapEmotionToParams` is a method that changes the state. It is proved against pure
    specification functions (`RuleParams`, `Hysteresis`).
- **Reward engine** (`reward_engine.py`, module `Reward`): turns a valence change, an arousal
  change and a behaviour code into a reward in [-1, 1].
  - It updates a user profile with exponential-moving-average (EMA) scores per instrument,
    timbre, texture and tempo bucket.
  - It appends strongly disliked names to the profile's `avoid` list.
  - It decays the exploration rate.
  - `Profile` and `RewardEngine` are classes. `UpdateProfile` and its loops are methods
    proved against pure functions (`BumpAll`, `InstrumentScoreList`, `AddAbsent`).
- **Prompt builder** (`prompt_builder.py`, module `Prompt`): a pure function from a parameter
  dictionary and an optional profile to the text prompt for the music generator.
  - It orders instruments with the preferred ones first.
  - It drops avoided instruments and falls back to "soft ambient pad" when none are left.
  - It adds the avoid and seed clauses only when they apply.

`common.dfy` (module `Common`) holds the shared pieces:
- optional values, `clamp`, means
- the bounded FIFO that models `deque(maxlen=...)`
- `list.count`, decimal rendering of integers, and `str.join`

Python dictionaries with optional keys become datatypes with `Option` fields. A missing key
takes the default the source gives it. Floats are modelled as exact reals.

Three behaviours of the code that a reader might not expect. The model follows the code:

- **Demo sample.** Take valence -0.63, arousal 0.74, intensity 0.55, AU4 0.78, AU7 0.60,
  AU12 0.10, on a fresh state. The code gives:
  - a dark timbre: the timbre score is -0.99, and every override (mapper.py:176-177 and
    205-211) only turns bright into warm;
  - no drums ban: AU7 is exactly 0.60, and the rule at mapper.py:207-208 needs more than 0.6.

  `Mapper.DemoFirstCycle` proves what the code gives.
- **Cooldown.** `COOLDOWN_FULL_CYCLES = 1` never blocks a cycle. `push` (mapper.py:60-61)
  decrements the cooldown before mapper.py:232 reads it, so a cooldown of 1 is already 0 when
  the next cycle checks it. `Mapper.FullCanRepeat` proves that two consecutive cycles can both
  be `full`.
- **Timbre overrides.** The overrides at mapper.py:176-177 and 205-211 only turn bright into
  warm; a dark timbre stays dark (`Mapper.FinalTimbre`).

## Model

| member | source | states |
|---|---|---|
| Common.Clamp | backend/personalisation_engine/mapper.py:29-30 | the result lies in [lo, hi]; a value already in range is unchanged; a value below or above the range is pulled to that bound (the same `clamp` is at reward_engine.py:27) |
| Common.Mean | backend/personalisation_engine/mapper.py:64-67 | the mean of an empty history is 0.0; otherwise the mean times the length is the sum |
| Common.MeanWithin | backend/personalisation_engine/mapper.py:64-67 | the mean of a non-empty history whose entries all lie in [lo, hi] lies in [lo, hi] |
| Common.BoundedAppend | backend/personalisation_engine/mapper.py:45-52 | `deque(maxlen=cap).append`: the length grows by one up to the capacity; the new element is last; below capacity the old contents are kept as a prefix, and at capacity the oldest element is dropped |
| Common.Count | backend/personalisation_engine/mapper.py:234 | `list.count` is at most the length, and is positive exactly when the element occurs |
| Common.CountBoundedAppend | backend/personalisation_engine/mapper.py:233-234 | appending to the bounded intent buffer raises the count of the appended intent by at most one and never lowers it |
| Common.DecimalRoundTrip | backend/personalisation_engine/mapper.py:33 | reading back the decimal rendering of the cycle index gives the cycle index |
| Common.JoinHasPart | backend/personalisation_engine/prompt_builder.py:85 | every part occurs, unchanged and contiguous, in `sep.join(parts)` |
| Mapper.SeedKeyInjective | backend/personalisation_engine/mapper.py:32-33 | for one user, two different cycle indices give two different hashed texts `user_id:cycle_index` |
| Mapper.DeterministicSeed | backend/personalisation_engine/mapper.py:32-34 | the seed fits in 32 bits (`& 0xFFFFFFFF`) |
| Mapper.JitterBpm | backend/personalisation_engine/mapper.py:36-38 | the jittered tempo lies between the base tempo and the base plus 5 |
| Mapper.ReadingOf | backend/personalisation_engine/mapper.py:106-110 | after clamping, valence is in [-1, 1] and arousal and intensity are in [0, 1]; a missing value reads as 0.0, an in-range value is kept, and an out-of-range value is pulled to the nearer bound; a present AU map is kept and a missing one is empty |
| Mapper.ConfidenceOf | backend/personalisation_engine/mapper.py:111 | the confidence is clamped to [0, 1]: an in-range confidence is used as given, one below 0 or above 1 becomes 0.0 or 1.0, and a sample without one counts as 1.0 |
| Mapper.KeysOf | backend/personalisation_engine/mapper.py:68-70 | the AU keys are exactly those that occur in some map of the window |
| Mapper.Column | backend/personalisation_engine/mapper.py:72 | one AU across the window, with 0.0 where a map lacks it |
| Mapper.AuMeans | backend/personalisation_engine/mapper.py:68-73 | one entry per key seen in the window, holding the mean of that key's column |
| Mapper.AuMeansSingleton | backend/personalisation_engine/mapper.py:68-73 | a window holding one AU map averages to that map |
| Mapper.AuIndicator | backend/personalisation_engine/mapper.py:120-122 | an AU cue is the smoothed value when the smoothed map has it, else the raw sample's value, else 0.0 |
| Mapper.CuesOf | backend/personalisation_engine/mapper.py:120-122 | AU4, AU7 and AU12 are each taken from the smoothed map whenever it holds them, else from the raw sample, else 0.0 |
| Mapper.RawFallbackUnused | backend/personalisation_engine/mapper.py:120-122 | once the raw sample is pushed, every key it holds is in the smoothed map, so the raw fallback never changes a cue |
| Mapper.StressIndex | backend/personalisation_engine/mapper.py:123 | the stress index is the larger of AU4 and AU7: at least both, and equal to one of them |
| Mapper.ClassifyIntent | backend/personalisation_engine/mapper.py:145-153 | calming exactly when stress > 0.65 or (valence < -0.25 and arousal > 0.5); uplifting, comforting each exactly under their own condition when not calming; stress above 0.65 always gives calming |
| Mapper.BaseBpm | backend/personalisation_engine/mapper.py:155-163 | the base tempo is one of 52, 60, 69, 78; it is 52 exactly when arousal <= 0.25, 60 exactly when arousal is in (0.25, 0.55], 69 exactly for calming above 0.55 and 78 exactly for any other intent above 0.55, so a calming intent never keeps 78 |
| Mapper.CalmingBpmAtMost74 | backend/personalisation_engine/mapper.py:155-166 | a calming tempo, jitter included, never exceeds 74 bpm |
| Mapper.FinalTimbre | backend/personalisation_engine/mapper.py:168-177 | the threshold timbre, where the overrides (here and at lines 205-211) can only turn bright into warm; the result is bright exactly when the threshold gives bright and none of the overrides fires (stress and AU4 at most 0.6, and not AU12 above 0.55 with negative valence) |
| Mapper.TextureOf | backend/personalisation_engine/mapper.py:179-188 | sparse exactly when the density is at most 0.25; rich exactly when the intent is not calming and the density exceeds 0.6; calming is never rich |
| Mapper.CatalogueInstruments | backend/personalisation_engine/mapper.py:190-202 | each intent picks exactly two catalogue instruments |
| Mapper.AvoidSet | backend/personalisation_engine/mapper.py:190-208 | the avoid set lies within {bright_synth, aggressive_drums, drums}; bright_synth is avoided exactly for calming and comforting; aggressive_drums exactly for calming or when AU7 > 0.6; drums exactly when AU7 > 0.6; the set is empty exactly for uplifting or stabilizing with AU7 at most 0.6 |
| Mapper.CatalogueRespectsAvoid | backend/personalisation_engine/mapper.py:190-208 | no chosen instrument is in the avoid set, for every intent and AU7 value |
| Mapper.ModeOf | backend/personalisation_engine/mapper.py:213-219 | major exactly when valence >= 0.2, minor exactly when valence <= -0.2 |
| Mapper.Tension | backend/personalisation_engine/mapper.py:220 | the harmonic tension lies in [0, 1] and equals (1 - valence) * intensity whenever that is already in range |
| Mapper.FallbackParams | backend/personalisation_engine/mapper.py:126-143 | the low-confidence answer is the fixed record: micro, stabilizing, warm, sparse, modal, instruments [warm_pad], nothing avoided, tension 0.1, the jittered tempo of 56 (so 56 to 61), the cycle's seed, reason low_confidence with the confidence used and no stress index |
| Mapper.Tick | backend/personalisation_engine/mapper.py:60-61 | the cooldown counts down by one while positive and never below 0; it is 0 afterwards exactly when it was at most 1 |
| Mapper.MaxDelta | backend/personalisation_engine/mapper.py:226-231 | the larger of the valence and arousal changes against the previous sample: at least both, and equal to one |
| Mapper.Hysteresis | backend/personalisation_engine/mapper.py:222-256 | the intent is recorded exactly in a large-change cycle (previous result, previous sample, change > 0.25, no cooldown); full exactly when it is then recorded at least twice; a full cycle starts the cooldown; a large-change cycle that is not full is layer; fewer than two samples gives micro (no_history); any other cycle with a previous result is layer exactly when the change exceeds 0.10, otherwise micro, and never full; the first cycle is layer, with reason initial_stress exactly when stress > 0.65 and initial_cycle otherwise; each other reason is tied to its branch: large_delta_with_persistence exactly when full, large_delta_no_persistence exactly for a large-change cycle that is not full, moderate_delta and small_delta exactly for the layer and micro outcomes of the other cycles with two samples |
| Mapper.NoFullWithoutRecurrence | backend/personalisation_engine/mapper.py:232-240 | an intent absent from the recent-intent buffer cannot produce a full decision |
| Mapper.FullCanRepeat | backend/personalisation_engine/mapper.py:232-236 | because `push` (lines 60-61) clears the one-cycle cooldown before it is read, a full cycle followed by another large change with the same intent is full again |
| Mapper.Module1State.constructor | backend/personalisation_engine/mapper.py:42-52 | a new state has empty histories, no last result, cycle 0, cooldown 0 and an empty intent buffer, and satisfies the state invariant |
| Mapper.Module1State.Push | backend/personalisation_engine/mapper.py:54-61 | each history gets the new value with the oldest evicted at capacity; the cycle advances by one; the cooldown counts down; the last result and intent buffer are untouched; the invariant and the value ranges are kept |
| Mapper.Module1State.Smoothed | backend/personalisation_engine/mapper.py:63-79 | valence, arousal and intensity are the means of their histories (0.0 when empty); the AU means cover exactly the keys seen in the window, each the mean of its column; on in-range histories the smoothed values are in range |
| Mapper.PushKeepsRange | backend/personalisation_engine/mapper.py:106-115 | pushing a clamped reading keeps every history entry in its range |
| Mapper.RuleParams | backend/personalisation_engine/mapper.py:145-220 | the rule-chosen parameters have tension in [0, 1], a calming result has tempo at most 74 and no rich texture, and no instrument is also avoided |
| Mapper.MapEmotionToParams | backend/personalisation_engine/mapper.py:82-273 | one cycle: the state invariant and value ranges are kept; the sample is pushed and the cycle advanced; the seed is the deterministic seed of the new cycle; low confidence gives the fallback without touching the intent buffer; otherwise the result is the rule parameters with the hysteresis verdict, whose intent buffer and cooldown become the state's; the result becomes the last result |
| Mapper.Observe | backend/personalisation_engine/mapper.py:106-117 | the first half of a cycle: the sample is read and clamped, each history gets its value with the oldest evicted at capacity, the cycle advances, the cooldown counts down, the smoothed values and the seed of the new cycle are returned, and the invariant and value ranges are kept |
| Mapper.Decide | backend/personalisation_engine/mapper.py:222-273 | the confident branch: the verdict's intent buffer and cooldown replace the state's, and the result is the rule parameters with the verdict's level and reason; the state invariant is kept |
| Mapper.DemoFirstCycle | backend/personalisation_engine/mapper.py:275-279 | the demo sample on a fresh state gives calming, dark, medium, minor, layer with reason initial_stress, warm_pad and soft_piano, avoid exactly {bright_synth, aggressive_drums}, tempo 69 to 74 |
| Reward.Ema | backend/personalisation_engine/reward_engine.py:71-73 | an updated score is in [-1, 1]; for a score and reward in [-1, 1] the new score lies between the old score and the reward, and the distance to the reward shrinks by the factor 0.75 |
| Reward.Bump | backend/personalisation_engine/reward_engine.py:71-73 | one update adds the name as a key and changes no other score; the new score is in [-1, 1] and, for in-range inputs, its distance to the reward shrinks by the factor 0.75 |
| Reward.BumpAll | backend/personalisation_engine/reward_engine.py:69-73 | the instrument loop's score map has exactly the old keys plus the listed instruments |
| Reward.BumpAllFacts | backend/personalisation_engine/reward_engine.py:69-73 | after the instrument loop every listed instrument has a score in [-1, 1] and unlisted scores are unchanged |
| Reward.BumpAllDistinct | backend/personalisation_engine/reward_engine.py:69-73 | with no repeated instrument, each listed score is exactly one EMA step from its old value (0.0 if absent) |
| Reward.EmaConvergence | backend/personalisation_engine/reward_engine.py:69-73 | repeated updates with a constant reward stay in [-1, 1] and approach the reward geometrically, by 0.75 per update |
| Reward.TempoBucket | backend/personalisation_engine/reward_engine.py:87-91 | low exactly up to 60 bpm, mid exactly above 60 up to 80, high exactly above 80 |
| Reward.UsedBucket | backend/personalisation_engine/reward_engine.py:88-91 | a missing tempo falls in the low bucket |
| Reward.InstrumentScoreList | backend/personalisation_engine/reward_engine.py:97-99 | one score per listed instrument, in order, 0.0 when absent |
| Reward.BanScores | backend/personalisation_engine/reward_engine.py:96-101 | the ban rule averages each listed instrument's updated score, in order, followed by the timbre's score exactly when the timbre is non-empty |
| Reward.ShouldBan | backend/personalisation_engine/reward_engine.py:102-103 | the ban needs at least one score (an empty list has mean 0.0); for a single score it fires exactly when that score is at most -0.7 |
| Reward.NothingToBanWithoutNames | backend/personalisation_engine/reward_engine.py:102-103 | with no instrument and no timbre the average is 0.0 and nothing is banned |
| Reward.AddAbsent | backend/personalisation_engine/reward_engine.py:103-112 | the avoid list keeps its old entries as a prefix, gains every banned name, gains nothing else, and stays free of duplicates |
| Reward.DecayEpsilon | backend/personalisation_engine/reward_engine.py:114-115 | the rate never drops below 0.05, strictly decreases while above it, and never rises above 0.25 when it starts there or below |
| Reward.EpsilonStaysInRange | backend/personalisation_engine/reward_engine.py:114-115 | starting from 0.25, after any number of updates the rate lies in [0.05, 0.25] and never increases |
| Reward.Profile.constructor | backend/personalisation_engine/reward_engine.py:126-133 | the demo profile: empty score maps, empty avoid list, seed bias 0 |
| Reward.RewardEngine.constructor | backend/personalisation_engine/reward_engine.py:31-34 | the rate starts at 0.25 and the ban table is empty |
| Reward.RewardEngine.ComputeReward | backend/personalisation_engine/reward_engine.py:36-48 | the reward lies in [-1, 1]; for a behaviour code in [-1, 1] it is exactly 0.6·dv − 0.2·da + 0.2·behaviour on the clamped deltas |
| Reward.RewardIgnoresIntent | backend/personalisation_engine/reward_engine.py:45 | the reward is the same for every intent |
| Reward.RewardEngine.ShouldExplore | backend/personalisation_engine/reward_engine.py:118-120 | for a valid rate, a draw below 0.05 always explores and a draw of 0.25 or more never does |
| Reward.RewardEngine.UpdateProfile | backend/personalisation_engine/reward_engine.py:50-116 | the score maps get their EMA updates; `avoid` gets the banned names exactly when the mean of the updated scores is at most -0.7 and is otherwise untouched; the rate decays and stays in [0.05, 0.25]; the ban table and the other profile keys do not change |
| Reward.LearnScores | backend/personalisation_engine/reward_engine.py:64-93 | missing maps are created empty, and the listed instruments, a non-empty timbre and texture, and the tempo bucket each get one EMA step |
| Reward.ApplyBan | backend/personalisation_engine/reward_engine.py:95-112 | the avoid list is extended with the instruments and timbre exactly when the mean of their updated scores is at most -0.7 |
| Reward.BumpInstruments | backend/personalisation_engine/reward_engine.py:69-73 | the instrument loop computes the left-to-right EMA updates |
| Reward.CollectScores | backend/personalisation_engine/reward_engine.py:97-99 | the loop collects the updated instrument scores in order |
| Reward.AppendAbsent | backend/personalisation_engine/reward_engine.py:105-112 | the ban loops append exactly the names not yet present, in order |
| Prompt.ReplaceUnderscores | backend/personalisation_engine/prompt_builder.py:68 | same length, every underscore becomes a space, everything else is kept, and no underscore is left |
| Prompt.Describe | backend/personalisation_engine/prompt_builder.py:68 | a known instrument gets its table text, an unknown one its name with underscores as spaces |
| Prompt.MergedAvoid | backend/personalisation_engine/prompt_builder.py:49-57 | a name is avoided exactly when it is in the parameters' avoid list or, when there is a profile, in the profile's `avoid` list |
| Prompt.EmptyProfileIsNoProfile | backend/personalisation_engine/prompt_builder.py:55-60 | a profile without `avoid` and `preferred_instruments` gives the same avoid set and preferences (none) as no profile |
| Prompt.Without | backend/personalisation_engine/prompt_builder.py:63 | filtering keeps exactly the entries outside the excluded set |
| Prompt.WithoutAppend | backend/personalisation_engine/prompt_builder.py:63 | filtering a concatenation is the concatenation of the filtered halves, so order is kept |
| Prompt.InstrumentOrder | backend/personalisation_engine/prompt_builder.py:63 | the order is the preferred instruments as given, then the non-preferred parameter instruments in their order; it holds exactly the preferred and parameter instruments |
| Prompt.KeptInstruments | backend/personalisation_engine/prompt_builder.py:63-68 | no avoided instrument is described; every preferred or parameter instrument that is not avoided is |
| Prompt.Descriptions | backend/personalisation_engine/prompt_builder.py:64-68 | one description per kept instrument, in order |
| Prompt.InstrumentationText | backend/personalisation_engine/prompt_builder.py:70 | with no instrument left to describe the text is "soft ambient pad" (the joined descriptions otherwise; see the two lemmas below) |
| Prompt.InstrumentationFallback | backend/personalisation_engine/prompt_builder.py:70 | when every candidate instrument is avoided (or there are none) the text is "soft ambient pad" |
| Prompt.InstrumentationDescribesKept | backend/personalisation_engine/prompt_builder.py:70 | each kept instrument's description occurs in the instrumentation text |
| Prompt.PromptParts | backend/personalisation_engine/prompt_builder.py:72-83 | the guide, loop, texture, instrumentation and harmony sentences come first; the avoid clause is sixth exactly when the merged avoid set is non-empty; the seed clause is last when there is a seed; the count is 5 plus one for each |
| Prompt.BuildPrompt | backend/personalisation_engine/prompt_builder.py:38-87 | the prompt is the parts joined by spaces and opens with the intent's guide sentence followed by a space |
| Prompt.PromptHasInstrumentation | backend/personalisation_engine/prompt_builder.py:77-85 | the joined prompt always contains the instrumentation clause |
| Prompt.PromptHasSeed | backend/personalisation_engine/prompt_builder.py:82-85 | a prompt with a seed ends with the seed clause |
| Prompt.DefaultsAreImplicit | backend/personalisation_engine/prompt_builder.py:44-52 | a missing key and a key holding its default (stabilizing, 60, warm, sparse, [], [], modal, 0.1) build the same prompt |
| Prompt.DefaultPrompt | backend/personalisation_engine/prompt_builder.py:44-87 | an empty dictionary without a profile gives exactly five sentences with every default and the fallback instrumentation, and no avoid or seed clause |

## Left out

- Mapper.DeterministicSeed: SHA-256 is not modelled. The parameter `hashPrefix` stands for
  the value of the first 16 hex digits of the digest. Only the 32-bit mask and the hashed
  text are modelled.
- Mapper.RuleParams: `round(..., 3)` on the harmonic tension and the stress index (mapper.py:267, 269) is not modelled; both are exact reals.
- Mapper.MapEmotionToParams: `avoid_instruments` is a set. The order of `list(avoid_instruments)` depends on Python's set iteration and is not modelled.
- Mapper.MapEmotionToParams: it requires the state invariant `Valid()`. The constructor
  establishes it and every method keeps it.
- Mapper.MapEmotionToParams: the `user_profile` argument is never read by the source and is left out.
- Mapper.MapEmotionToParams: `label` and `genuine_smile` (mapper.py:112, 124) are computed and
  never used. The constants `BPM_MID` and `BPM_HIGH` are never read.
- Mapper.Module1State.Push: it takes an already clamped reading that has every key. The
  defaults for missing `intensity` and `aus` (mapper.py:57-58) are not modelled, because the
  only caller always passes both.
- Mapper.JitterBpm: it uses exact integer arithmetic, `(seed mod 1000) * 6 div 1000`. It
  agrees with the float computation because `6k/1000` is never within float error of an
  integer unless it equals one.
- Reward.RewardEngine.ShouldExplore: the uniform draw from `random.random()` is a parameter.
- Reward.RewardEngine.UpdateProfile: some cases are not modelled: arguments of the wrong type
  (for example a `None` instruments value), and non-numeric `reward` values. `BAN_CYCLES` and
  the `bans` table are never used by the source. Bans do not expire, and the model keeps
  `bans` unchanged.
- Reward.RewardEngine.ComputeReward: floats are modelled as exact reals, here and everywhere else.
- Prompt.PromptParts: two things are parameters.
  - `avoidOrder` is the order in which the avoid set is iterated. It must list the set once,
    without duplicates.
  - `fmt` stands for the `:.2f` rendering of the tension.
- The demo at prompt_builder.py:89-102, the reward demo's `compute_reward`/`update_profile` calls and their output (its profile literal is `Reward.Profile.constructor`), and all `print` and JSON output are
  left out.
- The code outside `backend/personalisation_engine/` is not part of this model: audio
  generation, the emotion detector, the API and the user interface.

/**
 * The prompt builder of backend/personalisation_engine/prompt_builder.py: it
 * turns a mapper parameter dictionary, and optionally a user profile, into the
 * one-line natural-language prompt handed to the music generator.
 */
module Prompt {
  import opened Common

  /**
   * The keys of the parameter dictionary the builder reads; a missing key is
   * `None` and takes its default (stabilizing, 60, warm, sparse, [], modal,
   * 0.1, no seed).
   */
  datatype PromptParams = PromptParams(
    intent: Option<string>,
    bpm: Option<int>,
    timbre: Option<string>,
    texture: Option<string>,
    instruments: Option<seq<string>>,
    avoidInstruments: Option<seq<string>>,
    mode: Option<string>,
    tension: Option<real>,
    seed: Option<int>)

  /** The two profile keys the builder reads. */
  datatype UserHints = UserHints(avoid: Option<seq<string>>, preferredInstruments: Option<seq<string>>)

  // ---------- lookup tables ----------

  const InstrumentToText: map<string, string> := map[
    "warm_pad" := "warm ambient pad",
    "soft_piano" := "soft felt piano",
    "ethereal_pad" := "ethereal synth pad",
    "bright_pluck" := "bright plucked synth",
    "pad" := "soft ambient pad",
    "soft_pluck" := "soft plucked motif",
    "low_sub_bass" := "subtle low bass"]

  const TextureToDesc: map<string, string> := map[
    "sparse" := "very sparse texture, minimal melodic motion",
    "medium" := "moderately textured arrangement",
    "rich" := "rich layered textures with gentle movement"]

  const TimbreToDesc: map<string, string> := map[
    "dark" := "dark, low-frequency-focused timbre",
    "warm" := "warm, rounded timbre with soft high-end",
    "bright" := "bright timbre with clear high-end presence"]

  const IntentToGuide: map<string, string> := map[
    "calming" := "emphasize de-escalating, grounding qualities; avoid sudden attacks; slow evolution",
    "comforting" := "soft, comforting, slow harmonic motion; emphasize sustain",
    "uplifting" := "gentle uplift—positive harmonic colors, gentle rhythmic drive",
    "stabilizing" := "neutral, stable, unobtrusive background support"]

  /** The fallback instrumentation when every candidate is filtered out. */
  const FallbackInstrumentation: string := "soft ambient pad"

  /** `d.get(key)` formatted into an f-string: a missing entry prints as "None". */
  function Lookup(table: map<string, string>, key: string): string {
    if key in table then table[key] else "None"
  }

  /** `s.replace("_", " ")` */
  function ReplaceUnderscores(s: string): (r: string)
    ensures |r| == |s|
    ensures forall i | 0 <= i < |s| :: r[i] == (if s[i] == '_' then ' ' else s[i])
    ensures '_' !in r
  {
    if s == [] then []
    else [if s[0] == '_' then ' ' else s[0]] + ReplaceUnderscores(s[1..])
  }

  /** The text of one instrument: its table entry, or its name with `_` read as a space. */
  function Describe(name: string): (text: string)
    ensures name in InstrumentToText ==> text == InstrumentToText[name]
    ensures name !in InstrumentToText ==> text == ReplaceUnderscores(name)
  {
    if name in InstrumentToText then InstrumentToText[name] else ReplaceUnderscores(name)
  }

  // ---------- profile hints ----------

  /** The preferred instruments: the profile's list, or none without a profile. */
  function Preferred(profile: Option<UserHints>): seq<string> {
    if profile.Some? then profile.value.preferredInstruments.GetOr([]) else []
  }

  /** The names to avoid: the parameters' list, joined by the profile's `avoid` list when there is a profile. */
  function MergedAvoid(params: PromptParams, profile: Option<UserHints>): (avoid: set<string>)
    ensures forall x :: x in avoid <==>
              x in params.avoidInstruments.GetOr([]) || (profile.Some? && x in profile.value.avoid.GetOr([]))
  {
    SetOf(params.avoidInstruments.GetOr([]))
      + (if profile.Some? then SetOf(profile.value.avoid.GetOr([])) else {})
  }

  /** A profile without hints builds the same prompt inputs as no profile at all. */
  lemma EmptyProfileIsNoProfile(params: PromptParams)
    ensures MergedAvoid(params, Some(UserHints(None, None))) == MergedAvoid(params, None)
    ensures Preferred(Some(UserHints(None, None))) == Preferred(None) == []
  {
    assert SetOf<string>([]) == {};
  }

  // ---------- instrumentation ----------

  /** The entries of `s` outside `excluded`, in order. */
  function Without(s: seq<string>, excluded: set<string>): (r: seq<string>)
    ensures |r| <= |s|
    ensures forall x :: x in r <==> x in s && x !in excluded
  {
    if s == [] then []
    else (if s[0] in excluded then [] else [s[0]]) + Without(s[1..], excluded)
  }

  /** Filtering a concatenation filters each half and keeps their order. */
  lemma {:induction false} WithoutAppend(a: seq<string>, b: seq<string>, excluded: set<string>)
    ensures Without(a + b, excluded) == Without(a, excluded) + Without(b, excluded)
  {
    if a != [] {
      assert (a + b)[1..] == a[1..] + b;
      WithoutAppend(a[1..], b, excluded);
    } else {
      assert a + b == b;
    }
  }

  /**
   * The instrument order: the preferred ones as given, then the parameter
   * instruments that are not preferred, in their own order.
   */
  function InstrumentOrder(preferred: seq<string>, instruments: seq<string>): (order: seq<string>)
    ensures |preferred| <= |order| && order[..|preferred|] == preferred
    ensures order[|preferred|..] == Without(instruments, SetOf(preferred))
    ensures forall x :: x in order <==> x in preferred || x in instruments
  {
    preferred + Without(instruments, SetOf(preferred))
  }

  /** The names that are described: the candidates in order, minus every avoided one. */
  function KeptInstruments(params: PromptParams, profile: Option<UserHints>): (kept: seq<string>)
    ensures forall x | x in kept :: x !in MergedAvoid(params, profile)
    ensures forall x :: x in kept <==>
              (x in Preferred(profile) || x in params.instruments.GetOr([])) && x !in MergedAvoid(params, profile)
  {
    Without(InstrumentOrder(Preferred(profile), params.instruments.GetOr([])), MergedAvoid(params, profile))
  }

  /** Each kept name described, in order. */
  function Descriptions(names: seq<string>): (texts: seq<string>)
    ensures |texts| == |names|
    ensures forall i | 0 <= i < |names| :: texts[i] == Describe(names[i])
  {
    if names == [] then [] else [Describe(names[0])] + Descriptions(names[1..])
  }

  /** The instrumentation text: the descriptions joined by ", ", or the fallback when none are left. */
  function InstrumentationText(params: PromptParams, profile: Option<UserHints>): (text: string)
    ensures KeptInstruments(params, profile) == [] ==> text == FallbackInstrumentation
  {
    var texts := Descriptions(KeptInstruments(params, profile));
    if texts == [] then FallbackInstrumentation else Join(", ", texts)
  }

  /**
   * When every candidate is preferred-and-avoided, avoided, or there are none,
   * the text is the fallback "soft ambient pad".
   */
  lemma InstrumentationFallback(params: PromptParams, profile: Option<UserHints>)
    requires forall x | x in Preferred(profile) || x in params.instruments.GetOr([]) :: x in MergedAvoid(params, profile)
    ensures InstrumentationText(params, profile) == FallbackInstrumentation
  {
    EmptyEnumeration(KeptInstruments(params, profile));
  }

  /** Each kept instrument's description is part of the instrumentation text. */
  lemma InstrumentationDescribesKept(params: PromptParams, profile: Option<UserHints>, i: nat)
    returns (pre: string, post: string)
    requires i < |KeptInstruments(params, profile)|
    ensures InstrumentationText(params, profile) == pre + Describe(KeptInstruments(params, profile)[i]) + post
  {
    pre, post := JoinHasPart(", ", Descriptions(KeptInstruments(params, profile)), i);
  }

  // ---------- the prompt ----------

  function AvoidClause(avoidOrder: seq<string>): string {
    "Avoid: " + Join(", ", avoidOrder) + "."
  }

  function SeedClause(seed: int): string {
    "Use seed " + IntToDecimal(seed) + " for reproducibility."
  }

  function InstrumentationClause(text: string): string {
    "Instrumentation: " + text + "."
  }

  /** The guide sentence for the intent ("None." for an intent outside the table). */
  function GuideSentence(params: PromptParams): string {
    Lookup(IntentToGuide, params.intent.GetOr("stabilizing")) + "."
  }

  /** "Create a <intent> loop at <bpm> bpm, <timbre description>." */
  function LoopSentence(params: PromptParams): string {
    "Create a " + params.intent.GetOr("stabilizing") + " loop at " + IntToDecimal(params.bpm.GetOr(60))
      + " bpm, " + Lookup(TimbreToDesc, params.timbre.GetOr("warm")) + "."
  }

  function TextureSentence(params: PromptParams): string {
    Lookup(TextureToDesc, params.texture.GetOr("sparse")) + "."
  }

  /** "Harmonic mode: <mode>, harmonic tension: <tension with two decimals>." */
  function HarmonySentence(params: PromptParams, fmt: real -> string): string {
    "Harmonic mode: " + params.mode.GetOr("modal") + ", harmonic tension: " + fmt(params.tension.GetOr(0.1)) + "."
  }

  /**
   * `prompt_parts`: the guide, loop, texture, instrumentation and harmony
   * sentences, then the avoid clause exactly when the merged avoid set is
   * non-empty, then the seed clause exactly when there is a seed.
   * `avoidOrder` lists the avoid set in the order the set is iterated, and
   * `fmt` renders the tension with two decimals.
   */
  function PromptParts(params: PromptParams, profile: Option<UserHints>, avoidOrder: seq<string>,
                       fmt: real -> string): (parts: seq<string>)
    requires NoDup(avoidOrder) && SetOf(avoidOrder) == MergedAvoid(params, profile)
    ensures |parts| == 5 + (if MergedAvoid(params, profile) != {} then 1 else 0) + (if params.seed.Some? then 1 else 0)
    ensures parts[..5] == [GuideSentence(params), LoopSentence(params), TextureSentence(params),
                           InstrumentationClause(InstrumentationText(params, profile)), HarmonySentence(params, fmt)]
    ensures MergedAvoid(params, profile) != {} <==> |parts| > 5 && parts[5] == AvoidClause(avoidOrder)
    ensures params.seed.Some? ==> parts[|parts| - 1] == SeedClause(params.seed.value)
  {
    var base := [GuideSentence(params), LoopSentence(params), TextureSentence(params),
                 InstrumentationClause(InstrumentationText(params, profile)), HarmonySentence(params, fmt)];
    var avoidPart := if avoidOrder != [] then [AvoidClause(avoidOrder)] else [];
    EmptyEnumeration(avoidOrder);
    if params.seed.Some? then
      ClausesDiffer(params.seed.value, avoidOrder);
      base + avoidPart + [SeedClause(params.seed.value)]
    else
      base + avoidPart
  }

  /** The seed clause can never be mistaken for the avoid clause. */
  lemma ClausesDiffer(seed: int, avoidOrder: seq<string>)
    ensures SeedClause(seed) != AvoidClause(avoidOrder)
  {
    assert SeedClause(seed)[0] == 'U';
    assert AvoidClause(avoidOrder)[0] == 'A';
  }

  /** A list enumerates the empty set exactly when it is empty. */
  lemma EmptyEnumeration(s: seq<string>)
    ensures s == [] <==> SetOf(s) == {}
  {
    if s != [] {
      assert s[0] in SetOf(s);
    }
  }

  /** `build_prompt`: the parts joined by single spaces; it opens with the guide sentence. */
  function BuildPrompt(params: PromptParams, profile: Option<UserHints>, avoidOrder: seq<string>,
                       fmt: real -> string): (prompt: string)
    requires NoDup(avoidOrder) && SetOf(avoidOrder) == MergedAvoid(params, profile)
    ensures |GuideSentence(params)| < |prompt|
    ensures prompt[..|GuideSentence(params)| + 1] == GuideSentence(params) + " "
  {
    var parts := PromptParts(params, profile, avoidOrder, fmt);
    assert parts[0] == GuideSentence(params);
    Join(" ", parts)
  }

  /** The prompt always carries the instrumentation clause, whatever was filtered out. */
  lemma PromptHasInstrumentation(params: PromptParams, profile: Option<UserHints>, avoidOrder: seq<string>,
                                 fmt: real -> string) returns (pre: string, post: string)
    requires NoDup(avoidOrder) && SetOf(avoidOrder) == MergedAvoid(params, profile)
    ensures BuildPrompt(params, profile, avoidOrder, fmt)
            == pre + InstrumentationClause(InstrumentationText(params, profile)) + post
  {
    pre, post := JoinHasPart(" ", PromptParts(params, profile, avoidOrder, fmt), 3);
  }

  /** A prompt with a seed mentions it, in the clause that closes the prompt. */
  lemma PromptHasSeed(params: PromptParams, profile: Option<UserHints>, avoidOrder: seq<string>,
                      fmt: real -> string) returns (pre: string)
    requires NoDup(avoidOrder) && SetOf(avoidOrder) == MergedAvoid(params, profile)
    requires params.seed.Some?
    ensures BuildPrompt(params, profile, avoidOrder, fmt) == pre + SeedClause(params.seed.value)
  {
    var parts := PromptParts(params, profile, avoidOrder, fmt);
    pre := JoinLast(" ", parts);
  }

  /** The joined string ends with the last part. */
  lemma {:induction false} JoinLast(sep: string, parts: seq<string>) returns (pre: string)
    requires parts != []
    ensures Join(sep, parts) == pre + parts[|parts| - 1]
  {
    if |parts| == 1 {
      pre := "";
    } else {
      var p := JoinLast(sep, parts[1..]);
      pre := parts[0] + sep + p;
    }
  }

  /** The parameter dictionary with every key missing. */
  const NoParams: PromptParams := PromptParams(None, None, None, None, None, None, None, None, None)

  /** The dictionary with every missing key filled in with its default. */
  function WithDefaults(params: PromptParams): PromptParams {
    PromptParams(
      Some(params.intent.GetOr("stabilizing")), Some(params.bpm.GetOr(60)),
      Some(params.timbre.GetOr("warm")), Some(params.texture.GetOr("sparse")),
      Some(params.instruments.GetOr([])), Some(params.avoidInstruments.GetOr([])),
      Some(params.mode.GetOr("modal")), Some(params.tension.GetOr(0.1)), params.seed)
  }

  /** A missing key and a key holding its default build the same prompt. */
  lemma DefaultsAreImplicit(params: PromptParams, profile: Option<UserHints>, avoidOrder: seq<string>,
                            fmt: real -> string)
    requires NoDup(avoidOrder) && SetOf(avoidOrder) == MergedAvoid(params, profile)
    ensures MergedAvoid(WithDefaults(params), profile) == MergedAvoid(params, profile)
    ensures PromptParts(WithDefaults(params), profile, avoidOrder, fmt) == PromptParts(params, profile, avoidOrder, fmt)
  {
    var d := WithDefaults(params);
    assert KeptInstruments(d, profile) == KeptInstruments(params, profile);
  }

  /**
   * An empty parameter dictionary without a profile builds exactly the five
   * sentences: the stabilizing guide, the loop at 60 bpm with the warm timbre,
   * the sparse texture, the fallback instrumentation and the modal harmony at
   * tension 0.1; neither an avoid nor a seed clause.
   */
  lemma DefaultPrompt(fmt: real -> string)
    ensures PromptParts(NoParams, None, [], fmt)
         == [IntentToGuide["stabilizing"] + ".",
             LoopSentence(PromptParams(Some("stabilizing"), Some(60), Some("warm"), None, None, None, None, None, None)),
             TextureToDesc["sparse"] + ".",
             "Instrumentation: " + FallbackInstrumentation + ".",
             HarmonySentence(PromptParams(None, None, None, None, None, None, Some("modal"), Some(0.1), None), fmt)]
  {
    assert SetOf<string>([]) == {};
    var parts := PromptParts(NoParams, None, [], fmt);
    assert KeptInstruments(NoParams, None) == [];
    assert parts == parts[..5];
  }
}

/** Constants and lookup tables shared by every v2 stage. */
module Config {
  import Wrappers

  /** Output frame rate of every rendered clip. */
  const Fps: int := 48

  /** Seconds per image in a segment, and the shortest standalone image. */
  const IdealImageDuration: real := 3.0
  const MinImageDuration: real := 2.0

  /** The two render geometries; `orientation.lower() == "portrait"` picks
      the first. */
  datatype Geometry = Portrait | Landscape

  /** Width and height of the rendered frame. */
  function OutputSize(g: Geometry): (wh: (int, int))
    ensures wh.0 > 0 && wh.1 > 0
    ensures g.Portrait? <==> wh.0 < wh.1
  {
    match g
    case Portrait => (1080, 1920)
    case Landscape => (1920, 1080)
  }

  /** The upscaled input frame fed to zoompan: exactly twice the output in
      each dimension, so zooming never interpolates below output size. */
  function OverscaleSize(g: Geometry): (wh: (int, int))
    ensures wh.0 == 2 * OutputSize(g).0 && wh.1 == 2 * OutputSize(g).1
  {
    match g
    case Portrait => (2160, 3840)
    case Landscape => (3840, 2160)
  }

  /** An insertion-ordered dictionary, as Python's `dict`. */
  type Table = seq<(string, string)>

  function Keys(t: Table): (ks: seq<string>)
    ensures |ks| == |t|
    ensures forall i :: 0 <= i < |t| ==> ks[i] == t[i].0
  {
    seq(|t|, i requires 0 <= i < |t| => t[i].0)
  }

  /** The value stored under `k`. The tables have distinct keys, so the
      first matching entry is the only one. */
  function Lookup(t: Table, k: string): (v: Wrappers.Option<string>)
    ensures v.None? <==> k !in Keys(t)
    ensures v.Some? ==> exists i :: 0 <= i < |t| && t[i] == (k, v.value)
  {
    if |t| == 0 then Wrappers.None
    else if t[0].0 == k then Wrappers.Some(t[0].1)
    else
      var rest := Lookup(t[1..], k);
      assert Keys(t) == [t[0].0] + Keys(t[1..]);
      if rest.Some? then
        var j :| 0 <= j < |t[1..]| && t[1..][j] == (k, rest.value);
        assert t[j + 1] == (k, rest.value);
        rest
      else rest
  }

  const VoiceActors: Table := [
    ("american_male_narrator", "Dslrhjl3ZpzrctukrQSN"),
    ("american_male_conversationalist", "Dslrhjl3ZpzrctukrQSN"),
    ("american_female_conversationalist", "tnSpp4vdxKPjI9w0GnoV"),
    ("british_male_narrator", "giAoKpl5weRTCJK7uB9b"),
    ("british_female_narrator", "1hlpeD1ydbI2ow0Tt3EW"),
    ("american_male_story_teller", "uju3wxzG5OhpWcoi3SMy"),
    ("american_female_narrator", "yj30vwTGJxSHezdAGsv9"),
    ("american_female_media_influencer", "kPzsL2i3teMYv0FxEYQ6"),
    ("american_female_media_influencer_2", "S9NKLs1GeSTKzXd9D0Lf")
  ]

  /** `list(VOICE_ACTORS.keys())`. */
  const VoiceActorNames: seq<string> := Keys(VoiceActors)

  /** Every listed voice name resolves to a voice id. */
  lemma VoiceActorNamesResolve()
    ensures |VoiceActorNames| == 9
    ensures forall i :: 0 <= i < |VoiceActorNames| ==> Lookup(VoiceActors, VoiceActorNames[i]).Some?
  {
  }

  /** Provider name to default model. */
  const LlmModels: Table := [
    ("google", "gemini-2.5-pro"),
    ("openai", "gpt-4o"),
    ("anthropic", "claude-sonnet-4-20250514"),
    ("xai", "grok-3-latest"),
    ("deepseek", "deepseek-chat")
  ]

  /** Provider name to the LangChain provider string. */
  const LlmProviderMap: Table := [
    ("google", "google-genai"),
    ("openai", "openai"),
    ("anthropic", "anthropic"),
    ("xai", "xai"),
    ("deepseek", "deepseek")
  ]

  /** Every provider with a default model has a LangChain mapping and vice
      versa. */
  lemma ProvidersAgree(p: string)
    ensures Lookup(LlmModels, p).Some? <==> Lookup(LlmProviderMap, p).Some?
  {
    assert Keys(LlmModels) == Keys(LlmProviderMap);
  }

  /** The motion effects offered, and the default alternation. */
  const MotionPatterns: seq<string> := ["zoom_in", "zoom_out", "pan_right", "pan_left", "ken_burns"]
  const DefaultMotionPattern: seq<string> := ["zoom_in", "zoom_out"]

  lemma DefaultPatternOffered()
    ensures |DefaultMotionPattern| > 0
    ensures forall m :: m in DefaultMotionPattern ==> m in MotionPatterns
  {
  }

  lemma ImageDurationsOrdered()
    ensures 0.0 < MinImageDuration < IdealImageDuration
  {
  }
}

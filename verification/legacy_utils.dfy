/** The first-generation helpers: still-image generation requests, the
    motion schedule of an animated clip, stripping a fenced JSON reply,
    and choosing the model a provider is called with. Provider calls and
    FFmpeg are left to the services; what is modelled is which requests
    are made and with what. */
module LegacyUtils {
  import opened Wrappers
  import opened PyText
  import opened Media
  import ImageGenerator

  // ---------------------------------------------------------------------
  // generate_image
  // ---------------------------------------------------------------------

  /** The descriptions argument: one text or a list. */
  datatype DescriptionsArg = OneDescription(text: string) | DescriptionList(texts: seq<string>)

  /** The paths argument: one `Path`, a list, or a plain string, which is
      not wrapped and so is read one character at a time. */
  datatype PathsArg = OnePath(path: Path) | PathList(paths: seq<Path>) | PathText(text: string)

  function DescriptionsOf(a: DescriptionsArg): (ds: seq<string>)
    ensures a.OneDescription? ==> ds == [a.text]
    ensures a.DescriptionList? ==> ds == a.texts
  {
    match a
    case OneDescription(t) => [t]
    case DescriptionList(ts) => ts
  }

  /** The paths the loop indexes: a plain string gives its characters. */
  function PathsOf(a: PathsArg): (ps: seq<Path>)
    ensures a.OnePath? ==> ps == [a.path]
    ensures a.PathList? ==> ps == a.paths
    ensures a.PathText? ==> |ps| == |a.text| && forall i :: 0 <= i < |ps| ==> ps[i] == [a.text[i]]
  {
    match a
    case OnePath(p) => [p]
    case PathList(ps) => ps
    case PathText(t) => seq(|t|, (i: int) requires 0 <= i < |t| => [t[i]])
  }

  /** One image request: the provider's client, model, prompt, shape and
      the file the image is written to. */
  datatype ImageRequest =
    | GoogleImage(model: string, prompt: string, aspectRatio: string, target: Path)
    | OpenAIImage(model: string, prompt: string, quality: string, size: string, target: Path)

  function RequestFor(provider: string, orientation: string, prompt: string, target: Path): Option<ImageRequest> {
    if provider == "google" then
      Some(GoogleImage("imagen-4.0-ultra-generate-001", prompt, if orientation == "landscape" then "16:9" else "9:16", target))
    else if provider == "openai" then
      Some(OpenAIImage("gpt-image-1", prompt, "low", if orientation == "landscape" then "1536x1024" else "1024x1536", target))
    else None
  }

  /** `generate_image`: after wrapping, the two lists must have the same
      length; then image `i` is requested from `descriptions[i]` and written
      to `paths[i]`. A provider that is neither "google" nor "openai"
      requests nothing. */
  function GenerateImage(descriptions: DescriptionsArg, paths: PathsArg, provider: string, orientation: string)
    : (r: Result<seq<ImageRequest>, string>)
    ensures r.Failure? <==> |DescriptionsOf(descriptions)| != |PathsOf(paths)|
    ensures r.Failure? ==> r.error == "Image descriptions and image paths must have the same length."
    ensures r.Success? && (provider == "google" || provider == "openai") ==>
      |r.value| == |PathsOf(paths)|
      && forall i :: 0 <= i < |r.value| ==>
           Some(r.value[i]) == RequestFor(provider, orientation, DescriptionsOf(descriptions)[i], PathsOf(paths)[i])
    ensures r.Success? && provider != "google" && provider != "openai" ==> r.value == []
  {
    var ds := DescriptionsOf(descriptions);
    var ps := PathsOf(paths);
    if |ds| != |ps| then Failure("Image descriptions and image paths must have the same length.")
    else if provider != "google" && provider != "openai" then Success([])
    else Success(seq(|ds|, (i: int) requires 0 <= i < |ds| => RequestFor(provider, orientation, ds[i], ps[i]).value))
  }

  /** Each request has the provider's shape for the orientation: wide
      exactly when the orientation is the lower-case "landscape". */
  lemma ImageShapeFollowsOrientation(provider: string, orientation: string, prompt: string, target: Path)
    requires provider == "google" || provider == "openai"
    ensures var q := RequestFor(provider, orientation, prompt, target);
      q.Some? && q.value.prompt == prompt && q.value.target == target
      && (q.value.GoogleImage? <==> provider == "google")
      && (q.value.GoogleImage? ==> (q.value.aspectRatio == "16:9" <==> orientation == "landscape"))
      && (q.value.OpenAIImage? ==> (q.value.size == "1536x1024" <==> orientation == "landscape"))
  {
  }

  /** A single description and a single `Path` always pair up; a single
      description and a plain-string path pair up only when that string is
      one character long. */
  lemma SingleArgumentsPair(d: string, p: Path)
    ensures GenerateImage(OneDescription(d), OnePath(p), "openai", "portrait").Success?
    ensures GenerateImage(OneDescription(d), PathText(p), "openai", "portrait").Success? <==> |p| == 1
  {
  }

  // ---------------------------------------------------------------------
  // animate_with_motion_effect
  // ---------------------------------------------------------------------

  /** The pattern argument: one style name or a list. */
  datatype PatternArg = OneStyle(name: string) | StyleList(names: seq<string>)

  function PatternOf(a: PatternArg): (p: seq<string>)
    ensures a.OneStyle? ==> p == [a.name]
    ensures a.StyleList? ==> p == a.names
  {
    match a
    case OneStyle(n) => [n]
    case StyleList(ns) => ns
  }

  /** The rendered frame size: tall exactly for "portrait". */
  function OutputSize(orientation: string): (s: string)
    ensures s == "1080x1920" <==> orientation == "portrait"
  {
    if orientation == "portrait" then "1080x1920" else "1920x1080"
  }

  /** What the clip is built from: the shots in order and the frame size. */
  datatype Animation = Animation(shots: seq<ImageGenerator.Shot>, size: string)

  /** `animate_with_motion_effect`: after wrapping the single-path and
      single-style arguments, image `i` uses pattern entry `start + i`
      (cyclically) and shows for the last duration when its path equals the
      last path, exactly as the pipeline's own animation step does. */
  function AnimateWithMotionEffect(paths: PathsArg, ideal: real, last: real, pattern: PatternArg, start: nat,
                                   orientation: string): (r: Result<Animation, ImageGenerator.AnimError>)
    ensures var sched := ImageGenerator.MotionScheduleAsWritten(PathsOf(paths), ideal, last, PatternOf(pattern), start);
      (r.Success? <==> sched.Success?)
      && (r.Success? ==> r.value.shots == sched.value && r.value.size == OutputSize(orientation))
      && (r.Failure? ==> r.error == sched.error)
  {
    var sched := ImageGenerator.MotionScheduleAsWritten(PathsOf(paths), ideal, last, PatternOf(pattern), start);
    if sched.Failure? then Failure(sched.error) else Success(Animation(sched.value, OutputSize(orientation)))
  }

  /** The default single style is always known, so a one-style clip
      schedules every image, each with that style. */
  lemma DefaultStyleSchedules(paths: seq<Path>, ideal: real, last: real, start: nat, orientation: string)
    ensures var r := AnimateWithMotionEffect(PathList(paths), ideal, last, OneStyle("ken_burns"), start, orientation);
      r.Success? && |r.value.shots| == |paths|
      && forall i :: 0 <= i < |paths| ==> r.value.shots[i].motion == "ken_burns"
  {
    var r := AnimateWithMotionEffect(PathList(paths), ideal, last, OneStyle("ken_burns"), start, orientation);
    assert ImageGenerator.KnownMotions(["ken_burns"], start, |paths|) by {
      forall i | 0 <= i < |paths|
        ensures ImageGenerator.MotionAt(["ken_burns"], start, i) in ImageGenerator.ZoompanStyles
      {
      }
    }
  }

  /** A clip's expected length, as the source reports it: every image but
      one at the ideal duration, one at the last duration. */
  function ExpectedDuration(n: nat, ideal: real, last: real): real
    requires n >= 1
  {
    (n - 1) as real * ideal + last
  }

  /** With distinct paths the shots add up to the expected length. */
  lemma ScheduledLengthMatchesExpected(paths: seq<Path>, ideal: real, last: real, pattern: PatternArg, start: nat,
                                       orientation: string)
    requires |paths| >= 1
    requires forall i :: 0 <= i < |paths| - 1 ==> paths[i] != paths[|paths| - 1]
    requires AnimateWithMotionEffect(PathList(paths), ideal, last, pattern, start, orientation).Success?
    ensures ImageGenerator.Sum(ImageGenerator.Durations(
      AnimateWithMotionEffect(PathList(paths), ideal, last, pattern, start, orientation).value.shots))
      == ExpectedDuration(|paths|, ideal, last)
  {
    ImageGenerator.RulesAgreeOnDistinctLast(paths, ideal, last, PatternOf(pattern), start);
    ImageGenerator.ScheduleLength(paths, ideal, last, PatternOf(pattern), start);
  }

  // ---------------------------------------------------------------------
  // extract_json_from_fence
  // ---------------------------------------------------------------------

  const JsonFence: string := "```json"
  const Fence: string := "```"

  predicate StartsWith(s: string, p: string) {
    |p| <= |s| && s[..|p|] == p
  }

  predicate EndsWith(s: string, p: string) {
    |p| <= |s| && s[|s| - |p|..] == p
  }

  /** Where the reply begins once a leading "```json" and the whitespace
      after it are removed. */
  function FenceStart(t: string): (a: nat)
    ensures a <= |t|
    ensures !StartsWith(t, JsonFence) ==> a == 0
    ensures StartsWith(t, JsonFence) ==> a >= 7 && forall j :: 7 <= j < a ==> IsSpace(t[j])
  {
    if StartsWith(t, JsonFence) then SkipSpaces(t, 7) else 0
  }

  /** Where the reply ends once the whitespace and "```" at its very end are
      removed; a closing fence inside the removed opening one does not
      count, since the two removals cannot overlap. */
  function FenceEnd(t: string, a: nat): (b: nat)
    requires a <= |t|
    ensures a <= b <= |t|
    ensures !(EndsWith(t, Fence) && |t| - 3 >= a) ==> b == |t|
    ensures EndsWith(t, Fence) && |t| - 3 >= a ==> b <= |t| - 3 && forall j :: b <= j < |t| - 3 ==> IsSpace(t[j])
  {
    if EndsWith(t, Fence) && |t| - 3 >= a then BackSpaces(t, a, |t| - 3) else |t|
  }

  /** `extract_json_from_fence`: the stripped text without its opening
      "```json" fence and its closing "```" fence, each with the whitespace
      next to it. */
  function ExtractJsonFromFence(text: string): (r: string)
    ensures var t := Strip(text);
      var a := FenceStart(t);
      a <= |t| && r == t[a..FenceEnd(t, a)]
    ensures !StartsWith(Strip(text), JsonFence) && !EndsWith(Strip(text), Fence) ==> r == Strip(text)
  {
    var t := Strip(text);
    var a := FenceStart(t);
    t[a..FenceEnd(t, a)]
  }

  /** Text that neither starts nor ends with whitespace is its own strip. */
  lemma StripTight(s: string)
    requires |s| > 0 && !IsSpace(s[0]) && !IsSpace(s[|s| - 1])
    ensures Strip(s) == s
  {
    assert Lead(s) == 0;
  }

  /** A body wrapped in a fenced block with a newline on each side comes
      back unchanged. */
  lemma FenceRoundTrip(body: string)
    requires |body| > 0 && !IsSpace(body[0]) && !IsSpace(body[|body| - 1])
    ensures ExtractJsonFromFence(JsonFence + "\n" + body + "\n" + Fence) == body
  {
    var t := JsonFence + "\n" + body + "\n" + Fence;
    assert t[0] == '`' && t[|t| - 1] == '`';
    StripTight(t);
    assert StartsWith(t, JsonFence) by {
      assert t[..7] == JsonFence;
    }
    assert t[7] == '\n' && t[8] == body[0];
    assert FenceStart(t) == 8;
    assert EndsWith(t, Fence) by {
      assert t[|t| - 3..] == Fence;
    }
    assert t[|t| - 4] == '\n' && t[|t| - 5] == body[|body| - 1];
    assert FenceEnd(t, 8) == |t| - 4;
    assert t[8..|t| - 4] == body;
  }

  /** Removing the fences once is enough: the result of stripping an
      already unfenced reply is that reply, when it neither starts nor ends
      with whitespace or a fence. */
  lemma UnfencedIsFixed(s: string)
    requires |s| > 0 && !IsSpace(s[0]) && !IsSpace(s[|s| - 1])
    requires !StartsWith(s, JsonFence) && !EndsWith(s, Fence)
    ensures ExtractJsonFromFence(s) == s
  {
    StripTight(s);
  }

  // ---------------------------------------------------------------------
  // invoke_llm
  // ---------------------------------------------------------------------

  /** The providers the first-generation helpers know. */
  datatype Provider = OpenAI | Anthropic | Gemini | Xai | DeepSeek

  /** The model each provider falls back to. */
  function DefaultModel(p: Provider): string {
    match p
    case OpenAI => "gpt-4o"
    case Anthropic => "claude-4-opus-20250514"
    case Gemini => "gemini-2.5-pro"
    case Xai => ""
    case DeepSeek => ""
  }

  /** The model used: the one given, unless it is missing or empty. */
  function ChosenModel(p: Provider, model: Option<string>): (m: string)
    ensures model.Some? && |model.value| > 0 ==> m == model.value
    ensures model.None? || model == Some("") ==> m == DefaultModel(p)
  {
    if model.None? || |model.value| == 0 then DefaultModel(p) else model.value
  }

  /** The call made: which client, and the model it is given (the xAI
      client is not given one). */
  datatype LlmCall = LlmCall(client: Provider, model: Option<string>)

  /** `invoke_llm`: DeepSeek makes no call and answers the empty text; every
      other provider's client is called and its reply returned. */
  function InvokeLlm(p: Provider, model: Option<string>, reply: LlmCall -> string): (out: string)
    ensures p.DeepSeek? ==> out == ""
    ensures p.OpenAI? || p.Anthropic? || p.Gemini? ==> out == reply(LlmCall(p, Some(ChosenModel(p, model))))
    ensures p.Xai? ==> out == reply(LlmCall(Xai, None))
  {
    match p
    case DeepSeek => ""
    case Xai => reply(LlmCall(Xai, None))
    case _ => reply(LlmCall(p, Some(ChosenModel(p, model))))
  }

  /** Without an explicit model the provider's default is used, and it is
      never empty for the providers that pass a model on. */
  lemma DefaultModelUsed(p: Provider, reply: LlmCall -> string)
    requires p.OpenAI? || p.Anthropic? || p.Gemini?
    ensures InvokeLlm(p, None, reply) == reply(LlmCall(p, Some(DefaultModel(p))))
    ensures |DefaultModel(p)| > 0
  {
  }
}

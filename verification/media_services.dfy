/** `VideoGenerationService.generate_video`: the provider dispatch, the
    output check and the retry policy around it, and the request parameters
    the providers derive from duration and orientation. The HTTP submission,
    polling and download are one abstract call per try. */
module VideoService {
  import opened Wrappers
  import opened PyText
  import opened Media
  import opened Retry

  /** The providers the dispatch knows. */
  predicate KnownVideoProvider(p: string) {
    p == "runway" || p == "luma" || p == "kling"
  }

  /** What one provider call did: it wrote the output file (of the given
      size, 0 when missing or empty), or it raised. `valueError` marks a
      `ValueError`, which the loop re-raises instead of retrying. */
  datatype CallOutcome = Wrote(size: nat) | Raised(valueError: bool, message: string)

  /** The two exceptions `generate_video` lets out. */
  datatype ServiceError = ValueError(message: string) | RuntimeError(message: string)

  function UnknownProviderMessage(p: string): string {
    "Unknown video provider: '" + p + "'. Supported: runway, luma, kling"
  }

  const EmptyOutputMessage: string := "Output file is missing or empty after generation"

  /** One try, classified for the retry loop: an unknown provider and a
      provider's own `ValueError` end the loop; a missing or empty output
      file and every other error are retried. */
  function VideoTry(provider: string, call: nat -> CallOutcome, attempt: nat): (t: Try)
    ensures !KnownVideoProvider(provider) ==> t == Fatal(UnknownProviderMessage(provider))
    ensures KnownVideoProvider(provider) ==>
      (t.Succeeded? <==> call(attempt).Wrote? && call(attempt).size > 0)
    ensures KnownVideoProvider(provider) && call(attempt).Wrote? && call(attempt).size == 0 ==>
      t == Retryable(EmptyOutputMessage)
    ensures KnownVideoProvider(provider) && call(attempt).Raised? ==>
      t == (if call(attempt).valueError then Fatal(call(attempt).message) else Retryable(call(attempt).message))
  {
    if !KnownVideoProvider(provider) then Fatal(UnknownProviderMessage(provider))
    else
      match call(attempt)
      case Wrote(n) => if n > 0 then Succeeded else Retryable(EmptyOutputMessage)
      case Raised(ve, m) => if ve then Fatal(m) else Retryable(m)
  }

  /** The result, the number of tries entered and the sleeps taken. */
  datatype VideoRun = VideoRun(result: Result<Path, ServiceError>, tries: nat, sleeps: seq<nat>)

  /** `generate_video`: `output` is the uuid-named file the call writes and
      `call(k)` what try `k` did. */
  function GenerateVideo(provider: string, output: Path, call: nat -> CallOutcome): (r: VideoRun)
    ensures 1 <= r.tries <= MaxTries && r.sleeps == Backoffs[..r.tries - 1]
    ensures !KnownVideoProvider(provider) ==>
      r == VideoRun(Failure(ValueError(UnknownProviderMessage(provider))), 1, [])
    ensures KnownVideoProvider(provider) ==>
      forall j :: 0 <= j < r.tries - 1 ==> !(call(j).Wrote? && call(j).size > 0) && !(call(j).Raised? && call(j).valueError)
    ensures r.result.Success? ==>
      r.result.value == output && call(r.tries - 1).Wrote? && call(r.tries - 1).size > 0
    ensures r.result.Failure? && r.result.error.RuntimeError? ==> r.tries == MaxTries
  {
    var run := RunRetry((k: nat) => VideoTry(provider, call, k));
    var result := match run.ending
      case Won(_) => Success(output)
      case Aborted(_, m) => Failure(ValueError(m))
      case Exhausted(e) =>
        Failure(RuntimeError("Video generation failed after 3 attempts (provider=" + provider + "): " + e));
    VideoRun(result, run.tries, run.sleeps)
  }

  /** The call succeeds exactly when some try writes a non-empty file
      before any try raises a `ValueError` and within three tries. */
  lemma VideoSucceedsIff(provider: string, output: Path, call: nat -> CallOutcome)
    requires KnownVideoProvider(provider)
    ensures GenerateVideo(provider, output, call).result.Success?
      <==> exists k :: 0 <= k < MaxTries && GoodTry(call(k)) && forall j :: 0 <= j < k ==> Retried(call(j))
  {
    if GenerateVideo(provider, output, call).result.Success? {
      SuccessHasGoodTry(provider, output, call);
    } else {
      NoSuccessNoGoodTry(provider, output, call);
    }
  }

  lemma SuccessHasGoodTry(provider: string, output: Path, call: nat -> CallOutcome)
    requires KnownVideoProvider(provider) && GenerateVideo(provider, output, call).result.Success?
    ensures var k := GenerateVideo(provider, output, call).tries - 1;
      0 <= k < MaxTries && GoodTry(call(k)) && forall j :: 0 <= j < k ==> Retried(call(j))
  {
    ClassifiesVideo(provider, call);
  }

  lemma NoSuccessNoGoodTry(provider: string, output: Path, call: nat -> CallOutcome)
    requires KnownVideoProvider(provider) && !GenerateVideo(provider, output, call).result.Success?
    ensures forall k :: 0 <= k < MaxTries && GoodTry(call(k)) ==> exists j :: 0 <= j < k && !Retried(call(j))
  {
    var classify := (k: nat) => VideoTry(provider, call, k);
    ClassifiesVideo(provider, call);
    ExhaustedIff(classify);
    forall k | 0 <= k < MaxTries && GoodTry(call(k))
      ensures exists j :: 0 <= j < k && !Retried(call(j))
    {
      if forall j :: 0 <= j < k ==> Retried(call(j)) {
        assert false;
      }
    }
  }

  /** For a known provider, the loop's classification of a try agrees with
      `GoodTry` and `Retried`. */
  lemma ClassifiesVideo(provider: string, call: nat -> CallOutcome)
    requires KnownVideoProvider(provider)
    ensures forall k: nat :: (VideoTry(provider, call, k).Succeeded? <==> GoodTry(call(k)))
                          && (VideoTry(provider, call, k).Retryable? <==> Retried(call(k)))
  {
  }

  /** The call gives up with a `RuntimeError` exactly when all three tries
      fail in a way that is retried, and the error carries the third try's
      error. */
  lemma VideoGivesUpIff(provider: string, output: Path, call: nat -> CallOutcome)
    requires KnownVideoProvider(provider)
    ensures var r := GenerateVideo(provider, output, call);
      (r.result.Failure? && r.result.error.RuntimeError? <==> forall j :: 0 <= j < MaxTries ==> Retried(call(j)))
      && (r.result.Failure? && r.result.error.RuntimeError? ==>
            r.result.error.message
            == "Video generation failed after 3 attempts (provider=" + provider + "): " + RetriedMessage(call(2)))
  {
    var classify := (k: nat) => VideoTry(provider, call, k);
    ExhaustedIff(classify);
  }

  /** A try that wrote a non-empty output file. */
  predicate GoodTry(c: CallOutcome) {
    c.Wrote? && c.size > 0
  }

  /** A try whose failure the loop retries. */
  predicate Retried(c: CallOutcome) {
    (c.Wrote? && c.size == 0) || (c.Raised? && !c.valueError)
  }

  /** The error a retried try leaves as the last error. */
  function RetriedMessage(c: CallOutcome): string {
    if c.Wrote? then EmptyOutputMessage else c.message
  }

  // ---------------------------------------------------------------------
  // Request parameters
  // ---------------------------------------------------------------------

  /** The aspect ratio all three providers ask for. */
  function VideoRatio(orientation: string): (r: string)
    ensures r == "9:16" <==> Lower(orientation) == "portrait"
    ensures r == "9:16" || r == "16:9"
  {
    if Lower(orientation) == "portrait" then "9:16" else "16:9"
  }

  /** The Runway payload: prompt, model, duration capped at 10 s, ratio, and
      the base image when one is given and exists. */
  datatype RunwayPayload = RunwayPayload(promptText: string, model: string, duration: int, ratio: string,
                                         promptImage: Option<string>)

  function RunwayRequest(prompt: string, duration: int, orientation: string, image: Option<Path>,
                         exists_: Path -> bool, imageUri: Path -> string): (p: RunwayPayload)
    ensures p.duration <= 10 && p.duration <= duration && (p.duration == duration || p.duration == 10)
    ensures p.ratio == VideoRatio(orientation) && p.promptText == prompt && p.model == "gen3a_turbo"
    ensures p.promptImage.Some? <==> image.Some? && exists_(image.value)
  {
    RunwayPayload(prompt, "gen3a_turbo", if duration < 10 then duration else 10, VideoRatio(orientation),
                  if image.Some? && exists_(image.value) then Some(imageUri(image.value)) else None)
  }
}

/** `ImageService`: the ordered fan-out over descriptions, the per-image
    retry loop and the size each provider requests. */
module ImageService {
  import opened Wrappers
  import opened PyText
  import opened Media
  import opened Retry
  import VideoService

  predicate KnownImageProvider(p: string) {
    p == "google" || p == "openai" || p == "flux"
  }

  function UnknownImageMessage(p: string): string {
    "Unknown image provider: " + p
  }

  function EmptyBytesMessage(p: string): string {
    "Provider " + p + " returned empty bytes"
  }

  /** One try of `_generate_single`. `call(k)` is the number of bytes try
      `k` returned (0 for `None` or empty bytes) or the error it raised.
      Every error is retried, the unknown-provider `ValueError` included. */
  function ImageTry(provider: string, call: nat -> Result<nat, string>, attempt: nat): (t: Try)
    ensures !t.Fatal?
    ensures t.Succeeded? <==> KnownImageProvider(provider) && call(attempt).Success? && call(attempt).value > 0
    ensures !KnownImageProvider(provider) ==> t == Retryable(UnknownImageMessage(provider))
  {
    if !KnownImageProvider(provider) then Retryable(UnknownImageMessage(provider))
    else
      match call(attempt)
      case Success(n) => if n > 0 then Succeeded else Retryable(EmptyBytesMessage(provider))
      case Failure(m) => Retryable(m)
  }

  /** The per-image result: the number of bytes saved, or the `RuntimeError`
      message; with the tries entered and the sleeps taken. */
  datatype SingleRun = SingleRun(result: Result<nat, string>, tries: nat, sleeps: seq<nat>)

  function FailedMessage(provider: string, last: string): string {
    "Image generation failed after 3 attempts (" + provider + "): " + last
  }

  /** `_generate_single`. */
  function GenerateSingle(provider: string, call: nat -> Result<nat, string>): (r: SingleRun)
    ensures 1 <= r.tries <= MaxTries && r.sleeps == Backoffs[..r.tries - 1]
    ensures r.result.Success? ==>
      (KnownImageProvider(provider) && call(r.tries - 1) == Success(r.result.value) && r.result.value > 0)
    ensures r.result.Failure? ==> r.tries == MaxTries && r.sleeps == Backoffs
    ensures !KnownImageProvider(provider) ==>
      r == SingleRun(Failure(FailedMessage(provider, UnknownImageMessage(provider))), MaxTries, Backoffs)
  {
    var classify := (k: nat) => ImageTry(provider, call, k);
    var run := RunRetry(classify);
    var result := match run.ending
      case Won(k) => Success(call(k).value)
      case Aborted(_, m) => Failure(m)
      case Exhausted(e) => Failure(FailedMessage(provider, e));
    if !KnownImageProvider(provider) then
      ExhaustedIff(classify);
      SingleRun(result, run.tries, run.sleeps)
    else SingleRun(result, run.tries, run.sleeps)
  }

  /** A single image succeeds exactly when some try returns bytes before
      three tries have failed. */
  lemma SingleSucceedsIff(provider: string, call: nat -> Result<nat, string>)
    ensures GenerateSingle(provider, call).result.Success?
      <==> KnownImageProvider(provider) && exists k :: 0 <= k < MaxTries && call(k).Success? && call(k).value > 0
  {
    var classify := (k: nat) => ImageTry(provider, call, k);
    ExhaustedIff(classify);
    if KnownImageProvider(provider) && exists k :: 0 <= k < MaxTries && call(k).Success? && call(k).value > 0 {
      var k :| 0 <= k < MaxTries && call(k).Success? && call(k).value > 0;
      assert !classify(k).Retryable?;
    }
  }

  /** `generate_images`: description `i` is saved under `pathFor(i)` (the
      uuid name), its tries given by `call(i, k)`. The paths come back one
      per description, in description order; a failed image fails the whole
      call with that image's error. */
  function GenerateImages(descriptions: seq<string>, provider: string, pathFor: nat -> Path,
                          call: (nat, nat) -> Result<nat, string>): (r: Result<seq<Path>, string>)
    ensures r.Success? <==> forall i :: 0 <= i < |descriptions| ==> SingleOf(provider, call, i).result.Success?
    ensures r.Success? ==> |r.value| == |descriptions| && forall i :: 0 <= i < |r.value| ==> r.value[i] == pathFor(i)
    ensures r.Failure? ==>
      (exists i :: 0 <= i < |descriptions| && SingleOf(provider, call, i).result == Failure(r.error))
  {
    var single := (j: nat) => SingleOf(provider, call, j).result;
    assert forall j: nat :: single(j) == SingleOf(provider, call, j).result;
    ImagesFrom(single, pathFor, |descriptions|, 0)
  }

  /** The paths of the images from position `i` to `n`, in order, where
      `single(j)` is image `j`'s outcome; the first failure in that order
      is the call's error. */
  function ImagesFrom(single: nat -> Result<nat, string>, pathFor: nat -> Path, n: nat, i: nat)
    : (r: Result<seq<Path>, string>)
    requires i <= n
    ensures r.Success? <==> forall j :: i <= j < n ==> single(j).Success?
    ensures r.Success? ==> |r.value| == n - i && forall k :: 0 <= k < |r.value| ==> r.value[k] == pathFor(i + k)
    ensures r.Failure? ==> exists j :: i <= j < n && single(j) == Failure(r.error)
    decreases n - i
  {
    if i == n then Success([])
    else if single(i).Failure? then Failure(single(i).error)
    else
      var rest := ImagesFrom(single, pathFor, n, i + 1);
      if rest.Failure? then rest
      else
        var v := [pathFor(i)] + rest.value;
        assert forall k :: 1 <= k < |v| ==> v[k] == rest.value[k - 1] && i + k == i + 1 + (k - 1);
        Success(v)
  }

  /** The run for description `i`. */
  function SingleOf(provider: string, call: (nat, nat) -> Result<nat, string>, i: nat): SingleRun {
    GenerateSingle(provider, (k: nat) => call(i, k))
  }

  /** The Google aspect ratio and the OpenAI size test for "landscape";
      the Flux size and the video ratio test for "portrait" (see
      `OrientationAgreement`). */
  function GoogleAspect(orientation: string): (a: string)
    ensures a == "16:9" <==> Lower(orientation) == "landscape"
    ensures a == "16:9" || a == "9:16"
  {
    if Lower(orientation) == "landscape" then "16:9" else "9:16"
  }

  function OpenAiSize(orientation: string): (sz: string)
    ensures sz == "1536x1024" <==> Lower(orientation) == "landscape"
    ensures sz == "1536x1024" || sz == "1024x1536"
  {
    if Lower(orientation) == "landscape" then "1536x1024" else "1024x1536"
  }

  /** Width and height. */
  function FluxSize(orientation: string): (wh: (nat, nat))
    ensures wh == (1088, 1920) <==> Lower(orientation) == "portrait"
    ensures wh == (1088, 1920) || wh == (1920, 1088)
  {
    if Lower(orientation) == "portrait" then (1088, 1920) else (1920, 1088)
  }

  /** Every provider frames "portrait" tall and "landscape" wide, in any
      letter case; an orientation that is neither is tall for the Google
      and OpenAI image calls but wide for Flux and the video providers. */
  lemma OrientationAgreement(orientation: string)
    ensures var tallGoogle := GoogleAspect(orientation) == "9:16";
      var tallOpenAi := OpenAiSize(orientation) == "1024x1536";
      var tallFlux := FluxSize(orientation).0 < FluxSize(orientation).1;
      var tallVideo := VideoService.VideoRatio(orientation) == "9:16";
      tallGoogle == tallOpenAi && tallFlux == tallVideo
      && (Lower(orientation) == "portrait" ==> tallGoogle && tallFlux)
      && (Lower(orientation) == "landscape" ==> !tallGoogle && !tallFlux)
      && (Lower(orientation) != "portrait" && Lower(orientation) != "landscape" ==> tallGoogle && !tallFlux)
  {
  }
}

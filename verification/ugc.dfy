/** The UGC product-review pipeline (`UGCPipeline`): reference videos and
    product photos in, a narrated short video of the product out. It runs
    the step machine of `Steps` over abstract service calls; the only
    pipeline-specific logic is the scene-to-clip mapping of its two clip
    back ends and the single-image plans it hands to the assembler. */
module Ugc {
  import opened Wrappers
  import opened PyText
  import opened PyNum
  import opened Media
  import opened Steps
  import ElevenLabs
  import AudioGenerator
  import ImageGenerator
  import VideoAssembler

  // ---------------------------------------------------------------------
  // Records
  // ---------------------------------------------------------------------

  /** A target length the settings form accepts: 15 to 120 seconds. */
  type TargetSeconds = x: int | 15 <= x <= 120 witness 30

  const DefaultTargetSeconds: TargetSeconds := 30

  /** What the video analyser extracts from one reference video. */
  datatype ReferenceAnalysis = ReferenceAnalysis(
    hookStyle: string, pacing: string, tone: string, ctaStyle: string,
    shotTypes: seq<string>, structureSummary: string,
    keyPhrases: seq<string>, estimatedDurationSeconds: int)

  /** An analysis with the defaults for the fields the analyser may omit. */
  function NewReferenceAnalysis(hookStyle: string, pacing: string, tone: string, ctaStyle: string,
                                shotTypes: seq<string>, structureSummary: string): ReferenceAnalysis {
    ReferenceAnalysis(hookStyle, pacing, tone, ctaStyle, shotTypes, structureSummary, [], 30)
  }

  /** One planned scene: a still-image prompt, a motion prompt for the video
      API, and how long it should last. */
  datatype Scene = Scene(
    sceneIndex: int, sceneType: string, imagePrompt: string, videoPrompt: string,
    durationSeconds: real)

  const DefaultSceneSeconds: real := 3.0

  function NewScene(index: int, sceneType: string, imagePrompt: string, videoPrompt: string): Scene {
    Scene(index, sceneType, imagePrompt, videoPrompt, DefaultSceneSeconds)
  }

  /** The settings the run reads. */
  datatype UgcConfig = UgcConfig(
    referenceVideos: seq<Path>, productImages: seq<Path>,
    durationSeconds: TargetSeconds, orientation: string, visualMode: string,
    enhanceForTts: bool)

  /** A configuration with the form's defaults for everything but the
      uploads. */
  function NewConfig(productImages: seq<Path>): UgcConfig {
    UgcConfig([], productImages, DefaultTargetSeconds, "Portrait", "zoompan", true)
  }

  /** The state the run fills in, step by step. `script` and
      `enhancedScript` start empty (`None` in the source). */
  datatype UgcState = UgcState(
    config: UgcConfig,
    referenceAnalyses: seq<ReferenceAnalysis>, productDescription: Option<string>,
    script: string, enhancedScript: string, segments: seq<ScriptSegment>,
    audioPath: Option<Path>, words: seq<WordAlignment>, timings: seq<SegmentTiming>,
    scenes: seq<Scene>, sceneImages: seq<Path>,
    plans: seq<SegmentVisualPlan>, clipPaths: seq<Path>, finalVideo: Option<Path>)

  function NewState(config: UgcConfig): UgcState {
    UgcState(config, [], None, "", "", [], None, [], [], [], [], [], [], None)
  }

  /** The form's defaults lie in the bounds the records declare, and a
      fresh state has nothing generated yet. */
  lemma UgcDefaults(images: seq<Path>)
    ensures 15 <= NewConfig(images).durationSeconds <= 120 && NewConfig(images).durationSeconds == 30
    ensures NewConfig(images).visualMode != "video_gen" && NewConfig(images).enhanceForTts
    ensures NewScene(0, "", "", "").durationSeconds == 3.0
    ensures NewReferenceAnalysis("", "", "", "", [], "").estimatedDurationSeconds == 30
    ensures var s := NewState(NewConfig(images));
      s.finalVideo.None? && s.clipPaths == [] && s.productDescription.None?
  {
  }

  /** What the scene planner is told: the raw segment texts, the aligned
      segment durations and the product's visual description. */
  datatype ScenePlanRequest = ScenePlanRequest(
    segmentTexts: seq<string>, segmentDurations: seq<real>, productVisual: Option<string>)

  /** The calls the run makes, each returning a value or the message of the
      exception it raised. */
  datatype UgcServices = UgcServices(
    analyze: seq<Path> -> Result<seq<ReferenceAnalysis>, string>,
    describe: seq<Path> -> Result<string, string>,
    writeScript: UgcState -> Result<string, string>,
    enhance: string -> Result<string, string>,
    segment: (string, string) -> Result<seq<ScriptSegment>, string>,
    tts: string -> Result<AudioGenerator.Speech, string>,
    ratio: ElevenLabs.Ratio,
    planScenes: ScenePlanRequest -> Result<seq<Scene>, string>,
    images: (seq<string>, string) -> Result<seq<Path>, string>,
    video: ImageGenerator.ClipRequest -> Result<Path, string>,
    clipName: nat -> Path,
    animate: ImageGenerator.AnimJob -> Result<Path, string>,
    output: Path,
    render: VideoAssembler.Assembly -> Result<Path, string>)

  // ---------------------------------------------------------------------
  // Step bodies
  // ---------------------------------------------------------------------

  /** Step 3: the enhancer is called only when enhancement is on; otherwise
      the script itself becomes the enhanced script. */
  function EnhanceBody(svc: UgcServices, s: UgcState): (o: Outcome<UgcState>)
    ensures !s.config.enhanceForTts ==> o == Ok(s.(enhancedScript := s.script))
    ensures s.config.enhanceForTts ==>
      match svc.enhance(s.script)
      case Success(e) => o == Ok(s.(enhancedScript := e))
      case Failure(m) => o == Threw(s, m)
  {
    if s.config.enhanceForTts then
      match svc.enhance(s.script)
      case Success(e) => Ok(s.(enhancedScript := e))
      case Failure(m) => Threw(s, m)
    else Ok(s.(enhancedScript := s.script))
  }

  /** Step 5: `generate_and_align_short_form` with the enhanced track
      requested exactly when enhancement is on. */
  function AudioBody(svc: UgcServices, s: UgcState): (o: Outcome<UgcState>)
    ensures var track := AudioGenerator.SelectTrack(s.script, s.enhancedScript, s.config.enhanceForTts, s.segments);
      match svc.tts(track.ttsText)
      case Failure(m) => o == Threw(s, m)
      case Success(sp) =>
        o == Ok(s.(audioPath := Some(sp.audioPath), words := sp.words,
                   timings := ElevenLabs.AlignSegments(svc.ratio, track.segmentTexts, sp.words)))
  {
    var track := AudioGenerator.SelectTrack(s.script, s.enhancedScript, s.config.enhanceForTts, s.segments);
    match svc.tts(track.ttsText)
    case Failure(m) => Threw(s, m)
    case Success(sp) =>
      var a := AudioGenerator.GenerateAndAlignShortForm(
        svc.ratio, _ => sp, s.script, s.enhancedScript, s.config.enhanceForTts, s.segments);
      Ok(s.(audioPath := Some(a.audioPath), words := a.words, timings := a.timings))
  }

  /** Step 6's payload: segment `i`'s raw text and timing `i`'s duration,
      whatever the enhanced track. */
  function SceneRequest(s: UgcState): (q: ScenePlanRequest)
    ensures |q.segmentTexts| == |s.segments| && |q.segmentDurations| == |s.timings|
    ensures forall i :: 0 <= i < |s.segments| ==> q.segmentTexts[i] == s.segments[i].scriptSegment
    ensures forall i :: 0 <= i < |s.timings| ==> q.segmentDurations[i] == s.timings[i].duration
    ensures q.productVisual == s.productDescription
  {
    ScenePlanRequest(RawTexts(s.segments),
                     seq(|s.timings|, i requires 0 <= i < |s.timings| => s.timings[i].duration),
                     s.productDescription)
  }

  /** Step 7's prompts: the image prompt of every scene, in scene order. */
  function ImagePrompts(scenes: seq<Scene>): (ps: seq<string>)
    ensures |ps| == |scenes|
    ensures forall i :: 0 <= i < |scenes| ==> ps[i] == scenes[i].imagePrompt
  {
    seq(|scenes|, i requires 0 <= i < |scenes| => scenes[i].imagePrompt)
  }

  // ---------------------------------------------------------------------
  // Clips through the video API
  // ---------------------------------------------------------------------

  /** The request for scene `i`: its motion prompt, its duration truncated
      and clamped to the API's 3..10 seconds, and its generated image as the
      base when one exists at that index. */
  function ApiRequest(scenes: seq<Scene>, images: seq<Path>, i: nat): ImageGenerator.ClipRequest
    requires i < |scenes|
  {
    ImageGenerator.ClipRequest(
      scenes[i].videoPrompt,
      ImageGenerator.ClampClipSeconds(Trunc(scenes[i].durationSeconds)),
      if i < |images| then Some(images[i]) else None)
  }

  /** One request per scene, in scene order. */
  function ApiRequests(scenes: seq<Scene>, images: seq<Path>): (qs: seq<ImageGenerator.ClipRequest>)
    ensures |qs| == |scenes|
    ensures forall i :: 0 <= i < |scenes| ==>
      qs[i].prompt == scenes[i].videoPrompt
      && 3 <= qs[i].duration <= 10
      && (qs[i].baseImage.Some? <==> i < |images|)
      && (i < |images| ==> qs[i].baseImage == Some(images[i]))
  {
    seq(|scenes|, i requires 0 <= i < |scenes| => ApiRequest(scenes, images, i))
  }

  /** A scene whose length the API accepts asks for its whole seconds: the
      request never exceeds the scene, and falls short by under a second. */
  lemma ApiDurationTracksScene(scenes: seq<Scene>, images: seq<Path>, i: nat)
    requires i < |scenes| && 3.0 <= scenes[i].durationSeconds < 11.0
    ensures var d := ApiRequests(scenes, images)[i].duration;
      d as real <= scenes[i].durationSeconds < d as real + 1.0
  {
    assert ApiRequests(scenes, images)[i] == ApiRequest(scenes, images, i);
  }

  /** `_generate_video_clips_via_api`: every scene's clip, in scene order;
      `asyncio.TaskGroup` fails as soon as one request fails, and `clip_paths`
      is assigned only after all have returned. */
  function ApiClips(svc: UgcServices, s: UgcState): (o: Outcome<UgcState>)
    ensures var qs := ApiRequests(s.scenes, s.sceneImages);
      (o.Ok? <==> forall i :: 0 <= i < |qs| ==> svc.video(qs[i]).Success?)
      && (o.Ok? ==> |o.state.clipPaths| == |s.scenes|
                    && forall i :: 0 <= i < |qs| ==> o.state.clipPaths[i] == svc.video(qs[i]).value)
      && (o.Ok? ==> o.state == s.(clipPaths := o.state.clipPaths))
      && (o.Threw? ==> o.state == s)
      && !o.Propagated?
  {
    match CallAll(ApiRequests(s.scenes, s.sceneImages), svc.video)
    case Success(ps) => Ok(s.(clipPaths := ps))
    case Failure(m) => Threw(s, m)
  }

  // ---------------------------------------------------------------------
  // Clips through zoompan
  // ---------------------------------------------------------------------

  /** The motion cycle of the zoompan back end. */
  const UgcMotionPattern: seq<string> := ["zoom_in", "zoom_out", "pan_right", "ken_burns"]

  /** The loop stops at the first scene without an image, so there are as
      many clips as the shorter of the two lists. */
  function ZoompanCount(s: UgcState): (n: nat)
    ensures n <= |s.scenes| && n <= |s.sceneImages|
    ensures n == |s.scenes| || n == |s.sceneImages|
  {
    if |s.scenes| <= |s.sceneImages| then |s.scenes| else |s.sceneImages|
  }

  /** The job of scene `i`: its one image, shown for the scene's whole
      duration (ideal and last alike), starting the motion cycle at
      `i % 4`, into a freshly named file. */
  function ZoompanJob(svc: UgcServices, s: UgcState, i: nat): ImageGenerator.AnimJob
    requires i < ZoompanCount(s)
  {
    ImageGenerator.AnimJob([s.sceneImages[i]], svc.clipName(i), s.scenes[i].durationSeconds,
                           s.scenes[i].durationSeconds, Mod(i, |UgcMotionPattern|))
  }

  function ZoompanJobs(svc: UgcServices, s: UgcState): (js: seq<ImageGenerator.AnimJob>)
    ensures |js| == ZoompanCount(s)
    ensures forall i :: 0 <= i < |js| ==> js[i] == ZoompanJob(svc, s, i)
  {
    seq(ZoompanCount(s), i requires 0 <= i < ZoompanCount(s) => ZoompanJob(svc, s, i))
  }

  /** Every zoompan clip is one shot of its scene's image for the scene's
      whole duration, and the motions cycle through the four styles scene
      by scene: scene `i` and scene `i + 4` move alike. */
  lemma ZoompanShots(svc: UgcServices, s: UgcState, i: nat)
    requires i < ZoompanCount(s)
    ensures ImageGenerator.Run(ZoompanJob(svc, s, i), UgcMotionPattern)
      == Success([ImageGenerator.Shot(s.sceneImages[i], s.scenes[i].durationSeconds, UgcMotionPattern[Mod(i, 4)])])
  {
    var job := ZoompanJob(svc, s, i);
    var p := UgcMotionPattern;
    assert |p| == 4;
    assert job.startIndex == Mod(i, 4);
    assert job.paths == [s.sceneImages[i]];
    assert ImageGenerator.MotionAt(p, job.startIndex, 0) == p[Mod(i, 4)] by {
      assert Mod(Mod(i, 4) + 0, 4) == Mod(i, 4);
    }
    assert p[Mod(i, 4)] in ImageGenerator.ZoompanStyles;
    assert ImageGenerator.KnownMotions(p, job.startIndex, 1);
    var r := ImageGenerator.Run(job, p);
    assert r.Success?;
    assert |r.value| == 1;
    assert r.value[0].path == s.sceneImages[i];
    assert r.value[0].duration == s.scenes[i].durationSeconds;
    assert r.value[0].motion == p[Mod(i, 4)];
    assert r.value == [ImageGenerator.Shot(s.sceneImages[i], s.scenes[i].durationSeconds, p[Mod(i, 4)])];
  }

  /** The clip paths of a zoompan run: the job outputs, in scene order. */
  function JobOutputs(jobs: seq<ImageGenerator.AnimJob>): (ps: seq<Path>)
    ensures |ps| == |jobs|
    ensures forall i :: 0 <= i < |jobs| ==> ps[i] == jobs[i].output
  {
    seq(|jobs|, i requires 0 <= i < |jobs| => jobs[i].output)
  }

  /** `_animate_with_zoompan`: one job per scene that has an image; the
      first failing job fails the step before `clip_paths` is assigned. */
  function ZoompanClips(svc: UgcServices, s: UgcState): (o: Outcome<UgcState>)
    ensures var js := ZoompanJobs(svc, s);
      (o.Ok? <==> forall i :: 0 <= i < |js| ==> svc.animate(js[i]).Success?)
      && (o.Ok? ==> o.state == s.(clipPaths := JobOutputs(js)))
      && (o.Threw? ==> o.state == s)
      && !o.Propagated?
  {
    var js := ZoompanJobs(svc, s);
    match CallAll(js, svc.animate)
    case Success(_) => Ok(s.(clipPaths := JobOutputs(js)))
    case Failure(m) => Threw(s, m)
  }

  /** Step 8: the video API when the visual mode is `video_gen`, zoompan
      for any other mode. */
  function ClipsBody(svc: UgcServices, s: UgcState): (o: Outcome<UgcState>)
    ensures s.config.visualMode == "video_gen" ==> o == ApiClips(svc, s)
    ensures s.config.visualMode != "video_gen" ==> o == ZoompanClips(svc, s)
  {
    if s.config.visualMode == "video_gen" then ApiClips(svc, s) else ZoompanClips(svc, s)
  }

  // ---------------------------------------------------------------------
  // Assembly
  // ---------------------------------------------------------------------

  /** The plan of clip `i`: one image, the last duration of timing `i` (or
      3 seconds past the timings), the scene image at the same index when
      there is one, and the clip itself. */
  function UgcPlan(clips: seq<Path>, timings: seq<SegmentTiming>, images: seq<Path>, i: nat): SegmentVisualPlan
    requires i < |clips|
  {
    SegmentVisualPlan(i, 1, if i < |timings| then timings[i].duration else 3.0, [],
                      if i < |images| then [images[i]] else [], Some(clips[i]))
  }

  function UgcPlans(clips: seq<Path>, timings: seq<SegmentTiming>, images: seq<Path>): (ps: seq<SegmentVisualPlan>)
    ensures |ps| == |clips|
    ensures forall i :: 0 <= i < |clips| ==> ps[i] == UgcPlan(clips, timings, images, i)
  {
    seq(|clips|, i requires 0 <= i < |clips| => UgcPlan(clips, timings, images, i))
  }

  /** Plans that each carry clip `i` give back exactly those clips. */
  lemma {:induction false} ClipPathsOfClipped(plans: seq<SegmentVisualPlan>, clips: seq<Path>)
    requires |plans| == |clips|
    requires forall i :: 0 <= i < |plans| ==> plans[i].videoPath == Some(clips[i])
    ensures ClipPaths(plans) == clips
  {
    if |plans| > 0 {
      ClipPathsOfClipped(plans[1..], clips[1..]);
    }
  }

  /** The assembler receives the clips exactly as generated: reading the
      clip paths back out of the plans gives the clip list, and each plan
      describes one image that exists at its own index. */
  lemma UgcPlansRoundTrip(clips: seq<Path>, timings: seq<SegmentTiming>, images: seq<Path>)
    ensures ClipPaths(UgcPlans(clips, timings, images)) == clips
    ensures forall i :: 0 <= i < |clips| ==>
      UgcPlans(clips, timings, images)[i].numImages == 1
      && |UgcPlans(clips, timings, images)[i].imagePaths| <= 1
      && (|UgcPlans(clips, timings, images)[i].imagePaths| == 1 <==> i < |images|)
  {
    ClipPathsOfClipped(UgcPlans(clips, timings, images), clips);
  }

  /** Step 9: the plans are stored on the state first, then assembled with
      the end buffer on and subtitles off, then rendered. A failure keeps
      the stored plans. */
  function AssembleBody(svc: UgcServices, s: UgcState): (o: Outcome<UgcState>)
    ensures var plans := UgcPlans(s.clipPaths, s.timings, s.sceneImages);
      !o.Propagated? && o.state.(finalVideo := s.finalVideo) == s.(plans := plans)
    ensures s.clipPaths == [] ==> o.Threw?
    ensures o.Ok? <==> s.clipPaths != [] && svc.render(
      VideoAssembler.Basic(VideoAssembler.ConcatInputs(s.clipPaths, true), s.audioPath.GetOr(""), svc.output)).Success?
    ensures o.Ok? ==> o.state.finalVideo.Some?
  {
    var plans := UgcPlans(s.clipPaths, s.timings, s.sceneImages);
    var t := s.(plans := plans);
    UgcPlansRoundTrip(s.clipPaths, s.timings, s.sceneImages);
    ClipPathsExact(plans);
    match VideoAssembler.AssembleShortForm(plans, s.audioPath.GetOr(""), svc.output, true, false, None)
    case Failure(m) => Threw(t, m)
    case Success(a) =>
      match svc.render(a)
      case Failure(m) => Threw(t, m)
      case Success(p) => Ok(t.(finalVideo := Some(p)))
  }

  // ---------------------------------------------------------------------
  // The run
  // ---------------------------------------------------------------------

  /** Step 0 runs only when reference videos were uploaded. */
  function ReferenceSteps(svc: UgcServices, withReferences: bool): seq<Step<UgcState>> {
    if withReferences then
      [Step("analyze_reference_videos", Some("after_ref_analysis"),
            Store((s: UgcState) => svc.analyze(s.config.referenceVideos),
                  (s: UgcState, v: seq<ReferenceAnalysis>) => s.(referenceAnalyses := v)))]
    else []
  }

  /** Steps 1 to 9, in source order, each with its success checkpoint. */
  function MainSteps(svc: UgcServices): seq<Step<UgcState>> {
    [ Step("describe_product", Some("after_product_description"),
           Store((s: UgcState) => svc.describe(s.config.productImages),
                 (s: UgcState, v: string) => s.(productDescription := Some(v)))),
      Step("generate_script", Some("after_script"),
           Store(svc.writeScript, (s: UgcState, v: string) => s.(script := v))),
      Step("enhance_script", Some("after_enhance"), s => EnhanceBody(svc, s)),
      Step("segment_script", Some("after_segment"),
           Store((s: UgcState) => svc.segment(s.script, s.enhancedScript),
                 (s: UgcState, v: seq<ScriptSegment>) => s.(segments := v))),
      Step("generate_audio", Some("after_audio"), s => AudioBody(svc, s)),
      Step("plan_scenes", Some("after_scene_plan"),
           Store((s: UgcState) => svc.planScenes(SceneRequest(s)),
                 (s: UgcState, v: seq<Scene>) => s.(scenes := v))),
      Step("generate_images", Some("after_images"),
           Store((s: UgcState) => svc.images(ImagePrompts(s.scenes), Lower(s.config.orientation)),
                 (s: UgcState, v: seq<Path>) => s.(sceneImages := v))),
      Step("generate_video_clips", Some("after_clips"), s => ClipsBody(svc, s)),
      Step("assemble_final_video", Some("complete"), s => AssembleBody(svc, s)) ]
  }

  function UgcSteps(svc: UgcServices, withReferences: bool): seq<Step<UgcState>> {
    ReferenceSteps(svc, withReferences) + MainSteps(svc)
  }

  /** `UGCPipeline.run`. */
  function RunUgc(svc: UgcServices, s: UgcState): Run<UgcState> {
    RunSteps(UgcSteps(svc, |s.config.referenceVideos| > 0), s)
  }

  /** The steps run in source order, with the reference analysis first
      exactly when reference videos were uploaded. */
  lemma UgcOrder(svc: UgcServices, withReferences: bool)
    ensures var main := ["describe_product", "generate_script", "enhance_script", "segment_script",
                         "generate_audio", "plan_scenes", "generate_images", "generate_video_clips",
                         "assemble_final_video"];
      Names(UgcSteps(svc, withReferences)) == (if withReferences then ["analyze_reference_videos"] else []) + main
  {
  }

  /** No step raises a pipeline error of its own, and every step but the
      assembly leaves the state as it found it when it raises. */
  lemma UgcStepsAtomicBeforeAssembly(svc: UgcServices, withReferences: bool)
    ensures NeverPropagates(UgcSteps(svc, withReferences))
    ensures Atomic(UgcSteps(svc, withReferences)[..|UgcSteps(svc, withReferences)| - 1])
  {
    var steps := UgcSteps(svc, withReferences);
    forall k, t | 0 <= k < |steps|
      ensures !steps[k].body(t).Propagated?
      ensures k < |steps| - 1 && steps[k].body(t).Threw? ==> steps[k].body(t).state == t
    {
    }
  }

  /** A run that fails in the assembly step still reports the plans it
      built from the clips: the partial state has them stored. */
  lemma AssemblyFailureKeepsPlans(svc: UgcServices, s: UgcState)
    requires RunUgc(svc, s).Failed?
    requires RunUgc(svc, s).error.failedStep == "assemble_final_video"
    ensures var t := RunUgc(svc, s).error.partialState;
      t.plans == UgcPlans(t.clipPaths, t.timings, t.sceneImages)
  {
    var steps := UgcSteps(svc, |s.config.referenceVideos| > 0);
    UgcStepsAtomicBeforeAssembly(svc, |s.config.referenceVideos| > 0);
    RunStepsSpec(steps, s);
    var k := Progress(steps, s);
    var u := Reached(steps, s, k).value;
    assert steps[k].body(u).Threw?;
    assert steps[k].name == "assemble_final_video";
    assert k == |steps| - 1;
  }

  /** A completed run has a final video, and its plans carry exactly its
      clips, of which there is at least one. */
  lemma UgcCompletedHasVideo(svc: UgcServices, s: UgcState)
    requires RunUgc(svc, s).Completed?
    ensures var t := RunUgc(svc, s).state;
      t.finalVideo.Some? && |t.clipPaths| > 0 && ClipPaths(t.plans) == t.clipPaths
  {
    var steps := UgcSteps(svc, |s.config.referenceVideos| > 0);
    var P := (t: UgcState) => t.finalVideo.Some? && |t.clipPaths| > 0 && ClipPaths(t.plans) == t.clipPaths;
    var last := steps[|steps| - 1].body;
    forall t | last(t).Ok?
      ensures P(last(t).state)
    {
      UgcPlansRoundTrip(t.clipPaths, t.timings, t.sceneImages);
    }
    EstablishedBy(steps, s, |steps| - 1, P);
  }
}

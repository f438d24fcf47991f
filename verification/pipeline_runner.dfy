/** The v2 orchestrator (`PipelineRunner`): checkpoint naming, and the
    short-form and long-form runs as fixed step sequences over abstract
    service calls. */
module PipelineRunner {
  import opened Wrappers
  import opened PyText
  import opened PyFormat
  import opened Media
  import opened Steps
  import ElevenLabs
  import AudioGenerator
  import ImageGenerator
  import VideoAssembler

  // ---------------------------------------------------------------------
  // Checkpoints
  // ---------------------------------------------------------------------

  /** `tag.replace(" ", "_").replace("/", "-")`: every space becomes an
      underscore and every slash a hyphen; nothing else changes. */
  function SafeLabel(tag: string): (r: string)
    ensures |r| == |tag|
    ensures forall i :: 0 <= i < |tag| ==>
      r[i] == (if tag[i] == ' ' then '_' else if tag[i] == '/' then '-' else tag[i])
    ensures forall i :: 0 <= i < |r| ==> r[i] != ' ' && r[i] != '/'
  {
    ReplaceChar(ReplaceChar(tag, ' ', '_'), '/', '-')
  }

  /** Sanitising twice is sanitising once. */
  lemma SafeLabelIdempotent(tag: string)
    ensures SafeLabel(SafeLabel(tag)) == SafeLabel(tag)
  {
    var once := SafeLabel(tag);
    assert forall i :: 0 <= i < |once| ==> SafeLabel(once)[i] == once[i];
  }

  /** The checkpoint file name: the prefix (`""` for this runner, `"v2_"`
      for the V2 runner), the timestamp, the sanitised tag. */
  function CheckpointName(prefix: string, timestamp: string, tag: string): Path {
    prefix + timestamp + "_" + SafeLabel(tag) + ".json"
  }

  /** `_save_checkpoint`: best-effort. A failed write gives `None` instead
      of raising; a successful one gives the file written. */
  function SaveCheckpoint(prefix: string, timestamp: string, tag: string, writeSucceeds: bool)
    : (r: Option<Path>)
    ensures r.None? <==> !writeSucceeds
    ensures r.Some? ==> r.value == CheckpointName(prefix, timestamp, tag)
    ensures r.Some? ==> forall i :: |prefix + timestamp| + 1 <= i < |r.value| - 5 ==> r.value[i] != ' ' && r.value[i] != '/'
  {
    if writeSucceeds then Some(CheckpointName(prefix, timestamp, tag)) else None
  }

  // ---------------------------------------------------------------------
  // Short form
  // ---------------------------------------------------------------------

  /** The fields of `ShortFormState` the run reads or writes. */
  datatype ShortFormState = ShortFormState(
    enhanceForTts: bool, videoGen: bool, singleImage: bool,
    ideal: real, minDuration: real, addEndBuffer: bool, addSubtitles: bool,
    goal: string, hook: string, script: string, enhancedScript: string,
    segments: seq<ScriptSegment>,
    audioPath: Option<Path>, words: seq<WordAlignment>, timings: seq<SegmentTiming>,
    plans: seq<SegmentVisualPlan>, clipPaths: seq<Path>, finalVideo: Option<Path>)

  /** The calls the run makes, each returning a value or the message of the
      exception it raised. */
  datatype ShortFormServices = ShortFormServices(
    goal: ShortFormState -> Result<string, string>,
    hook: ShortFormState -> Result<string, string>,
    script: ShortFormState -> Result<string, string>,
    enhance: string -> Result<string, string>,
    segment: ShortFormState -> Result<seq<ScriptSegment>, string>,
    tts: string -> Result<AudioGenerator.Speech, string>,
    ratio: ElevenLabs.Ratio,
    descriptions: ShortFormState -> Result<seq<SegmentVisualPlan>, string>,
    images: ShortFormState -> Result<seq<SegmentVisualPlan>, string>,
    videoClips: ShortFormState -> Written<string>,
    animate: ShortFormState -> Written<string>,
    output: Path,
    render: VideoAssembler.Assembly -> Result<Path, string>)

  /** Step 4: the enhancer is called only when enhancement is on; otherwise
      the script itself is the enhanced script. */
  function EnhanceBody(svc: ShortFormServices, s: ShortFormState): (o: Outcome<ShortFormState>)
    ensures !s.enhanceForTts ==> o == Ok(s.(enhancedScript := s.script))
    ensures s.enhanceForTts && svc.enhance(s.script).Success? ==>
      o == Ok(s.(enhancedScript := svc.enhance(s.script).value))
    ensures s.enhanceForTts && svc.enhance(s.script).Failure? ==>
      o == Threw(s, svc.enhance(s.script).error)
  {
    if s.enhanceForTts then
      match svc.enhance(s.script)
      case Success(e) => Ok(s.(enhancedScript := e))
      case Failure(m) => Threw(s, m)
    else Ok(s.(enhancedScript := s.script))
  }

  /** Step 6: voices the track `generate_and_align_short_form` selects and
      stores the audio file, the words and the aligned timings. */
  function AudioBody(svc: ShortFormServices, s: ShortFormState): (o: Outcome<ShortFormState>)
    ensures var track := AudioGenerator.SelectTrack(s.script, s.enhancedScript, s.enhanceForTts, s.segments);
      match svc.tts(track.ttsText)
      case Failure(m) => o == Threw(s, m)
      case Success(sp) =>
        o.Ok? && o.state == s.(audioPath := Some(sp.audioPath), words := sp.words,
                               timings := ElevenLabs.AlignSegments(svc.ratio, track.segmentTexts, sp.words))
  {
    var track := AudioGenerator.SelectTrack(s.script, s.enhancedScript, s.enhanceForTts, s.segments);
    match svc.tts(track.ttsText)
    case Failure(m) => Threw(s, m)
    case Success(sp) =>
      var a := AudioGenerator.GenerateAndAlignShortForm(
        svc.ratio, _ => sp, s.script, s.enhancedScript, s.enhanceForTts, s.segments);
      Ok(s.(audioPath := Some(a.audioPath), words := a.words, timings := a.timings))
  }

  /** The planner raises `ZeroDivisionError` exactly when some segment
      outruns a zero ideal duration. */
  predicate PlanDefined(s: ShortFormState) {
    forall i :: 0 <= i < |s.timings| ==> AudioGenerator.PlannerDefined(s.timings[i].duration, s.ideal)
  }

  /** Step 7: `plan_visuals` on the stored timings. */
  function PlanBody(s: ShortFormState): (o: Outcome<ShortFormState>)
    ensures o.Ok? <==> PlanDefined(s)
    ensures o.Ok? ==> o.state == s.(plans := ImageGenerator.PlanVisuals(s.timings, s.ideal, s.minDuration, s.singleImage))
    ensures o.Threw? ==> o.state == s
  {
    if PlanDefined(s) then Ok(s.(plans := ImageGenerator.PlanVisuals(s.timings, s.ideal, s.minDuration, s.singleImage)))
    else Threw(s, "float division by zero")
  }

  /** The clip stage step 10 calls: the video API or zoompan. */
  function ClipCall(svc: ShortFormServices, s: ShortFormState): Written<string> {
    if s.videoGen then svc.videoClips(s) else svc.animate(s)
  }

  /** Step 10: the video API or zoompan renders the clips; `clip_paths` is
      then the non-null clip of every plan, in plan order. The stage writes
      `video_path` on the state's own plan objects, so when it raises the
      state already holds the plans as the stage left them, while
      `clip_paths` keeps its earlier value. */
  function ClipsBody(svc: ShortFormServices, s: ShortFormState): (o: Outcome<ShortFormState>)
    ensures var call := ClipCall(svc, s);
      (o.Ok? <==> call.raised.None?)
      && (o.Ok? ==> o.state == s.(plans := call.plans, clipPaths := ClipPaths(call.plans)))
      && (call.raised.Some? ==> o == Threw(s.(plans := call.plans), call.raised.value))
  {
    var call := ClipCall(svc, s);
    match call.raised
    case None => Ok(s.(plans := call.plans, clipPaths := ClipPaths(call.plans)))
    case Some(m) => Threw(s.(plans := call.plans), m)
  }

  /** Step 11: `assemble_short_form`, which raises when no plan has a clip,
      then the render. Subtitle words are passed only when subtitles are
      on. */
  function AssembleBody(svc: ShortFormServices, s: ShortFormState): (o: Outcome<ShortFormState>)
    ensures (forall i :: 0 <= i < |s.plans| ==> s.plans[i].videoPath.None?) ==> o.Threw?
    ensures o.Threw? ==> o.state == s
    ensures o.Ok? ==> o.state == s.(finalVideo := o.state.finalVideo) && o.state.finalVideo.Some?
  {
    var words := if s.addSubtitles then Some(s.words) else None;
    match VideoAssembler.AssembleShortForm(s.plans, s.audioPath.GetOr(""), svc.output, s.addEndBuffer, s.addSubtitles, words)
    case Failure(m) => Threw(s, m)
    case Success(a) =>
      match svc.render(a)
      case Failure(m) => Threw(s, m)
      case Success(p) => Ok(s.(finalVideo := Some(p)))
  }

  /** `run_short_form`'s eleven steps, in source order, with the checkpoint
      each writes on success (`plan_visuals` writes none). */
  function ShortFormSteps(svc: ShortFormServices): seq<Step<ShortFormState>> {
    [ Step("generate_goal", Some("after_goal"), Store(svc.goal, (s: ShortFormState, v: string) => s.(goal := v))),
      Step("generate_hook", Some("after_hook"), Store(svc.hook, (s: ShortFormState, v: string) => s.(hook := v))),
      Step("generate_script", Some("after_script"), Store(svc.script, (s: ShortFormState, v: string) => s.(script := v))),
      Step("enhance_script", Some("after_enhance"), s => EnhanceBody(svc, s)),
      Step("segment_script", Some("after_segment"),
           Store(svc.segment, (s: ShortFormState, v: seq<ScriptSegment>) => s.(segments := v))),
      Step("generate_audio", Some("after_audio"), s => AudioBody(svc, s)),
      Step("plan_visuals", None, PlanBody),
      Step("generate_image_descriptions", Some("after_image_descriptions"),
           Store(svc.descriptions, (s: ShortFormState, v: seq<SegmentVisualPlan>) => s.(plans := v))),
      Step("generate_images", Some("after_images"),
           Store(svc.images, (s: ShortFormState, v: seq<SegmentVisualPlan>) => s.(plans := v))),
      Step("animate_segments", Some("after_animation"), s => ClipsBody(svc, s)),
      Step("assemble_final_video", Some("complete"), s => AssembleBody(svc, s)) ]
  }

  /** `run_short_form`. Saving the history record afterwards swallows its
      own failure, so it has no bearing on the result and is left out. */
  function RunShortForm(svc: ShortFormServices, s: ShortFormState): Run<ShortFormState> {
    RunSteps(ShortFormSteps(svc), s)
  }

  /** The steps run in the fixed order goal, hook, script, enhance, segment,
      audio, plan, descriptions, images, clips, assemble. */
  lemma ShortFormOrder(svc: ShortFormServices)
    ensures Names(ShortFormSteps(svc)) == ["generate_goal", "generate_hook", "generate_script", "enhance_script",
      "segment_script", "generate_audio", "plan_visuals", "generate_image_descriptions", "generate_images",
      "animate_segments", "assemble_final_video"]
  {
  }

  /** The position of `animate_segments` among the short-form steps. */
  const ClipsStep: nat := 9

  /** No step of the short form but the clip step leaves a partial write
      behind when it raises, and none raises a pipeline error of its own;
      a raising clip step leaves everything but the plans as it found it,
      and the plans as the clip stage left them. */
  lemma ShortFormStepsAtomic(svc: ShortFormServices)
    ensures AtomicExcept(ShortFormSteps(svc), ClipsStep) && NeverPropagates(ShortFormSteps(svc))
    ensures ShortFormSteps(svc)[ClipsStep].name == "animate_segments"
    ensures forall t :: ShortFormSteps(svc)[ClipsStep].body(t).Threw? ==>
      ShortFormSteps(svc)[ClipsStep].body(t).state == t.(plans := ClipCall(svc, t).plans)
  {
    var steps := ShortFormSteps(svc);
    forall k, t | 0 <= k < |steps|
      ensures k != ClipsStep && steps[k].body(t).Threw? ==> steps[k].body(t).state == t
      ensures !steps[k].body(t).Propagated?
    {
    }
  }

  /** A failed short-form run reports the first step that raised. Its
      partial state is the state after the steps before it, except after a
      failed clip step, whose plans already carry the clip paths the stage
      wrote. */
  lemma ShortFormFailureState(svc: ShortFormServices, s: ShortFormState)
    requires RunShortForm(svc, s).Failed?
    ensures var steps := ShortFormSteps(svc);
      var k := Progress(steps, s);
      var before := Reached(steps, s, k).value;
      k < |steps| && RunShortForm(svc, s).error.failedStep == steps[k].name
      && (k != ClipsStep ==> RunShortForm(svc, s).error.partialState == before)
      && (k == ClipsStep ==> RunShortForm(svc, s).error.partialState == before.(plans := ClipCall(svc, before).plans))
  {
    ShortFormStepsAtomic(svc);
    FailureKeepsStateExcept(ShortFormSteps(svc), s, ClipsStep);
  }

  // ---------------------------------------------------------------------
  // Long form
  // ---------------------------------------------------------------------

  /** The fields of `SectionState` the run writes. */
  datatype SectionState = SectionState(
    structure: string, script: string, segments: seq<string>,
    audioPath: Option<Path>, words: seq<WordAlignment>, timings: seq<SegmentTiming>,
    plans: seq<SegmentVisualPlan>, clipPaths: seq<Path>, videoPath: Option<Path>)

  function NewSection(structure: string): SectionState {
    SectionState(structure, "", [], None, [], [], [], [], None)
  }

  datatype LongFormState = LongFormState(
    videoGen: bool, singleImage: bool, ideal: real, minDuration: real,
    goal: string, sections: seq<SectionState>, fullScript: string, finalVideo: Option<Path>)

  /** The run's state together with its local `cumulative_script`. */
  datatype LongFormProgress = LongFormProgress(state: LongFormState, cumulative: string)

  datatype LongFormServices = LongFormServices(
    goal: LongFormState -> Result<string, string>,
    structure: LongFormState -> Result<seq<string>, string>,
    sectionScript: (LongFormState, nat, string) -> Result<string, string>,
    segment: string -> Result<seq<string>, string>,
    tts: string -> Result<AudioGenerator.Speech, string>,
    ratio: ElevenLabs.Ratio,
    descriptions: (LongFormState, nat) -> Result<seq<SegmentVisualPlan>, string>,
    images: (LongFormState, nat) -> Result<seq<SegmentVisualPlan>, string>,
    videoClips: (LongFormState, nat) -> Written<string>,
    animate: (LongFormState, nat) -> Written<string>,
    sectionOutput: nat -> Path,
    render: VideoAssembler.Assembly -> Result<Path, string>,
    concat: seq<Path> -> Result<Path, string>)

  /** The failure name of a section step: `section_{i}_{what}`. */
  function SectionStepName(i: nat, what: string): string {
    "section_" + NatToString(i) + "_" + what
  }

  /** The checkpoint tag of a section step: `lf_sec{i}_{what}`. */
  function SectionLabel(i: nat, what: string): string {
    "lf_sec" + NatToString(i) + "_" + what
  }

  /** Replaces section `i` by `f` of it; out of range nothing changes. */
  function UpdateSection(p: LongFormProgress, i: nat, f: SectionState -> SectionState): (q: LongFormProgress)
    ensures |q.state.sections| == |p.state.sections| && q.cumulative == p.cumulative
    ensures i < |p.state.sections| ==> q.state == p.state.(sections := p.state.sections[i := f(p.state.sections[i])])
    ensures i >= |p.state.sections| ==> q == p
  {
    if i < |p.state.sections| then
      p.(state := p.state.(sections := p.state.sections[i := f(p.state.sections[i])]))
    else p
  }

  function SectionAt(p: LongFormProgress, i: nat): SectionState {
    if i < |p.state.sections| then p.state.sections[i] else NewSection("")
  }

  /** 3a: the section script, written with the cumulative script so far;
      on success the cumulative script grows by the new script and one
      space. */
  function ScriptBody(svc: LongFormServices, i: nat, p: LongFormProgress): (o: Outcome<LongFormProgress>)
    ensures match svc.sectionScript(p.state, i, p.cumulative)
      case Failure(m) => o == Threw(p, m)
      case Success(v) =>
        o.Ok? && o.state.cumulative == p.cumulative + v + " "
        && o.state.state == UpdateSection(p, i, (sec: SectionState) => sec.(script := v)).state
  {
    match svc.sectionScript(p.state, i, p.cumulative)
    case Failure(m) => Threw(p, m)
    case Success(v) =>
      var q := UpdateSection(p, i, (sec: SectionState) => sec.(script := v));
      Ok(q.(cumulative := p.cumulative + v + " "))
  }

  /** Stores one call's value into section `i`, or raises leaving the state
      as it was. */
  function SectionStore<T>(call: LongFormProgress -> Result<T, string>, i: nat,
                           f: (SectionState, T) -> SectionState): LongFormProgress -> Outcome<LongFormProgress> {
    (p: LongFormProgress) => match call(p)
         case Success(v) => Ok(UpdateSection(p, i, (sec: SectionState) => f(sec, v)))
         case Failure(m) => Threw(p, m)
  }

  /** 3c: voices the section script and aligns the raw segment texts. */
  function SectionAudioBody(svc: LongFormServices, i: nat, p: LongFormProgress): (o: Outcome<LongFormProgress>)
    ensures var sec := SectionAt(p, i);
      match svc.tts(sec.script)
      case Failure(m) => o == Threw(p, m)
      case Success(sp) =>
        o == Ok(UpdateSection(p, i, (s: SectionState) => s.(audioPath := Some(sp.audioPath), words := sp.words,
                                            timings := ElevenLabs.AlignSegments(svc.ratio, sec.segments, sp.words))))
  {
    var sec := SectionAt(p, i);
    match svc.tts(sec.script)
    case Failure(m) => Threw(p, m)
    case Success(sp) =>
      var a := AudioGenerator.GenerateAndAlignSection(svc.ratio, _ => sp, sec.script, sec.segments);
      Ok(UpdateSection(p, i, (s: SectionState) => s.(audioPath := Some(a.audioPath), words := a.words, timings := a.timings)))
  }

  /** 3d: `plan_visuals` on the section's timings. */
  function SectionPlanBody(i: nat, p: LongFormProgress): (o: Outcome<LongFormProgress>)
    ensures var sec := SectionAt(p, i);
      var defined := forall j :: 0 <= j < |sec.timings| ==> AudioGenerator.PlannerDefined(sec.timings[j].duration, p.state.ideal);
      (o.Ok? <==> defined)
      && (o.Ok? ==> o.state == UpdateSection(p, i, (s: SectionState) => s.(plans := ImageGenerator.PlanVisuals(
            sec.timings, p.state.ideal, p.state.minDuration, p.state.singleImage))))
      && (o.Threw? ==> o.state == p)
  {
    var sec := SectionAt(p, i);
    if forall j :: 0 <= j < |sec.timings| ==> AudioGenerator.PlannerDefined(sec.timings[j].duration, p.state.ideal) then
      Ok(UpdateSection(p, i, (s: SectionState) => s.(plans := ImageGenerator.PlanVisuals(
        sec.timings, p.state.ideal, p.state.minDuration, p.state.singleImage))))
    else Threw(p, "float division by zero")
  }

  /** The clip stage step 3g calls for section `i`. */
  function SectionClipCall(svc: LongFormServices, i: nat, p: LongFormProgress): Written<string> {
    if p.state.videoGen then svc.videoClips(p.state, i) else svc.animate(p.state, i)
  }

  /** 3g: clips by the video API or zoompan; the section's `clip_paths` are
      the non-null clips in plan order. When the stage raises, the
      section's plans are already as the stage left them. */
  function SectionClipsBody(svc: LongFormServices, i: nat, p: LongFormProgress): (o: Outcome<LongFormProgress>)
    ensures var call := SectionClipCall(svc, i, p);
      (o.Ok? <==> call.raised.None?)
      && (o.Ok? ==> o.state == UpdateSection(p, i, (s: SectionState) => s.(plans := call.plans, clipPaths := ClipPaths(call.plans))))
      && (call.raised.Some? ==>
            o == Threw(UpdateSection(p, i, (s: SectionState) => s.(plans := call.plans)), call.raised.value))
  {
    var call := SectionClipCall(svc, i, p);
    match call.raised
    case None => Ok(UpdateSection(p, i, (s: SectionState) => s.(plans := call.plans, clipPaths := ClipPaths(call.plans))))
    case Some(m) => Threw(UpdateSection(p, i, (s: SectionState) => s.(plans := call.plans)), m)
  }

  /** 3h: `assemble_section` (no end buffer, no subtitles) and the render. */
  function SectionAssembleBody(svc: LongFormServices, i: nat, p: LongFormProgress): (o: Outcome<LongFormProgress>)
    ensures var sec := SectionAt(p, i);
      var a := VideoAssembler.AssembleSection(sec.plans, sec.audioPath.GetOr(""), svc.sectionOutput(i));
      match svc.render(a)
      case Failure(m) => o == Threw(p, m)
      case Success(v) => o == Ok(UpdateSection(p, i, (s: SectionState) => s.(videoPath := Some(v))))
  {
    var sec := SectionAt(p, i);
    match svc.render(VideoAssembler.AssembleSection(sec.plans, sec.audioPath.GetOr(""), svc.sectionOutput(i)))
    case Failure(m) => Threw(p, m)
    case Success(v) => Ok(UpdateSection(p, i, (s: SectionState) => s.(videoPath := Some(v))))
  }

  /** The eight guarded steps of section `i`, in source order. */
  function SectionSteps(svc: LongFormServices, i: nat): seq<Step<LongFormProgress>> {
    [ Step(SectionStepName(i, "generate_script"), Some(SectionLabel(i, "script")), (p: LongFormProgress) => ScriptBody(svc, i, p)),
      Step(SectionStepName(i, "segment"), None,
           SectionStore((p: LongFormProgress) => svc.segment(SectionAt(p, i).script), i, (s: SectionState, v: seq<string>) => s.(segments := v))),
      Step(SectionStepName(i, "audio"), Some(SectionLabel(i, "audio")), (p: LongFormProgress) => SectionAudioBody(svc, i, p)),
      Step(SectionStepName(i, "plan_visuals"), None, (p: LongFormProgress) => SectionPlanBody(i, p)),
      Step(SectionStepName(i, "image_descriptions"), Some(SectionLabel(i, "img_desc")),
           SectionStore((p: LongFormProgress) => svc.descriptions(p.state, i), i, (s: SectionState, v: seq<SegmentVisualPlan>) => s.(plans := v))),
      Step(SectionStepName(i, "generate_images"), Some(SectionLabel(i, "images")),
           SectionStore((p: LongFormProgress) => svc.images(p.state, i), i, (s: SectionState, v: seq<SegmentVisualPlan>) => s.(plans := v))),
      Step(SectionStepName(i, "animate"), None, (p: LongFormProgress) => SectionClipsBody(svc, i, p)),
      Step(SectionStepName(i, "assemble"), Some(SectionLabel(i, "complete")), (p: LongFormProgress) => SectionAssembleBody(svc, i, p)) ]
  }

  /** The steps of sections `i`, `i + 1`, ..., `n - 1`, in order. */
  function SectionsFrom(svc: LongFormServices, i: nat, n: nat): (steps: seq<Step<LongFormProgress>>)
    ensures |steps| == 8 * (if i < n then n - i else 0)
    decreases n - i
  {
    if i >= n then [] else SectionSteps(svc, i) + SectionsFrom(svc, i + 1, n)
  }

  /** The final step: `full_script` is the stripped cumulative script (set
      before the guarded block, so it survives a failure there), then the
      non-null section videos are concatenated. */
  function FinalBody(svc: LongFormServices, p: LongFormProgress): (o: Outcome<LongFormProgress>)
    ensures !o.Propagated? && o.state.state.fullScript == Strip(p.cumulative)
    ensures o.state.state.sections == p.state.sections
    ensures o.Ok? <==> svc.concat(SectionVideos(p.state.sections)).Success?
    ensures o.Ok? ==> o.state.state.finalVideo == Some(svc.concat(SectionVideos(p.state.sections)).value)
  {
    var q := p.(state := p.state.(fullScript := Strip(p.cumulative)));
    match svc.concat(SectionVideos(q.state.sections))
    case Failure(m) => Threw(q, m)
    case Success(v) => Ok(q.(state := q.state.(finalVideo := Some(v))))
  }

  /** The non-null section video paths, in section order. */
  function SectionVideos(secs: seq<SectionState>): (r: seq<Path>)
    ensures |r| <= |secs|
  {
    if |secs| == 0 then []
    else (if secs[0].videoPath.Some? then [secs[0].videoPath.value] else []) + SectionVideos(secs[1..])
  }

  /** The two opening steps: goal, then the section structure, which
      creates one fresh section per structure entry. */
  function OpeningSteps(svc: LongFormServices): seq<Step<LongFormProgress>> {
    [ Step("generate_goal", Some("lf_after_goal"),
           (p: LongFormProgress) => match svc.goal(p.state)
                case Success(v) => Ok(p.(state := p.state.(goal := v)))
                case Failure(m) => Threw(p, m)),
      Step("generate_structure", Some("lf_after_structure"),
           (p: LongFormProgress) => match svc.structure(p.state)
                case Success(ss) => Ok(p.(state := p.state.(sections := seq(|ss|, k requires 0 <= k < |ss| => NewSection(ss[k])))))
                case Failure(m) => Threw(p, m)) ]
  }

  /** `run_long_form`: the opening steps, then every section's steps in
      section order with the cumulative script starting empty, then the
      final concatenation. */
  function RunLongForm(svc: LongFormServices, s: LongFormState): Run<LongFormProgress> {
    match RunSteps(OpeningSteps(svc), LongFormProgress(s, ""))
    case Failed(e, log) => Failed(e, log)
    case Completed(p, log) =>
      var n := |p.state.sections|;
      var steps := SectionsFrom(svc, 0, n) + [Step("assemble_final_long_form", Some("lf_complete"), (q: LongFormProgress) => FinalBody(svc, q))];
      match RunSteps(steps, p)
      case Failed(e, log2) => Failed(e, log + log2)
      case Completed(q, log2) => Completed(q, log + log2)
  }

  /** Every step of section `i` reports its failure under a name beginning
      with `section_{i}_`. */
  lemma SectionNamesPrefixed(svc: LongFormServices, i: nat)
    ensures forall j :: 0 <= j < 8 ==>
      |SectionSteps(svc, i)[j].name| >= |"section_" + NatToString(i) + "_"|
      && SectionSteps(svc, i)[j].name[..|"section_" + NatToString(i) + "_"|] == "section_" + NatToString(i) + "_"
  {
  }

  /** The structure step makes one fresh section per entry, in order, and
      the cumulative script starts empty. */
  lemma StructureCreatesSections(svc: LongFormServices, s: LongFormState, ss: seq<string>)
    requires svc.goal(s).Success? && svc.structure(s.(goal := svc.goal(s).value)) == Success(ss)
    ensures var r := RunSteps(OpeningSteps(svc), LongFormProgress(s, ""));
      r.Completed? && |r.state.state.sections| == |ss| && r.state.cumulative == ""
      && (forall k :: 0 <= k < |ss| ==> r.state.state.sections[k] == NewSection(ss[k]))
      && r.checkpoints == ["lf_after_goal", "lf_after_structure"]
  {
  }

  /** The position of the clip step among a section's steps. */
  const SectionClipsStep: nat := 6

  /** Every section step but the clip step leaves the run's state as it was
      when it raises, so a failure in section `i` keeps the earlier
      sections intact; a raising clip step changes only section `i`'s
      plans, to those the clip stage left. */
  lemma SectionStepsAtomic(svc: LongFormServices, i: nat)
    ensures AtomicExcept(SectionSteps(svc, i), SectionClipsStep) && NeverPropagates(SectionSteps(svc, i))
    ensures SectionSteps(svc, i)[SectionClipsStep].name == SectionStepName(i, "animate")
    ensures forall p :: SectionSteps(svc, i)[SectionClipsStep].body(p).Threw? ==>
      var q := SectionSteps(svc, i)[SectionClipsStep].body(p).state;
      q.cumulative == p.cumulative
      && (i >= |p.state.sections| ==> q == p)
      && (i < |p.state.sections| ==>
            q.state == p.state.(sections := p.state.sections[i := p.state.sections[i].(plans := SectionClipCall(svc, i, p).plans)]))
  {
    var steps := SectionSteps(svc, i);
    forall k, p | 0 <= k < |steps|
      ensures k != SectionClipsStep && steps[k].body(p).Threw? ==> steps[k].body(p).state == p
      ensures !steps[k].body(p).Propagated?
    {
    }
  }
}

/** The V2 orchestrator (`PipelineRunnerV2`): the short-form and long-form
    phase machines with their quality gates, storyboard requests and the
    storyboard-to-plan conversion. Every phase is a guarded block that
    fails under its phase name; a phase that makes several calls is a run
    of steps sharing that name, so a failure part-way keeps the fields the
    earlier calls already set. */
module RunnerV2 {
  import opened Wrappers
  import opened PyText
  import opened PyNum
  import opened Media
  import opened Steps
  import opened V2Models
  import ElevenLabs
  import AudioGenerator
  import VideoAssembler

  // ---------------------------------------------------------------------
  // Quality gates
  // ---------------------------------------------------------------------

  /** Revisions a gate may make before it gives up and keeps what it has. */
  const MaxRevisions: nat := 2

  /** A gate's current draft, the judge's latest report on it, and the
      revision counter. */
  datatype Gate<D, R> = Gate(draft: D, report: R, revisions: nat)

  /** A gate loop ends settled or with the exception of a revise or
      evaluate call, carrying the gate as the loop left it. */
  datatype GateEnd<D, R> = Settled(gate: Gate<D, R>) | Raised(gate: Gate<D, R>, message: string)

  /** The revision loop: while the latest report has not passed and fewer
      than two revisions were made, count a revision, revise the draft
      and evaluate the new draft. The new draft replaces the old one
      whatever the judge thinks of it. */
  function ReviseLoop<D, R>(revise: (D, R) -> Result<D, string>, evaluate: D -> Result<R, string>,
                            passed: R -> bool, g: Gate<D, R>): (e: GateEnd<D, R>)
    ensures g.revisions <= e.gate.revisions
    ensures e.gate.revisions == g.revisions || e.gate.revisions <= MaxRevisions
    ensures e.Settled? ==> passed(e.gate.report) || e.gate.revisions >= MaxRevisions
    ensures e.Settled? && e.gate.revisions > g.revisions ==> evaluate(e.gate.draft) == Success(e.gate.report)
    ensures passed(g.report) || g.revisions >= MaxRevisions ==> e == Settled(g)
    decreases if g.revisions < MaxRevisions then MaxRevisions - g.revisions else 0
  {
    if passed(g.report) || g.revisions >= MaxRevisions then Settled(g)
    else
      var counted := g.(revisions := g.revisions + 1);
      match revise(g.draft, g.report)
      case Failure(m) => Raised(counted, m)
      case Success(d) =>
        match evaluate(d)
        case Failure(m) => Raised(counted.(draft := d), m)
        case Success(r) => ReviseLoop(revise, evaluate, passed, counted.(draft := d, report := r))
  }

  /** Starting from no revisions, a gate makes at most two. */
  lemma GateBound<D, R>(revise: (D, R) -> Result<D, string>, evaluate: D -> Result<R, string>,
                        passed: R -> bool, d: D, r: R)
    ensures ReviseLoop(revise, evaluate, passed, Gate(d, r, 0)).gate.revisions <= MaxRevisions
  {
  }

  /** When both revisions fail the judge, the gate keeps the second
      revision and its failing report: not the original draft, and not
      whichever draft scored best. */
  lemma LastRevisionKept<D, R>(revise: (D, R) -> Result<D, string>, evaluate: D -> Result<R, string>,
                               passed: R -> bool, d0: D, r0: R, d1: D, r1: R, d2: D, r2: R)
    requires !passed(r0) && revise(d0, r0) == Success(d1) && evaluate(d1) == Success(r1)
    requires !passed(r1) && revise(d1, r1) == Success(d2) && evaluate(d2) == Success(r2)
    ensures ReviseLoop(revise, evaluate, passed, Gate(d0, r0, 0)) == Settled(Gate(d2, r2, 2))
  {
    assert ReviseLoop(revise, evaluate, passed, Gate(d0, r0, 0)) == ReviseLoop(revise, evaluate, passed, Gate(d1, r1, 1));
    assert ReviseLoop(revise, evaluate, passed, Gate(d1, r1, 1)) == ReviseLoop(revise, evaluate, passed, Gate(d2, r2, 2));
  }

  // ---------------------------------------------------------------------
  // Storyboards
  // ---------------------------------------------------------------------

  /** What the storyboard writer is told about one beat. */
  datatype BeatRequest = BeatRequest(
    rawText: string, visualIntent: string, beatType: string, energyLevel: Score, durationMs: int)

  /** The beat's length in milliseconds: `int(duration * 1000)` of its
      timing, or 3000 when no timing exists for it. */
  function BeatDurationMs(timings: seq<SegmentTiming>, i: nat): (ms: int)
    ensures i >= |timings| ==> ms == DefaultShotMs
    ensures i < |timings| && timings[i].duration >= 0.0 ==>
      ms >= 0 && ms as real <= timings[i].duration * 1000.0 < ms as real + 1.0
  {
    if i < |timings| then Trunc(timings[i].duration * 1000.0) else DefaultShotMs
  }

  /** The short-form storyboard request: every beat with its own fields and
      the length of its timing. */
  function BeatRequests(beats: seq<ScriptBeat>, timings: seq<SegmentTiming>): (rs: seq<BeatRequest>)
    ensures |rs| == |beats|
    ensures forall i :: 0 <= i < |beats| ==>
      rs[i] == BeatRequest(beats[i].rawText, beats[i].visualIntent, beats[i].beatType,
                           beats[i].energyLevel, BeatDurationMs(timings, i))
  {
    seq(|beats|, i requires 0 <= i < |beats| =>
      BeatRequest(beats[i].rawText, beats[i].visualIntent, beats[i].beatType, beats[i].energyLevel,
                  BeatDurationMs(timings, i)))
  }

  /** The long-form storyboard request for a section: every segment as a
      default beat whose intent quotes its first 60 characters. */
  function SegmentRequests(segments: seq<string>, timings: seq<SegmentTiming>): (rs: seq<BeatRequest>)
    ensures |rs| == |segments|
    ensures forall i :: 0 <= i < |segments| ==>
      rs[i] == BeatRequest(segments[i], "B-roll for: " + Take(segments[i], 60), "setup",
                           DefaultEnergy, BeatDurationMs(timings, i))
  {
    seq(|segments|, i requires 0 <= i < |segments| =>
      BeatRequest(segments[i], "B-roll for: " + Take(segments[i], 60), "setup", DefaultEnergy,
                  BeatDurationMs(timings, i)))
  }

  /** Beats past the last timing are asked for at the default shot length. */
  lemma UntimedBeatsDefault(beats: seq<ScriptBeat>, timings: seq<SegmentTiming>, i: nat)
    requires |timings| <= i < |beats|
    ensures BeatRequests(beats, timings)[i].durationMs == NewShot("").durationMs
  {
  }

  /** `_build_visual_plans_from_storyboard` for entry `i`: one image per
      shot, described by the shot's prompt without the logo; the last image
      holds the last shot's length in seconds, or 3 s when there are no
      shots. No images or clip yet. */
  function PlanFromStoryboard(i: nat, sb: SegmentStoryboard): SegmentVisualPlan {
    var last := if |sb.shots| > 0 then sb.shots[|sb.shots| - 1].durationMs as real / 1000.0 else 3.0;
    SegmentVisualPlan(i, |sb.shots|, last,
      seq(|sb.shots|, j requires 0 <= j < |sb.shots| => ImageDescription(sb.shots[j].imagePrompt, false)),
      [], None)
  }

  /** One plan per storyboard entry, indexed by position. */
  function PlansFromStoryboard(storyboard: seq<SegmentStoryboard>): (ps: seq<SegmentVisualPlan>)
    ensures |ps| == |storyboard|
    ensures forall i :: 0 <= i < |storyboard| ==> ps[i] == PlanFromStoryboard(i, storyboard[i])
  {
    seq(|storyboard|, i requires 0 <= i < |storyboard| => PlanFromStoryboard(i, storyboard[i]))
  }

  /** Each converted plan is consistent with its entry: its index is its
      position, it asks for exactly as many images as it has prompts, the
      prompts are the shots' prompts in shot order, none uses the logo,
      and its last image is as long as the last shot. */
  lemma StoryboardPlans(storyboard: seq<SegmentStoryboard>, i: nat)
    requires i < |storyboard|
    ensures var p := PlansFromStoryboard(storyboard)[i];
      var shots := storyboard[i].shots;
      p.segmentIndex == i && p.numImages == |p.imageDescriptions| == |shots|
      && (forall j :: 0 <= j < |shots| ==>
            p.imageDescriptions[j].description == shots[j].imagePrompt && !p.imageDescriptions[j].usesLogo)
      && (|shots| > 0 ==> p.lastImageDuration * 1000.0 == shots[|shots| - 1].durationMs as real)
      && (|shots| == 0 ==> p.lastImageDuration == 3.0)
      && p.imagePaths == [] && p.videoPath.None?
  {
  }

  /** A last shot left at its default length gives the same last-image
      length as the no-shot fallback: 3 seconds. */
  lemma DefaultShotMatchesFallback(shots: seq<ShotPlan>, prompt: string)
    ensures PlanFromStoryboard(0, NewStoryboard(shots + [NewShot(prompt)])).lastImageDuration
         == PlanFromStoryboard(0, NewStoryboard([])).lastImageDuration
  {
  }

  /** `bool(plans and plans[0].image_paths)`: base images are used only when
      the first plan has images. */
  predicate UseBaseImages(plans: seq<SegmentVisualPlan>) {
    |plans| > 0 && |plans[0].imagePaths| > 0
  }

  // ---------------------------------------------------------------------
  // Short form
  // ---------------------------------------------------------------------

  /** The fields of `ShortFormV2State` the run reads or writes; the research
      brief and the style guide are opaque text. */
  datatype ShortFormV2State = ShortFormV2State(
    enableResearch: bool, videoGen: bool, addEndBuffer: bool, addSubtitles: bool, ideal: real,
    research: Option<string>, script: Option<FullScript>, report: Option<QualityReport>, revisions: nat,
    audioPath: Option<Path>, words: seq<WordAlignment>, timings: seq<SegmentTiming>,
    styleGuide: Option<string>, storyboard: seq<SegmentStoryboard>,
    plans: seq<SegmentVisualPlan>, clipPaths: seq<Path>, finalVideo: Option<Path>)

  /** The calls the run makes. The evaluate and revise calls see the state
      for its fixed inputs (topic, research, ...) and the draft and report
      they work on explicitly. */
  datatype ShortFormV2Services = ShortFormV2Services(
    research: ShortFormV2State -> Result<string, string>,
    write: ShortFormV2State -> Result<FullScript, string>,
    evaluate: (ShortFormV2State, FullScript) -> Result<QualityReport, string>,
    revise: (ShortFormV2State, FullScript, QualityReport) -> Result<FullScript, string>,
    tts: string -> Result<AudioGenerator.Speech, string>,
    ratio: ElevenLabs.Ratio,
    styleGuide: ShortFormV2State -> Result<string, string>,
    storyboard: (ShortFormV2State, seq<BeatRequest>) -> Result<seq<SegmentStoryboard>, string>,
    images: seq<SegmentVisualPlan> -> Result<seq<SegmentVisualPlan>, string>,
    videoClips: (seq<SegmentVisualPlan>, seq<SegmentTiming>, bool) -> Written<string>,
    animate: (seq<SegmentVisualPlan>, real) -> Written<string>,
    output: Path,
    render: VideoAssembler.Assembly -> Result<Path, string>)

  /** The message Python gives for reading an attribute of `None`. */
  function NoneAttribute(name: string): string {
    "'NoneType' object has no attribute '" + name + "'"
  }

  /** Script phase, second call: the judge's report on the draft. */
  function EvaluateBody(svc: ShortFormV2Services, s: ShortFormV2State): (o: Outcome<ShortFormV2State>)
    ensures o.Threw? ==> o.state == s
    ensures o.Ok? <==> s.script.Some? && svc.evaluate(s, s.script.value).Success?
    ensures o.Ok? ==> o.state == s.(report := Some(svc.evaluate(s, s.script.value).value))
  {
    match s.script
    case None => Threw(s, NoneAttribute("beats"))
    case Some(fs) =>
      match svc.evaluate(s, fs)
      case Failure(m) => Threw(s, m)
      case Success(r) => Ok(s.(report := Some(r)))
  }

  /** Script phase, the revision loop. A failure inside the loop leaves the
      counter and the draft as far as the loop had got. */
  function GateBody(svc: ShortFormV2Services, s: ShortFormV2State): (o: Outcome<ShortFormV2State>)
    ensures !o.Propagated?
    ensures o.Ok? ==> s.script.Some? && s.report.Some? && o.state.script.Some? && o.state.report.Some?
    ensures o.Ok? ==> o.state.report.value.passed || o.state.revisions >= MaxRevisions
    ensures o.Ok? && o.state.revisions > s.revisions ==>
      svc.evaluate(s, o.state.script.value) == Success(o.state.report.value)
    ensures s.revisions <= o.state.revisions
    ensures o.state.revisions == s.revisions || o.state.revisions <= MaxRevisions
    ensures o.state == s.(script := o.state.script, report := o.state.report, revisions := o.state.revisions)
  {
    if s.script.None? || s.report.None? then Threw(s, NoneAttribute("passed"))
    else
      var e := ReviseLoop((d: FullScript, r: QualityReport) => svc.revise(s, d, r),
                          (d: FullScript) => svc.evaluate(s, d),
                          (r: QualityReport) => r.passed,
                          Gate(s.script.value, s.report.value, s.revisions));
      var t := s.(script := Some(e.gate.draft), report := Some(e.gate.report), revisions := e.gate.revisions);
      match e
      case Settled(_) => Ok(t)
      case Raised(_, m) => Threw(t, m)
  }

  /** The gate reads the judge's `passed` flag and never the scores
      (`passed` is described as "all scores at least 7", but nothing
      checks it): a passing report ends the gate at once, with the state
      untouched, whatever its scores; a failing one is revised while the
      budget lasts, whatever its scores, and a revision that raises leaves
      the counter already advanced. */
  lemma GateReadsOnlyPassed(svc: ShortFormV2Services, s: ShortFormV2State)
    requires s.script.Some? && s.report.Some?
    ensures s.report.value.passed || s.revisions >= MaxRevisions ==> GateBody(svc, s) == Ok(s)
    ensures !s.report.value.passed && s.revisions < MaxRevisions ==>
      GateBody(svc, s).state.revisions > s.revisions
      && (svc.revise(s, s.script.value, s.report.value).Failure? ==>
            GateBody(svc, s) == Threw(s.(revisions := s.revisions + 1), svc.revise(s, s.script.value, s.report.value).error))
  {
  }

  /** The voiced text of a script: its beats' audio-tagged texts. */
  function TtsTexts(beats: seq<ScriptBeat>): (ts: seq<string>)
    ensures |ts| == |beats|
    ensures forall i :: 0 <= i < |beats| ==> ts[i] == beats[i].ttsText
  {
    seq(|beats|, i requires 0 <= i < |beats| => beats[i].ttsText)
  }

  /** Audio phase: voices the beats' tagged texts joined by spaces and
      aligns the same tagged texts, beat by beat, to the words returned. */
  function AudioBody(svc: ShortFormV2Services, s: ShortFormV2State): (o: Outcome<ShortFormV2State>)
    ensures o.Threw? ==> o.state == s
    ensures o.Ok? <==> s.script.Some? && svc.tts(Join(" ", TtsTexts(s.script.value.beats))).Success?
    ensures o.Ok? ==>
      var sp := svc.tts(Join(" ", TtsTexts(s.script.value.beats))).value;
      o.state == s.(audioPath := Some(sp.audioPath), words := sp.words,
                    timings := ElevenLabs.AlignSegments(svc.ratio, TtsTexts(s.script.value.beats), sp.words))
  {
    match s.script
    case None => Threw(s, NoneAttribute("beats"))
    case Some(fs) =>
      var texts := TtsTexts(fs.beats);
      match svc.tts(Join(" ", texts))
      case Failure(m) => Threw(s, m)
      case Success(sp) =>
        Ok(s.(audioPath := Some(sp.audioPath), words := sp.words,
              timings := ElevenLabs.AlignSegments(svc.ratio, texts, sp.words)))
  }

  /** Visual planning, second call: the storyboard, asked for with every
      beat and its timed length. */
  function StoryboardBody(svc: ShortFormV2Services, s: ShortFormV2State): (o: Outcome<ShortFormV2State>)
    ensures o.Threw? ==> o.state == s
    ensures o.Ok? <==> s.script.Some? && svc.storyboard(s, BeatRequests(s.script.value.beats, s.timings)).Success?
    ensures o.Ok? ==> o.state == s.(storyboard := svc.storyboard(s, BeatRequests(s.script.value.beats, s.timings)).value)
  {
    match s.script
    case None => Threw(s, NoneAttribute("beats"))
    case Some(fs) =>
      match svc.storyboard(s, BeatRequests(fs.beats, s.timings))
      case Failure(m) => Threw(s, m)
      case Success(sb) => Ok(s.(storyboard := sb))
  }

  /** Image phase: the storyboard becomes the plans (kept even if image
      generation then fails), and the image service fills them in. */
  function ImagesBody(svc: ShortFormV2Services, s: ShortFormV2State): (o: Outcome<ShortFormV2State>)
    ensures !o.Propagated?
    ensures o.state == s.(plans := o.state.plans)
    ensures o.Threw? ==> o.state.plans == PlansFromStoryboard(s.storyboard)
    ensures o.Ok? <==> svc.images(PlansFromStoryboard(s.storyboard)).Success?
    ensures o.Ok? ==> o.state.plans == svc.images(PlansFromStoryboard(s.storyboard)).value
  {
    var ps := PlansFromStoryboard(s.storyboard);
    match svc.images(ps)
    case Failure(m) => Threw(s.(plans := ps), m)
    case Success(v) => Ok(s.(plans := v))
  }

  /** Image phase, visual QA: `_run_visual_qa` only gathers the prompts and
      paths of the generated images and logs their count; it calls no
      service and changes nothing, so the phase returns its state. */
  function QaBody(s: ShortFormV2State): Outcome<ShortFormV2State> {
    Ok(s)
  }

  /** Clip phase: video API clips (with base images when the first plan has
      images) or zoompan; `clip_paths` is the non-null clips in order. The
      clip stage writes `video_path` on the state's own plans, so when it
      raises the state already holds the plans as the stage left them. */
  function ClipsBody(svc: ShortFormV2Services, s: ShortFormV2State): (o: Outcome<ShortFormV2State>)
    ensures var call := if s.videoGen then svc.videoClips(s.plans, s.timings, UseBaseImages(s.plans))
                        else svc.animate(s.plans, s.ideal);
      (o.Ok? <==> call.raised.None?)
      && (o.Ok? ==> o.state == s.(plans := call.plans, clipPaths := ClipPaths(call.plans)))
      && (call.raised.Some? ==> o == Threw(s.(plans := call.plans), call.raised.value))
  {
    var call := if s.videoGen then svc.videoClips(s.plans, s.timings, UseBaseImages(s.plans))
                else svc.animate(s.plans, s.ideal);
    match call.raised
    case None => Ok(s.(plans := call.plans, clipPaths := ClipPaths(call.plans)))
    case Some(m) => Threw(s.(plans := call.plans), m)
  }

  /** Assembly phase: `assemble_short_form` (which raises when no plan has a
      clip) and the render; words are handed over only with subtitles on. */
  function AssembleBody(svc: ShortFormV2Services, s: ShortFormV2State): (o: Outcome<ShortFormV2State>)
    ensures (forall i :: 0 <= i < |s.plans| ==> s.plans[i].videoPath.None?) ==> o.Threw?
    ensures o.Threw? ==> o.state == s
    ensures o.Ok? ==> o.state == s.(finalVideo := o.state.finalVideo) && o.state.finalVideo.Some?
  {
    var words := if s.addSubtitles then Some(s.words) else None;
    match VideoAssembler.AssembleShortForm(s.plans, s.audioPath.GetOr(""), svc.output, s.addEndBuffer, s.addSubtitles, words)
    case Failure(m) => Threw(s, m)
    case Success(a) =>
      match svc.render(a)
      case Failure(m) => Threw(s, m)
      case Success(p) => Ok(s.(finalVideo := Some(p)))
  }

  /** The research phase, present only when research is enabled. */
  function ResearchSteps(svc: ShortFormV2Services, enabled: bool): seq<Step<ShortFormV2State>> {
    if enabled then
      [Step("research", Some("sf2_after_research"),
            Store(svc.research, (s: ShortFormV2State, v: string) => s.(research := Some(v))))]
    else []
  }

  /** The phases after research, in source order. */
  function MainSteps(svc: ShortFormV2Services): seq<Step<ShortFormV2State>> {
    [ Step("script_generation", Some("sf2_after_script"),
           Store(svc.write, (s: ShortFormV2State, v: FullScript) => s.(script := Some(v)))),
      Step("script_generation", Some("sf2_after_quality_gate"), s => EvaluateBody(svc, s)),
      Step("script_generation", None, s => GateBody(svc, s)),
      Step("audio", Some("sf2_after_audio"), s => AudioBody(svc, s)),
      Step("visual_planning", None,
           Store(svc.styleGuide, (s: ShortFormV2State, v: string) => s.(styleGuide := Some(v)))),
      Step("visual_planning", Some("sf2_after_storyboard"), s => StoryboardBody(svc, s)),
      Step("image_generation", Some("sf2_after_images"), s => ImagesBody(svc, s)),
      Step("image_generation", Some("sf2_after_visual_qa"), s => QaBody(s)),
      Step("video_clips", Some("sf2_after_clips"), s => ClipsBody(svc, s)),
      Step("assembly", Some("sf2_complete"), s => AssembleBody(svc, s)) ]
  }

  function ShortFormV2Steps(svc: ShortFormV2Services, research: bool): seq<Step<ShortFormV2State>> {
    ResearchSteps(svc, research) + MainSteps(svc)
  }

  /** `run_short_form_v2`. Saving the history record swallows its own
      failure and is left out. */
  function RunShortFormV2(svc: ShortFormV2Services, s: ShortFormV2State): Run<ShortFormV2State> {
    RunSteps(ShortFormV2Steps(svc, s.enableResearch), s)
  }

  /** The phases run in order, with research first exactly when it is
      enabled. */
  lemma ShortFormV2Order(svc: ShortFormV2Services, research: bool)
    ensures Names(ShortFormV2Steps(svc, research))
      == (if research then ["research"] else [])
         + ["script_generation", "script_generation", "script_generation", "audio",
            "visual_planning", "visual_planning", "image_generation", "image_generation",
            "video_clips", "assembly"]
    ensures research <==> "research" in Names(ShortFormV2Steps(svc, research))
  {
    var names := Names(ShortFormV2Steps(svc, research));
    if !research {
      assert forall i :: 0 <= i < |names| ==> names[i] != "research";
    } else {
      assert names[0] == "research";
    }
  }

  /** The success checkpoints of the short form, in the order the source
      writes them, the visual-QA one included. */
  function ShortFormV2Labels(research: bool): seq<string> {
    (if research then ["sf2_after_research"] else [])
    + ["sf2_after_script", "sf2_after_quality_gate", "sf2_after_audio", "sf2_after_storyboard",
       "sf2_after_images", "sf2_after_visual_qa", "sf2_after_clips", "sf2_complete"]
  }

  /** A completed short-form run has written exactly those checkpoints. */
  lemma ShortFormV2Checkpoints(svc: ShortFormV2Services, s: ShortFormV2State)
    requires RunShortFormV2(svc, s).Completed?
    ensures RunShortFormV2(svc, s).checkpoints == ShortFormV2Labels(s.enableResearch)
  {
    var steps := ShortFormV2Steps(svc, s.enableResearch);
    RunStepsSpec(steps, s);
    StepLabels(svc, s.enableResearch);
  }

  /** All the steps' checkpoints, the two unlabelled ones skipped. */
  lemma StepLabels(svc: ShortFormV2Services, research: bool)
    ensures var steps := ShortFormV2Steps(svc, research);
      CheckpointsUpTo(steps, |steps|) == ShortFormV2Labels(research)
  {
    var r := ResearchSteps(svc, research);
    var m := MainSteps(svc);
    CheckpointsOfAppend(r, m, |m|);
    assert CheckpointsUpTo(r, |r|) == (if research then ["sf2_after_research"] else []);
    MainLabels(svc);
  }

  lemma MainLabels(svc: ShortFormV2Services)
    ensures CheckpointsUpTo(MainSteps(svc), 10)
      == ["sf2_after_script", "sf2_after_quality_gate", "sf2_after_audio", "sf2_after_storyboard",
          "sf2_after_images", "sf2_after_visual_qa", "sf2_after_clips", "sf2_complete"]
  {
    var m := MainSteps(svc);
    assert CheckpointsUpTo(m, 1) == ["sf2_after_script"];
    assert CheckpointsUpTo(m, 2) == ["sf2_after_script", "sf2_after_quality_gate"];
    assert CheckpointsUpTo(m, 3) == ["sf2_after_script", "sf2_after_quality_gate"];
    assert CheckpointsUpTo(m, 4) == ["sf2_after_script", "sf2_after_quality_gate", "sf2_after_audio"];
    assert CheckpointsUpTo(m, 5) == ["sf2_after_script", "sf2_after_quality_gate", "sf2_after_audio"];
    assert CheckpointsUpTo(m, 6) == ["sf2_after_script", "sf2_after_quality_gate", "sf2_after_audio", "sf2_after_storyboard"];
    assert CheckpointsUpTo(m, 7) == ["sf2_after_script", "sf2_after_quality_gate", "sf2_after_audio", "sf2_after_storyboard", "sf2_after_images"];
    assert CheckpointsUpTo(m, 8) == ["sf2_after_script", "sf2_after_quality_gate", "sf2_after_audio", "sf2_after_storyboard", "sf2_after_images", "sf2_after_visual_qa"];
    assert CheckpointsUpTo(m, 9) == ["sf2_after_script", "sf2_after_quality_gate", "sf2_after_audio", "sf2_after_storyboard", "sf2_after_images", "sf2_after_visual_qa", "sf2_after_clips"];
  }

  /** No phase raises a pipeline error of its own. */
  lemma ShortFormV2NeverPropagates(svc: ShortFormV2Services, research: bool)
    ensures NeverPropagates(ShortFormV2Steps(svc, research))
  {
    var steps := ShortFormV2Steps(svc, research);
    forall k, t | 0 <= k < |steps|
      ensures !steps[k].body(t).Propagated?
    {
      var b := if research then 1 else 0;
      if k >= b {
        assert steps[k] == MainSteps(svc)[k - b];
      }
    }
  }

  /** Visual QA never fails a run: its step, right after the images are
      saved, returns its state unchanged and writes the
      `sf2_after_visual_qa` checkpoint. */
  lemma VisualQaNonFatal(svc: ShortFormV2Services, research: bool, t: ShortFormV2State)
    ensures var steps := ShortFormV2Steps(svc, research);
      var k := (if research then 1 else 0) + 7;
      k < |steps| && steps[k].name == "image_generation" && steps[k].body(t) == Ok(t)
      && steps[k].checkpoint == Some("sf2_after_visual_qa")
      && steps[k - 1].checkpoint == Some("sf2_after_images")
  {
    var b := if research then 1 else 0;
    assert ShortFormV2Steps(svc, research)[b + 7] == MainSteps(svc)[7];
  }

  /** The quality gate's exit condition: the report passed, or the revision
      budget is spent. */
  predicate ReportSettled(t: ShortFormV2State) {
    t.report.Some? && (t.report.value.passed || t.revisions >= MaxRevisions)
  }

  /** The gate step leaves its exit condition holding. */
  lemma GateStepSettles(svc: ShortFormV2Services, t: ShortFormV2State)
    requires MainSteps(svc)[2].body(t).Ok?
    ensures ReportSettled(MainSteps(svc)[2].body(t).state)
  {
  }

  /** Every phase after the gate keeps its exit condition. */
  lemma AfterGateKeepsReport(svc: ShortFormV2Services, j: nat, t: ShortFormV2State)
    requires 2 < j < |MainSteps(svc)| && ReportSettled(t) && MainSteps(svc)[j].body(t).Ok?
    ensures ReportSettled(MainSteps(svc)[j].body(t).state)
  {
    var o := MainSteps(svc)[j].body(t);
    if j == 3 {
      assert o == AudioBody(svc, t);
    } else if j == 4 {
      assert o.state.report == t.report && o.state.revisions == t.revisions;
    } else if j == 5 {
      assert o == StoryboardBody(svc, t);
    } else if j == 6 {
      assert o == ImagesBody(svc, t);
    } else if j == 7 {
      assert o == QaBody(t);
    } else if j == 8 {
      assert o == ClipsBody(svc, t);
    } else {
      assert o == AssembleBody(svc, t);
    }
  }

  /** The quality gate's exit condition survives to the end of a completed
      run: the final report passed, or two revisions were made. */
  lemma ShortFormV2GateSettles(svc: ShortFormV2Services, s: ShortFormV2State)
    requires RunShortFormV2(svc, s).Completed?
    ensures var f := RunShortFormV2(svc, s).state;
      f.report.Some? && (f.report.value.passed || f.revisions >= MaxRevisions)
  {
    var steps := ShortFormV2Steps(svc, s.enableResearch);
    var main := MainSteps(svc);
    var b := |ResearchSteps(svc, s.enableResearch)|;
    assert steps == ResearchSteps(svc, s.enableResearch) + main;
    var gate := steps[b + 2];
    assert gate == main[2];
    forall t | gate.body(t).Ok?
      ensures ReportSettled(gate.body(t).state)
    {
      GateStepSettles(svc, t);
    }
    forall j, t | b + 2 < j < |steps| && ReportSettled(t) && steps[j].body(t).Ok?
      ensures ReportSettled(steps[j].body(t).state)
    {
      assert steps[j] == main[j - b];
      AfterGateKeepsReport(svc, j - b, t);
    }
    EstablishedBy(steps, s, b + 2, ReportSettled);
  }

  // ---------------------------------------------------------------------
  // Long form
  // ---------------------------------------------------------------------

  /** The fields of `SectionV2State` the run writes. */
  datatype SectionV2 = SectionV2(
    plan: SectionPlanV2, script: Option<string>, ttsScript: Option<string>,
    audioPath: Option<Path>, words: seq<WordAlignment>, segments: seq<string>, timings: seq<SegmentTiming>,
    plans: seq<SegmentVisualPlan>, clipPaths: seq<Path>, videoPath: Option<Path>)

  /** A section as the outline creates it: its plan and nothing else. */
  function NewSectionV2(plan: SectionPlanV2): SectionV2 {
    SectionV2(plan, None, None, None, [], [], [], [], [], None)
  }

  /** The fields of `LongFormV2State` the run reads or writes. */
  datatype LongFormV2State = LongFormV2State(
    enableResearch: bool, strategy: string, videoGen: bool, ideal: real,
    research: Option<string>, outline: Option<VideoOutlineV2>, review: Option<OutlineReview>, revisions: nat,
    sections: seq<SectionV2>, fullScript: Option<string>, finalVideo: Option<Path>)

  /** The calls the run makes. The outline writer takes the revision notes
      (none on the first call); the section writer takes the section's
      index and the cumulative script (empty when sections are written in
      parallel); the storyboard writer takes the style guide. */
  datatype LongFormV2Services = LongFormV2Services(
    research: LongFormV2State -> Result<string, string>,
    outline: (LongFormV2State, seq<string>) -> Result<VideoOutlineV2, string>,
    evaluate: (LongFormV2State, VideoOutlineV2) -> Result<OutlineReview, string>,
    sectionScript: (LongFormV2State, nat, string) -> Result<SectionScriptV2, string>,
    connector: seq<SectionV2> -> Result<seq<string>, string>,
    tts: string -> Result<AudioGenerator.Speech, string>,
    segment: string -> Result<seq<string>, string>,
    ratio: ElevenLabs.Ratio,
    styleGuide: LongFormV2State -> Result<string, string>,
    storyboard: (LongFormV2State, string, seq<BeatRequest>) -> Result<seq<SegmentStoryboard>, string>,
    images: seq<SegmentVisualPlan> -> Result<seq<SegmentVisualPlan>, string>,
    videoClips: (seq<SegmentVisualPlan>, seq<SegmentTiming>, bool) -> Written<string>,
    animate: (seq<SegmentVisualPlan>, real) -> Written<string>,
    sectionOutput: nat -> Path,
    render: VideoAssembler.Assembly -> Result<Path, string>,
    concat: seq<Path> -> Result<Path, string>)

  /** What a per-section task leaves behind: the section, and the message
      when it raised. */
  datatype Attempt<X> = Done(value: X) | Broke(value: X, message: string)

  /** A fan-out over the sections from `i` on, taken in section order: the
      first task that raises stops the phase, with the sections before it
      updated and the failing one as its task left it. */
  function ForEach<X>(xs: seq<X>, f: (nat, X) -> Attempt<X>, i: nat): (r: Attempt<seq<X>>)
    requires i <= |xs|
    ensures |r.value| == |xs|
    decreases |xs| - i
  {
    if i == |xs| then Done(xs)
    else
      match f(i, xs[i])
      case Done(y) => ForEach(xs[i := y], f, i + 1)
      case Broke(y, m) => Broke(xs[i := y], m)
  }

  /** A fan-out that completes has run every task once, on the section as
      it was, and stored each result at its own index; one that stops names
      a task that raised, every task before it succeeded, and the sections
      after it are untouched. */
  lemma {:induction false} ForEachSpec<X>(xs: seq<X>, f: (nat, X) -> Attempt<X>, i: nat)
    requires i <= |xs|
    ensures var r := ForEach(xs, f, i);
      forall k :: 0 <= k < i ==> r.value[k] == xs[k]
    ensures var r := ForEach(xs, f, i);
      r.Done? ==> forall k :: i <= k < |xs| ==> f(k, xs[k]).Done? && r.value[k] == f(k, xs[k]).value
    ensures var r := ForEach(xs, f, i);
      r.Broke? ==> (exists b :: i <= b < |xs| && f(b, xs[b]).Broke? && r.message == f(b, xs[b]).message
                      && r.value[b] == f(b, xs[b]).value
                      && (forall k :: i <= k < b ==> f(k, xs[k]).Done? && r.value[k] == f(k, xs[k]).value)
                      && (forall k :: b < k < |xs| ==> r.value[k] == xs[k]))
    decreases |xs| - i
  {
    if i < |xs| {
      match f(i, xs[i])
      case Done(y) =>
        var ys := xs[i := y];
        ForEachSpec(ys, f, i + 1);
        assert forall k :: i < k < |xs| ==> ys[k] == xs[k];
      case Broke(y, m) =>
    }
  }

  /** A phase that runs one task per section over the whole run's state. */
  function SectionsPhase(s: LongFormV2State, f: (nat, SectionV2) -> Attempt<SectionV2>): (o: Outcome<LongFormV2State>)
    ensures !o.Propagated? && o.state == s.(sections := ForEach(s.sections, f, 0).value)
    ensures o.Ok? <==> ForEach(s.sections, f, 0).Done?
  {
    match ForEach(s.sections, f, 0)
    case Done(v) => Ok(s.(sections := v))
    case Broke(v, m) => Threw(s.(sections := v), m)
  }

  /** A per-section phase succeeds exactly when every section's task does,
      and then each section holds its own task's result. */
  lemma SectionsPhaseSpec(s: LongFormV2State, f: (nat, SectionV2) -> Attempt<SectionV2>)
    ensures SectionsPhase(s, f).Ok? <==> forall k :: 0 <= k < |s.sections| ==> f(k, s.sections[k]).Done?
    ensures SectionsPhase(s, f).Ok? ==>
      forall k :: 0 <= k < |s.sections| ==> SectionsPhase(s, f).state.sections[k] == f(k, s.sections[k]).value
  {
    ForEachSpec(s.sections, f, 0);
  }

  /** Outline phase, second call: the judge's review of the outline. */
  function EvaluateOutlineBody(svc: LongFormV2Services, s: LongFormV2State): (o: Outcome<LongFormV2State>)
    ensures o.Threw? ==> o.state == s
    ensures o.Ok? <==> s.outline.Some? && svc.evaluate(s, s.outline.value).Success?
    ensures o.Ok? ==> o.state == s.(review := Some(svc.evaluate(s, s.outline.value).value))
  {
    match s.outline
    case None => Threw(s, NoneAttribute("model_dump"))
    case Some(ol) =>
      match svc.evaluate(s, ol)
      case Failure(m) => Threw(s, m)
      case Success(r) => Ok(s.(review := Some(r)))
  }

  /** One fresh section per outline section, in outline order. */
  function SectionsOf(ol: VideoOutlineV2): (secs: seq<SectionV2>)
    ensures |secs| == |ol.sections|
    ensures forall i :: 0 <= i < |secs| ==> secs[i] == NewSectionV2(ol.sections[i])
  {
    seq(|ol.sections|, i requires 0 <= i < |ol.sections| => NewSectionV2(ol.sections[i]))
  }

  /** Outline phase, the revision loop (the writer is re-asked with the
      latest review's notes), then the sections of the final outline. */
  function OutlineGateBody(svc: LongFormV2Services, s: LongFormV2State): (o: Outcome<LongFormV2State>)
    ensures !o.Propagated?
    ensures o.Ok? ==> o.state.outline.Some? && o.state.review.Some?
    ensures o.Ok? ==> o.state.review.value.passed || o.state.revisions >= MaxRevisions
    ensures o.Ok? ==> o.state.sections == SectionsOf(o.state.outline.value)
    ensures s.revisions <= o.state.revisions
    ensures o.state.revisions == s.revisions || o.state.revisions <= MaxRevisions
  {
    if s.outline.None? || s.review.None? then Threw(s, NoneAttribute("passed"))
    else
      var e := ReviseLoop((d: VideoOutlineV2, r: OutlineReview) => svc.outline(s, r.revisionNotes),
                          (d: VideoOutlineV2) => svc.evaluate(s, d),
                          (r: OutlineReview) => r.passed,
                          Gate(s.outline.value, s.review.value, s.revisions));
      var t := s.(outline := Some(e.gate.draft), review := Some(e.gate.report), revisions := e.gate.revisions);
      match e
      case Settled(g) => Ok(t.(sections := SectionsOf(g.draft)))
      case Raised(_, m) => Threw(t, m)
  }

  /** The section with its newly written scripts. */
  function WithScript(sec: SectionV2, w: SectionScriptV2): SectionV2 {
    sec.(script := Some(w.sectionScript), ttsScript := Some(w.ttsScript))
  }

  /** `_write_one` for section `i`, written without the cumulative script. */
  function WriteOne(svc: LongFormV2Services, s: LongFormV2State, i: nat, sec: SectionV2): Attempt<SectionV2> {
    match svc.sectionScript(s, i, "")
    case Failure(m) => Broke(sec, m)
    case Success(w) => Done(WithScript(sec, w))
  }

  /** The connector pass: smoothed text `i` replaces the script of section
      `i` when that section exists; extra texts are ignored and sections
      without a text keep their script. */
  function ConnectorPass(secs: seq<SectionV2>, smoothed: seq<string>): (r: seq<SectionV2>)
    ensures |r| == |secs|
  {
    seq(|secs|, i requires 0 <= i < |secs| => if i < |smoothed| then secs[i].(script := Some(smoothed[i])) else secs[i])
  }

  /** Only the script of a section the pass reaches changes, and texts
      beyond the last section make no difference. */
  lemma ConnectorPassSpec(secs: seq<SectionV2>, smoothed: seq<string>)
    ensures forall i :: 0 <= i < |secs| && i < |smoothed| ==>
      ConnectorPass(secs, smoothed)[i] == secs[i].(script := Some(smoothed[i]))
    ensures forall i :: |smoothed| <= i < |secs| ==> ConnectorPass(secs, smoothed)[i] == secs[i]
    ensures ConnectorPass(secs, smoothed) == ConnectorPass(secs, Take(smoothed, |secs|))
  {
  }

  /** The parallel strategy, taken in section order: every section written,
      then the connector pass over all of them. */
  function WriteParallel(svc: LongFormV2Services, s: LongFormV2State): Attempt<seq<SectionV2>> {
    match ForEach(s.sections, (i: nat, sec: SectionV2) => WriteOne(svc, s, i, sec), 0)
    case Broke(v, m) => Broke(v, m)
    case Done(v) =>
      match svc.connector(v)
      case Failure(m) => Broke(v, m)
      case Success(sm) => Done(ConnectorPass(v, sm))
  }

  /** The sequential strategy from section `i` on: each section is written
      with the cumulative script, which then grows by the new script and a
      space. */
  function WriteSequential(svc: LongFormV2Services, s: LongFormV2State, secs: seq<SectionV2>,
                           i: nat, cumulative: string): (r: Attempt<seq<SectionV2>>)
    requires i <= |secs|
    ensures |r.value| == |secs|
    decreases |secs| - i
  {
    if i == |secs| then Done(secs)
    else
      match svc.sectionScript(s, i, cumulative)
      case Failure(m) => Broke(secs, m)
      case Success(w) =>
        WriteSequential(svc, s, secs[i := WithScript(secs[i], w)], i + 1, cumulative + w.sectionScript + " ")
  }

  /** The baton: the scripts of the first `k` sections, each followed by a
      space. */
  function Baton(secs: seq<SectionV2>, k: nat): string
    requires k <= |secs|
  {
    if k == 0 then "" else Baton(secs, k - 1) + secs[k - 1].script.GetOr("") + " "
  }

  lemma {:induction false} BatonPrefix(a: seq<SectionV2>, b: seq<SectionV2>, k: nat)
    requires k <= |a| && k <= |b|
    requires forall j :: 0 <= j < k ==> a[j].script == b[j].script
    ensures Baton(a, k) == Baton(b, k)
  {
    if k > 0 {
      BatonPrefix(a, b, k - 1);
    }
  }

  /** When every section gets written, section `k` was written with the
      scripts of sections `0..k-1` (each plus a space) as its context, and
      holds what the writer returned for it. */
  lemma {:induction false} WriteSequentialBaton(svc: LongFormV2Services, s: LongFormV2State, secs: seq<SectionV2>,
                                                i: nat, cumulative: string)
    requires i <= |secs| && cumulative == Baton(secs, i)
    ensures var r := WriteSequential(svc, s, secs, i, cumulative);
      r.Done? ==> forall k :: i <= k < |secs| ==>
        svc.sectionScript(s, k, Baton(r.value, k)).Success?
        && r.value[k] == WithScript(secs[k], svc.sectionScript(s, k, Baton(r.value, k)).value)
    ensures var r := WriteSequential(svc, s, secs, i, cumulative);
      forall k :: 0 <= k < i ==> r.value[k] == secs[k]
    decreases |secs| - i
  {
    if i < |secs| {
      match svc.sectionScript(s, i, cumulative)
      case Failure(m) =>
      case Success(w) =>
        var next := secs[i := WithScript(secs[i], w)];
        BatonPrefix(secs, next, i);
        assert Baton(next, i + 1) == cumulative + w.sectionScript + " ";
        WriteSequentialBaton(svc, s, next, i + 1, cumulative + w.sectionScript + " ");
        var r := WriteSequential(svc, s, next, i + 1, cumulative + w.sectionScript + " ");
        if r.Done? {
          assert r.value[..i + 1] == next[..i + 1];
          BatonPrefix(r.value, next, i);
        }
    }
  }

  /** The section scripts that are present and non-empty, in order. */
  function WrittenScripts(secs: seq<SectionV2>): (ps: seq<string>)
    ensures |ps| <= |secs|
    ensures forall j :: 0 <= j < |ps| ==> ps[j] != ""
    ensures forall p :: p in ps <==> exists i :: 0 <= i < |secs| && secs[i].script == Some(p) && p != ""
  {
    if |secs| == 0 then []
    else
      var rest := WrittenScripts(secs[1..]);
      assert forall i :: 0 < i < |secs| ==> secs[i] == secs[1..][i - 1];
      if secs[0].script.Some? && secs[0].script.value != "" then [secs[0].script.value] + rest else rest
  }

  /** `" ".join(s.section_script for s in sections if s.section_script)`. */
  function FullScriptOf(secs: seq<SectionV2>): string {
    Join(" ", WrittenScripts(secs))
  }

  /** Script phase: the chosen strategy, then the full script as the
      space-join of the non-empty section scripts. */
  function ScriptWritingBody(svc: LongFormV2Services, s: LongFormV2State): (o: Outcome<LongFormV2State>)
    ensures !o.Propagated? && o.state.outline == s.outline && o.state.revisions == s.revisions
    ensures |o.state.sections| == |s.sections|
    ensures o.Ok? ==> o.state.fullScript == Some(FullScriptOf(o.state.sections))
    ensures o.Threw? ==> o.state.fullScript == s.fullScript
  {
    var w := if s.strategy == "parallel" then WriteParallel(svc, s)
             else WriteSequential(svc, s, s.sections, 0, "");
    match w
    case Broke(v, m) => Threw(s.(sections := v), m)
    case Done(v) => Ok(s.(sections := v, fullScript := Some(FullScriptOf(v))))
  }

  /** A section's text is "truthy": present and non-empty. */
  predicate Truthy(t: Option<string>) {
    t.Some? && t.value != ""
  }

  /** `sec.tts_script or sec.section_script`. */
  function VoicedText(sec: SectionV2): string {
    if Truthy(sec.ttsScript) then sec.ttsScript.value else sec.script.GetOr("")
  }

  /** `_gen_audio`, run only for a section with a script: voices its tagged
      script (or the plain one), segments the plain script and aligns the
      segments to the words. */
  function SectionAudio(svc: LongFormV2Services, sec: SectionV2): (r: Attempt<SectionV2>)
    ensures !Truthy(sec.script) ==> r == Done(sec)
    ensures Truthy(sec.script) && r.Done? ==>
      svc.tts(VoicedText(sec)).Success? && svc.segment(sec.script.value).Success?
      && var sp := svc.tts(VoicedText(sec)).value;
      r.value == sec.(audioPath := Some(sp.audioPath), words := sp.words,
                         segments := svc.segment(sec.script.value).value,
                         timings := ElevenLabs.AlignSegments(svc.ratio, svc.segment(sec.script.value).value, sp.words))
    ensures Truthy(sec.script) ==>
      (r.Done? <==> svc.tts(VoicedText(sec)).Success? && svc.segment(sec.script.value).Success?)
    ensures r.Broke? && svc.tts(VoicedText(sec)).Failure? ==> r.value == sec
    ensures r.Broke? && svc.tts(VoicedText(sec)).Success? ==>
      var sp := svc.tts(VoicedText(sec)).value;
      r.value == sec.(audioPath := Some(sp.audioPath), words := sp.words)
  {
    if !Truthy(sec.script) then Done(sec)
    else
      match svc.tts(VoicedText(sec))
      case Failure(m) => Broke(sec, m)
      case Success(sp) =>
        var voiced := sec.(audioPath := Some(sp.audioPath), words := sp.words);
        match svc.segment(sec.script.value)
        case Failure(m) => Broke(voiced, m)
        case Success(segs) =>
          Done(voiced.(segments := segs, timings := ElevenLabs.AlignSegments(svc.ratio, segs, sp.words)))
  }

  /** `_gen_storyboard`, run only for a section with segments. */
  function SectionStoryboard(svc: LongFormV2Services, s: LongFormV2State, guide: string, sec: SectionV2)
    : (r: Attempt<SectionV2>)
    ensures |sec.segments| == 0 ==> r == Done(sec)
    ensures r.Broke? ==> r.value == sec
    ensures |sec.segments| > 0 && r.Done? ==>
      var call := svc.storyboard(s, guide, SegmentRequests(sec.segments, sec.timings));
      call.Success? && r.value == sec.(plans := PlansFromStoryboard(call.value))
  {
    if |sec.segments| == 0 then Done(sec)
    else
      match svc.storyboard(s, guide, SegmentRequests(sec.segments, sec.timings))
      case Failure(m) => Broke(sec, m)
      case Success(sb) => Done(sec.(plans := PlansFromStoryboard(sb)))
  }

  /** Visual planning: one style guide for the run, then every section's
      storyboard. */
  function VisualPlanningBody(svc: LongFormV2Services, s: LongFormV2State): (o: Outcome<LongFormV2State>)
    ensures !o.Propagated?
    ensures svc.styleGuide(s).Failure? ==> o == Threw(s, svc.styleGuide(s).error)
    ensures svc.styleGuide(s).Success? ==>
      (o.Ok? <==> forall k :: 0 <= k < |s.sections| ==>
                    SectionStoryboard(svc, s, svc.styleGuide(s).value, s.sections[k]).Done?)
  {
    match svc.styleGuide(s)
    case Failure(m) => Threw(s, m)
    case Success(g) =>
      var f := (i: nat, sec: SectionV2) => SectionStoryboard(svc, s, g, sec);
      SectionsPhaseSpec(s, f);
      SectionsPhase(s, f)
  }

  /** `_gen_images`, run only for a section with plans. */
  function SectionImages(svc: LongFormV2Services, sec: SectionV2): (r: Attempt<SectionV2>)
    ensures |sec.plans| == 0 ==> r == Done(sec)
    ensures r.Broke? ==> r.value == sec
    ensures r.Done? ==> r.value == sec.(plans := r.value.plans)
    ensures |sec.plans| > 0 ==>
      (r.Done? <==> svc.images(sec.plans).Success?)
      && (r.Done? ==> r.value.plans == svc.images(sec.plans).value)
  {
    if |sec.plans| == 0 then Done(sec)
    else
      match svc.images(sec.plans)
      case Failure(m) => Broke(sec, m)
      case Success(ps) => Done(sec.(plans := ps))
  }

  /** `_animate`, run only for a section with plans. When the clip stage
      raises, the section keeps the plans as the stage left them (their
      `video_path` written in place) and its earlier `clip_paths`. */
  function SectionClips(svc: LongFormV2Services, videoGen: bool, ideal: real, sec: SectionV2): (r: Attempt<SectionV2>)
    ensures |sec.plans| == 0 ==> r == Done(sec)
    ensures |sec.plans| > 0 && r.Done? ==> r.value.clipPaths == ClipPaths(r.value.plans)
    ensures |sec.plans| > 0 ==>
      var call := if videoGen then svc.videoClips(sec.plans, sec.timings, UseBaseImages(sec.plans))
                  else svc.animate(sec.plans, ideal);
      (r.Done? <==> call.raised.None?)
      && (r.Done? ==> r.value.plans == call.plans)
      && (r.Broke? ==> r == Broke(sec.(plans := call.plans), call.raised.value))
  {
    if |sec.plans| == 0 then Done(sec)
    else
      var call := if videoGen then svc.videoClips(sec.plans, sec.timings, UseBaseImages(sec.plans))
                  else svc.animate(sec.plans, ideal);
      match call.raised
      case None => Done(sec.(plans := call.plans, clipPaths := ClipPaths(call.plans)))
      case Some(m) => Broke(sec.(plans := call.plans), m)
  }

  /** `_assemble`, run only for a section with plans and audio. */
  function SectionAssemble(svc: LongFormV2Services, i: nat, sec: SectionV2): (r: Attempt<SectionV2>)
    ensures !(|sec.plans| > 0 && sec.audioPath.Some?) ==> r == Done(sec)
    ensures r.Broke? ==> r.value == sec
    ensures r.Done? ==> r.value == sec.(videoPath := r.value.videoPath)
    ensures |sec.plans| > 0 && sec.audioPath.Some? ==>
      var call := svc.render(VideoAssembler.AssembleSection(sec.plans, sec.audioPath.value, svc.sectionOutput(i)));
      (r.Done? <==> call.Success?) && (r.Done? ==> r.value.videoPath == Some(call.value))
  {
    if |sec.plans| > 0 && sec.audioPath.Some? then
      match svc.render(VideoAssembler.AssembleSection(sec.plans, sec.audioPath.value, svc.sectionOutput(i)))
      case Failure(m) => Broke(sec, m)
      case Success(v) => Done(sec.(videoPath := Some(v)))
    else Done(sec)
  }

  /** The non-null section videos, in section order. */
  function SectionVideosV2(secs: seq<SectionV2>): (r: seq<Path>)
    ensures |r| <= |secs|
  {
    if |secs| == 0 then []
    else (if secs[0].videoPath.Some? then [secs[0].videoPath.value] else []) + SectionVideosV2(secs[1..])
  }

  /** Final concatenation of the section videos. */
  function ConcatBody(svc: LongFormV2Services, s: LongFormV2State): (o: Outcome<LongFormV2State>)
    ensures o.Threw? ==> o.state == s
    ensures o.Ok? <==> svc.concat(SectionVideosV2(s.sections)).Success?
    ensures o.Ok? ==> o.state == s.(finalVideo := Some(svc.concat(SectionVideosV2(s.sections)).value))
  {
    match svc.concat(SectionVideosV2(s.sections))
    case Failure(m) => Threw(s, m)
    case Success(v) => Ok(s.(finalVideo := Some(v)))
  }

  function LongResearchSteps(svc: LongFormV2Services, enabled: bool): seq<Step<LongFormV2State>> {
    if enabled then
      [Step("research", Some("lf2_after_research"),
            Store(svc.research, (s: LongFormV2State, v: string) => s.(research := Some(v))))]
    else []
  }

  /** The long-form phases after research, in source order. */
  function LongMainSteps(svc: LongFormV2Services): seq<Step<LongFormV2State>> {
    [ Step("outline", Some("lf2_after_outline"),
           Store((s: LongFormV2State) => svc.outline(s, []), (s: LongFormV2State, v: VideoOutlineV2) => s.(outline := Some(v)))),
      Step("outline", Some("lf2_after_outline_review"), s => EvaluateOutlineBody(svc, s)),
      Step("outline", None, s => OutlineGateBody(svc, s)),
      Step("script_writing", Some("lf2_after_scripts"), s => ScriptWritingBody(svc, s)),
      Step("audio", Some("lf2_after_audio"),
           s => SectionsPhase(s, (i: nat, sec: SectionV2) => SectionAudio(svc, sec))),
      Step("visual_planning", Some("lf2_after_storyboards"), s => VisualPlanningBody(svc, s)),
      Step("image_generation", Some("lf2_after_images"),
           s => SectionsPhase(s, (i: nat, sec: SectionV2) => SectionImages(svc, sec))),
      Step("video_clips", Some("lf2_after_clips"),
           (s: LongFormV2State) => SectionsPhase(s, (i: nat, sec: SectionV2) => SectionClips(svc, s.videoGen, s.ideal, sec))),
      Step("assembly", Some("lf2_after_section_assembly"),
           s => SectionsPhase(s, (i: nat, sec: SectionV2) => SectionAssemble(svc, i, sec))),
      Step("assembly", Some("lf2_complete"), s => ConcatBody(svc, s)) ]
  }

  function LongFormV2Steps(svc: LongFormV2Services, research: bool): seq<Step<LongFormV2State>> {
    LongResearchSteps(svc, research) + LongMainSteps(svc)
  }

  /** `run_long_form_v2`, with every parallel fan-out taken in section
      order. Saving the history record is left out. */
  function RunLongFormV2(svc: LongFormV2Services, s: LongFormV2State): Run<LongFormV2State> {
    RunSteps(LongFormV2Steps(svc, s.enableResearch), s)
  }

  /** The phases run in order, with research first exactly when enabled. */
  lemma LongFormV2Order(svc: LongFormV2Services, research: bool)
    ensures Names(LongFormV2Steps(svc, research))
      == (if research then ["research"] else [])
         + ["outline", "outline", "outline", "script_writing", "audio", "visual_planning",
            "image_generation", "video_clips", "assembly", "assembly"]
    ensures research <==> "research" in Names(LongFormV2Steps(svc, research))
  {
    var names := Names(LongFormV2Steps(svc, research));
    if !research {
      assert forall i :: 0 <= i < |names| ==> names[i] != "research";
    } else {
      assert names[0] == "research";
    }
  }

  /** The outline gate's exit condition survives to the end of a completed
      run, and the sections are those of the final outline, in order. */
  lemma LongFormV2GateSettles(svc: LongFormV2Services, s: LongFormV2State)
    requires RunLongFormV2(svc, s).Completed?
    ensures var f := RunLongFormV2(svc, s).state;
      f.review.Some? && (f.review.value.passed || f.revisions >= MaxRevisions)
      && f.outline.Some? && |f.sections| == |f.outline.value.sections|
  {
    var steps := LongFormV2Steps(svc, s.enableResearch);
    var b := if s.enableResearch then 1 else 0;
    var P := (t: LongFormV2State) => t.review.Some? && (t.review.value.passed || t.revisions >= MaxRevisions)
                                     && t.outline.Some? && |t.sections| == |t.outline.value.sections|;
    assert steps[b + 2] == LongMainSteps(svc)[2];
    forall j, t | b + 2 < j < |steps| && P(t) && steps[j].body(t).Ok?
      ensures P(steps[j].body(t).state)
    {
      assert steps[j] == LongMainSteps(svc)[j - b];
    }
    EstablishedBy(steps, s, b + 2, P);
  }
}

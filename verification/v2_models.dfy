/** The validated records of the V2 pipelines (`v2_models`): scripts in
    beats, the two quality-gate reports, storyboards and the long-form
    outline. Pydantic's `ge=1, le=10` bounds become the subtype `Score`;
    a field with a default gets a constructor that fills it in. */
module V2Models {
  import opened Wrappers
  import opened Media

  /** A judge or energy score, validated to lie in 1..10. */
  type Score = x: int | 1 <= x <= 10 witness 5

  /** The default energy of a beat and of a storyboard segment. */
  const DefaultEnergy: Score := 5

  /** One narrative beat: clean narration, its audio-tagged form, what the
      viewer should see, its narrative role and its pacing energy. */
  datatype ScriptBeat = ScriptBeat(
    rawText: string, ttsText: string, visualIntent: string,
    beatType: string, energyLevel: Score)

  /** A beat with the defaults for the fields the caller left out. */
  function NewBeat(rawText: string, ttsText: string, visualIntent: string): ScriptBeat {
    ScriptBeat(rawText, ttsText, visualIntent, "setup", DefaultEnergy)
  }

  /** The single-pass script: goal, hook, beats and call to action. */
  datatype FullScript = FullScript(goal: string, hook: string, beats: seq<ScriptBeat>, cta: string)

  /** The script judge's verdict. `passed` is what the judge answered: the
      model does not derive it from the five scores. */
  datatype QualityReport = QualityReport(
    hookScore: Score, clarityScore: Score, engagementScore: Score,
    ctaScore: Score, pacingScore: Score,
    factualFlags: seq<string>, revisionNotes: seq<string>, passed: bool)

  /** The outline judge's verdict; `passed` is again the judge's answer. */
  datatype OutlineReview = OutlineReview(
    structureScore: Score, varietyScore: Score, retentionScore: Score,
    depthScore: Score, pacingScore: Score,
    revisionNotes: seq<string>, passed: bool)

  /** One planned shot of a storyboard segment. */
  datatype ShotPlan = ShotPlan(
    imagePrompt: string, durationMs: int, motionType: string,
    motionSpeed: string, transitionIn: string)

  /** How long a shot holds when the storyboard does not say. */
  const DefaultShotMs: int := 3000

  function NewShot(imagePrompt: string): ShotPlan {
    ShotPlan(imagePrompt, DefaultShotMs, "zoom_in", "medium", "cut")
  }

  /** The shots of one script segment, in order, and its energy. */
  datatype SegmentStoryboard = SegmentStoryboard(shots: seq<ShotPlan>, segmentEnergy: Score)

  function NewStoryboard(shots: seq<ShotPlan>): SegmentStoryboard {
    SegmentStoryboard(shots, DefaultEnergy)
  }

  /** A vision judge's assessment of one image. */
  datatype VisualQualityAssessment = VisualQualityAssessment(
    relevance: Score, quality: Score, styleMatch: Score,
    reject: bool, rejectionReason: string)

  /** One section of a long-form outline. */
  datatype SectionPlanV2 = SectionPlanV2(
    sectionName: string, sectionPurpose: string,
    sectionType: string, energyTarget: string,
    transitionFromPrevious: string, targetDurationSeconds: int)

  function NewSectionPlan(name: string, purpose: string): SectionPlanV2 {
    SectionPlanV2(name, purpose, "context", "building", "", 120)
  }

  /** The long-form outline: a thesis and its sections, in order. */
  datatype VideoOutlineV2 = VideoOutlineV2(thesis: string, sections: seq<SectionPlanV2>)

  /** A written section: narration and its audio-tagged form. */
  datatype SectionScriptV2 = SectionScriptV2(sectionScript: string, ttsScript: string)

  /** The tuning defaults of both V2 states. */
  const DefaultIdeal: real := 3.0
  const DefaultMinDuration: real := 2.0
  const DefaultLongFormSeconds: int := 600
  const DefaultScriptStrategy: string := "parallel"

  /** Every default the records fill in respects the bounds the records
      declare, and the tuning defaults meet the image planner's needs: a
      positive ideal duration above the minimum. */
  lemma DefaultsValid()
    ensures NewBeat("", "", "").energyLevel == 5 && NewBeat("", "", "").beatType == "setup"
    ensures NewStoryboard([]).segmentEnergy == 5
    ensures NewShot("").durationMs == 3000 && NewShot("").motionType == "zoom_in"
    ensures NewShot("").motionSpeed == "medium" && NewShot("").transitionIn == "cut"
    ensures NewSectionPlan("", "").sectionType == "context" && NewSectionPlan("", "").energyTarget == "building"
    ensures NewSectionPlan("", "").targetDurationSeconds == 120
    ensures 0.0 < DefaultMinDuration < DefaultIdeal
  {
  }
}

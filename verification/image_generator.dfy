/** Visual planning (v2): one plan per segment, the zoompan motion schedule
    across segments and images, and the requests sent to the video API. */
module ImageGenerator {
  import opened Wrappers
  import opened PyNum
  import opened Media
  import Config
  import opened AudioGenerator

  // ---------------------------------------------------------------------
  // Plans
  // ---------------------------------------------------------------------

  /** `plan_visuals`: one plan per timing, indexed by position; in
      single-image mode each segment is one image spanning it, otherwise the
      planner decides. */
  function PlanVisuals(timings: seq<SegmentTiming>, ideal: real, minDuration: real, singleImage: bool)
    : (plans: seq<SegmentVisualPlan>)
    requires forall i :: 0 <= i < |timings| ==> PlannerDefined(timings[i].duration, ideal)
    ensures |plans| == |timings|
    ensures forall i :: 0 <= i < |plans| ==>
      (plans[i].segmentIndex == i && plans[i].imageDescriptions == []
       && plans[i].imagePaths == [] && plans[i].videoPath.None?)
    ensures singleImage ==> forall i :: 0 <= i < |plans| ==>
      plans[i].numImages == 1 && plans[i].lastImageDuration == timings[i].duration
    ensures !singleImage ==> forall i :: 0 <= i < |plans| ==>
      (plans[i].numImages - 1) as real * ideal + plans[i].lastImageDuration == timings[i].duration
      && ImageSplit(plans[i].numImages, plans[i].lastImageDuration)
         == ImagesPerSegment(timings[i].duration, ideal, minDuration)
  {
    seq(|timings|, i requires 0 <= i < |timings| =>
      if singleImage then NewPlan(i, 1, timings[i].duration)
      else
        var p := ImagesPerSegment(timings[i].duration, ideal, minDuration);
        NewPlan(i, p.count, p.last))
  }

  /** A segment as `generate_descriptions` may receive it: an object with a
      `script_segment` attribute, a dict, or anything else (known only by its
      `str`). */
  datatype SegmentValue =
    | WithAttribute(scriptSegment: string)
    | Dict(entries: map<string, string>, repr: string)
    | Opaque(repr: string)

  /** The text a segment contributes to its image prompts: the attribute,
      else the dict entry, else the segment's `str`. */
  function SegmentText(seg: SegmentValue): (t: string)
    ensures seg.WithAttribute? ==> t == seg.scriptSegment
    ensures seg.Dict? && "script_segment" in seg.entries ==> t == seg.entries["script_segment"]
    ensures seg.Dict? && "script_segment" !in seg.entries ==> t == seg.repr
    ensures seg.Opaque? ==> t == seg.repr
  {
    match seg
    case WithAttribute(s) => s
    case Dict(m, repr) => if "script_segment" in m then m["script_segment"] else repr
    case Opaque(repr) => repr
  }

  // ---------------------------------------------------------------------
  // Motion schedule of one clip
  // ---------------------------------------------------------------------

  /** The zoompan styles `animate_with_motion_effect` knows; any other name
      raises `KeyError`. */
  const ZoompanStyles: set<string> := {
    "pan_right", "pan_left", "pan_down", "pan_up", "zoom_in", "zoom_out",
    "rock_horizontal", "rock_vertical", "ken_burns"
  }

  /** Why an animation cannot be scheduled: an empty pattern (the source
      divides by its length) or a style name it does not know. */
  datatype AnimError = EmptyPattern | UnknownStyle(name: string)

  /** One still image of a clip: its file, how long it shows, its motion. */
  datatype Shot = Shot(path: Path, duration: real, motion: string)

  /** The motion of image `i` of a clip whose pattern starts at `start`. */
  function MotionAt(pattern: seq<string>, start: nat, i: nat): string
    requires |pattern| > 0
  {
    pattern[Mod(start + i, |pattern|)]
  }

  /** Every image of an `n`-image clip has a known style. */
  predicate KnownMotions(pattern: seq<string>, start: nat, n: nat)
    requires |pattern| > 0
  {
    forall i :: 0 <= i < n ==> MotionAt(pattern, start, i) in ZoompanStyles
  }

  /** The first image at or after `i` whose style is unknown, or `n`. */
  function FirstUnknown(pattern: seq<string>, start: nat, i: nat, n: nat): (k: nat)
    requires |pattern| > 0 && i <= n
    ensures i <= k <= n
    ensures forall j :: i <= j < k ==> MotionAt(pattern, start, j) in ZoompanStyles
    ensures k < n ==> MotionAt(pattern, start, k) !in ZoompanStyles
    decreases n - i
  {
    if i == n || MotionAt(pattern, start, i) !in ZoompanStyles then i
    else FirstUnknown(pattern, start, i + 1, n)
  }

  /** How long each image shows. `ByPath` is the source's rule: an image
      shows for the last duration when its path equals the last path.
      `ByIndex` gives the last duration to the last position only. */
  datatype DurationRule = ByPath | ByIndex

  function ShotDuration(rule: DurationRule, paths: seq<Path>, i: nat, ideal: real, last: real): real
    requires i < |paths|
  {
    match rule
    case ByPath => if paths[i] != paths[|paths| - 1] then ideal else last
    case ByIndex => if i < |paths| - 1 then ideal else last
  }

  /** The per-image schedule of `animate_with_motion_effect`: image `i`
      uses the pattern entry `start + i` (cyclically) and its duration rule.
      No image means no schedule; otherwise an empty pattern or the first
      unknown style is an error. */
  function MotionScheduleWith(rule: DurationRule, paths: seq<Path>, ideal: real, last: real,
                              pattern: seq<string>, start: nat)
    : (r: Result<seq<Shot>, AnimError>)
    ensures |paths| == 0 ==> r == Success([])
    ensures |paths| > 0 && |pattern| == 0 ==> r == Failure(EmptyPattern)
    ensures r.Success? <==> |paths| == 0 || (|pattern| > 0 && KnownMotions(pattern, start, |paths|))
    ensures r.Failure? && r.error.UnknownStyle? ==>
      |pattern| > 0 && r.error.name !in ZoompanStyles
      && exists k :: (0 <= k < |paths| && r.error.name == MotionAt(pattern, start, k)
                      && KnownMotions(pattern, start, k))
    ensures r.Success? ==> |r.value| == |paths|
    ensures r.Success? ==> forall i :: 0 <= i < |paths| ==>
      (r.value[i].path == paths[i]
       && r.value[i].duration == ShotDuration(rule, paths, i, ideal, last)
       && r.value[i].motion == MotionAt(pattern, start, i))
  {
    if |paths| == 0 then Success([])
    else if |pattern| == 0 then Failure(EmptyPattern)
    else
      var k := FirstUnknown(pattern, start, 0, |paths|);
      if k < |paths| then Failure(UnknownStyle(MotionAt(pattern, start, k)))
      else
        Success(seq(|paths|, i requires 0 <= i < |paths| =>
          Shot(paths[i], ShotDuration(rule, paths, i, ideal, last), MotionAt(pattern, start, i))))
  }

  /** The schedule as the source computes it. */
  function MotionScheduleAsWritten(paths: seq<Path>, ideal: real, last: real, pattern: seq<string>, start: nat)
    : Result<seq<Shot>, AnimError>
  {
    MotionScheduleWith(ByPath, paths, ideal, last, pattern, start)
  }

  /** The schedule with the last duration given to the last image only. */
  function MotionSchedule(paths: seq<Path>, ideal: real, last: real, pattern: seq<string>, start: nat)
    : Result<seq<Shot>, AnimError>
  {
    MotionScheduleWith(ByIndex, paths, ideal, last, pattern, start)
  }

  function Durations(shots: seq<Shot>): (ds: seq<real>)
    ensures |ds| == |shots|
    ensures forall i :: 0 <= i < |shots| ==> ds[i] == shots[i].duration
  {
    seq(|shots|, i requires 0 <= i < |shots| => shots[i].duration)
  }

  function Sum(xs: seq<real>): real {
    if |xs| == 0 then 0.0 else xs[0] + Sum(xs[1..])
  }

  /** A run of `ideal`s closed by `last` sums to `(n - 1) * ideal + last`. */
  lemma {:induction false} SumIdealsThenLast(xs: seq<real>, ideal: real, last: real)
    requires |xs| > 0
    requires forall i :: 0 <= i < |xs| - 1 ==> xs[i] == ideal
    requires xs[|xs| - 1] == last
    ensures Sum(xs) == (|xs| - 1) as real * ideal + last
  {
    if |xs| > 1 {
      SumIdealsThenLast(xs[1..], ideal, last);
      assert (|xs| - 1) as real * ideal == (|xs| - 2) as real * ideal + ideal;
    }
  }

  /** The clip the corrected schedule renders is exactly as long as the
      length the source expects: `(n - 1) * ideal + last`. */
  lemma ScheduleLength(paths: seq<Path>, ideal: real, last: real, pattern: seq<string>, start: nat)
    requires |paths| > 0
    requires MotionSchedule(paths, ideal, last, pattern, start).Success?
    ensures Sum(Durations(MotionSchedule(paths, ideal, last, pattern, start).value))
            == (|paths| - 1) as real * ideal + last
  {
    var ds := Durations(MotionSchedule(paths, ideal, last, pattern, start).value);
    SumIdealsThenLast(ds, ideal, last);
  }

  /** The two rules agree whenever the last image's file appears nowhere
      else in the clip, which is the case the source's rule was written for. */
  lemma RulesAgreeOnDistinctLast(paths: seq<Path>, ideal: real, last: real, pattern: seq<string>, start: nat)
    requires forall i :: 0 <= i < |paths| - 1 ==> paths[i] != paths[|paths| - 1]
    ensures MotionScheduleAsWritten(paths, ideal, last, pattern, start)
            == MotionSchedule(paths, ideal, last, pattern, start)
  {
    if |paths| > 0 && |pattern| > 0 && KnownMotions(pattern, start, |paths|) {
      var a := MotionScheduleAsWritten(paths, ideal, last, pattern, start).value;
      var b := MotionSchedule(paths, ideal, last, pattern, start).value;
      forall i | 0 <= i < |paths|
        ensures a[i] == b[i]
      {
        assert ShotDuration(ByPath, paths, i, ideal, last) == ShotDuration(ByIndex, paths, i, ideal, last);
      }
      assert a == b;
    }
  }

  /** With the last file repeated earlier, the source's rule shows both
      copies for the last duration, so the clip is longer than expected. */
  lemma DuplicateLastPathOverruns()
    ensures var r := MotionScheduleAsWritten(["a.jpg", "a.jpg"], 3.0, 5.0, Config.DefaultMotionPattern, 0);
      r.Success? && Sum(Durations(r.value)) == 10.0 && (2 - 1) as real * 3.0 + 5.0 == 8.0
  {
    var r := MotionScheduleAsWritten(["a.jpg", "a.jpg"], 3.0, 5.0, Config.DefaultMotionPattern, 0);
    assert KnownMotions(Config.DefaultMotionPattern, 0, 2) by {
      assert MotionAt(Config.DefaultMotionPattern, 0, 0) == "zoom_in";
      assert MotionAt(Config.DefaultMotionPattern, 0, 1) == "zoom_out";
    }
    assert Durations(r.value) == [5.0, 5.0];
    assert Sum([5.0]) == 5.0 + Sum([]);
  }

  // ---------------------------------------------------------------------
  // Motion schedule across segments
  // ---------------------------------------------------------------------

  /** The arguments `animate_segments` passes for one segment. */
  datatype AnimJob = AnimJob(paths: seq<Path>, output: Path, ideal: real, last: real, startIndex: nat)

  /** Images in the plans before position `j`. */
  function ImagesBefore(plans: seq<SegmentVisualPlan>, j: nat): nat
    requires j <= |plans|
  {
    if j == 0 then 0 else ImagesBefore(plans, j - 1) + |plans[j - 1].imagePaths|
  }

  /** The pattern in force: the given one, or the default when none is given. */
  function PatternOrDefault(pattern: Option<seq<string>>): (p: seq<string>)
    ensures pattern.None? ==> p == Config.DefaultMotionPattern
    ensures pattern.Some? ==> p == pattern.value
  {
    pattern.GetOr(Config.DefaultMotionPattern)
  }

  /** `animate_segments` job list: segment `j` starts its pattern at the
      number of earlier images modulo the pattern length. `outputs` stands
      for the fresh file names the source draws. */
  function AnimationJobs(plans: seq<SegmentVisualPlan>, ideal: real, pattern: seq<string>, outputs: seq<Path>)
    : (r: Result<seq<AnimJob>, AnimError>)
    requires |outputs| == |plans|
    ensures r.Failure? <==> |plans| > 0 && |pattern| == 0
    ensures r.Failure? ==> r.error == EmptyPattern
    ensures r.Success? ==> |r.value| == |plans|
    ensures r.Success? ==> forall j :: 0 <= j < |plans| ==>
      r.value[j] == AnimJob(plans[j].imagePaths, outputs[j], ideal, plans[j].lastImageDuration,
                            Mod(ImagesBefore(plans, j), |pattern|))
  {
    if |plans| == 0 then Success([])
    else if |pattern| == 0 then Failure(EmptyPattern)
    else Success(JobsFrom(plans, ideal, |pattern|, outputs, 0, 0))
  }

  /** The source's loop from segment `k` on, `before` being its running
      `pattern_start` (the images already scheduled). */
  function JobsFrom(plans: seq<SegmentVisualPlan>, ideal: real, m: nat, outputs: seq<Path>, k: nat, before: nat)
    : (r: seq<AnimJob>)
    requires |outputs| == |plans| && k <= |plans| && m > 0
    requires before == ImagesBefore(plans, k)
    ensures |r| == |plans| - k
    ensures forall t :: 0 <= t < |r| ==>
      r[t] == AnimJob(plans[k + t].imagePaths, outputs[k + t], ideal, plans[k + t].lastImageDuration,
                      Mod(ImagesBefore(plans, k + t), m))
    decreases |plans| - k
  {
    if k == |plans| then []
    else
      [AnimJob(plans[k].imagePaths, outputs[k], ideal, plans[k].lastImageDuration, Mod(before, m))]
      + JobsFrom(plans, ideal, m, outputs, k + 1, before + |plans[k].imagePaths|)
  }

  /** `animate_segments`. The loop gives every plan its output path before
      anything runs, so even a failing clip leaves every plan pointing at
      its output; only an empty pattern stops the loop, at the first plan,
      after that plan has taken its path. The first failing segment's error
      is raised. */
  function AnimateSegments(plans: seq<SegmentVisualPlan>, ideal: real, pattern: Option<seq<string>>, outputs: seq<Path>)
    : (r: Written<AnimError>)
    requires |outputs| == |plans|
    ensures |r.plans| == |plans|
    ensures |PatternOrDefault(pattern)| > 0 ==> forall j :: 0 <= j < |plans| ==>
      r.plans[j] == plans[j].(videoPath := Some(outputs[j]))
    ensures |PatternOrDefault(pattern)| == 0 && |plans| > 0 ==>
      r.raised == Some(EmptyPattern)
      && r.plans[0] == plans[0].(videoPath := Some(outputs[0])) && r.plans[1..] == plans[1..]
    ensures r.raised.None? ==> forall j :: 0 <= j < |plans| ==>
      var p := PatternOrDefault(pattern);
      |p| > 0 && MotionSchedule(plans[j].imagePaths, ideal, plans[j].lastImageDuration,
                                p, Mod(ImagesBefore(plans, j), |p|)).Success?
    ensures r.raised.None? <==>
      AnimationJobs(plans, ideal, PatternOrDefault(pattern), outputs).Success?
      && forall j :: 0 <= j < |plans| ==> Run(AnimationJobs(plans, ideal, PatternOrDefault(pattern), outputs).value[j], PatternOrDefault(pattern)).Success?
  {
    var p := PatternOrDefault(pattern);
    var jobs := AnimationJobs(plans, ideal, p, outputs);
    var named := seq(|plans|, j requires 0 <= j < |plans| => plans[j].(videoPath := Some(outputs[j])));
    if jobs.Failure? then Written(plans[0 := named[0]], Some(jobs.error))
    else
      var k := FirstFailing(jobs.value, p, 0);
      if k < |jobs.value| then Written(named, Some(Run(jobs.value[k], p).error))
      else Written(named, None)
  }

  /** One job's schedule. */
  function Run(job: AnimJob, pattern: seq<string>): Result<seq<Shot>, AnimError> {
    MotionSchedule(job.paths, job.ideal, job.last, pattern, job.startIndex)
  }

  /** The first job at or after `i` whose schedule fails, or `|jobs|`. */
  function FirstFailing(jobs: seq<AnimJob>, pattern: seq<string>, i: nat): (k: nat)
    requires i <= |jobs|
    ensures i <= k <= |jobs|
    ensures forall j :: i <= j < k ==> Run(jobs[j], pattern).Success?
    ensures k < |jobs| ==> Run(jobs[k], pattern).Failure?
    decreases |jobs| - i
  {
    if i == |jobs| || Run(jobs[i], pattern).Failure? then i
    else FirstFailing(jobs, pattern, i + 1)
  }

  /** Reducing the start index modulo the pattern length changes no motion:
      a clip started at `a % L` shows, at image `i`, the motion of global
      position `a + i`. With `a` the images before a segment (the start
      `AnimationJobs` passes), the pattern cycles across the whole video. */
  lemma {:induction false} MotionOfReducedStart(pattern: seq<string>, a: nat, i: nat)
    requires |pattern| > 0
    ensures MotionAt(pattern, Mod(a, |pattern|), i) == MotionAt(pattern, 0, a + i)
  {
    ModOfSum(a, i, |pattern|);
  }

  // ---------------------------------------------------------------------
  // Video API requests
  // ---------------------------------------------------------------------

  /** What `generate_video_clips` asks the video service for. */
  datatype ClipRequest = ClipRequest(prompt: string, duration: int, baseImage: Option<Path>)

  /** `max(3, min(d, 10))`: the API's accepted clip lengths. */
  function ClampClipSeconds(d: int): (c: int)
    ensures 3 <= c <= 10
    ensures 3 <= d <= 10 ==> c == d
    ensures d < 3 ==> c == 3
    ensures d > 10 ==> c == 10
  {
    Max(3, Min(d, 10))
  }

  /** The requested length: the segment's truncated duration when a timing
      exists for it, else 5 seconds, clamped to 3..10. */
  function ClipSeconds(timings: seq<SegmentTiming>, i: nat): (d: int)
    ensures 3 <= d <= 10
    ensures i >= |timings| ==> d == 5
    ensures i < |timings| ==> d == ClampClipSeconds(Trunc(timings[i].duration))
  {
    ClampClipSeconds(if i < |timings| then Trunc(timings[i].duration) else 5)
  }

  /** A clip never asks for more time than its segment has, and for a
      segment that fits the API's range it falls short by under a second. */
  lemma ClipSecondsTrackTiming(timings: seq<SegmentTiming>, i: nat)
    requires i < |timings| && 3.0 <= timings[i].duration < 11.0
    ensures ClipSeconds(timings, i) as real <= timings[i].duration < ClipSeconds(timings, i) as real + 1.0
  {
  }

  /** The prompt used when a plan has no description. */
  function FallbackPrompt(orientation: string): string {
    "B-roll footage, " + orientation + " format"
  }

  /** The request for plan `i`: the first description as prompt, or the
      fallback; the first image as base only when base images are wanted and
      the plan has images. */
  function ClipRequestFor(plans: seq<SegmentVisualPlan>, timings: seq<SegmentTiming>, i: nat,
                          orientation: string, useBaseImages: bool)
    : (q: ClipRequest)
    requires i < |plans|
    ensures |plans[i].imageDescriptions| > 0 ==> q.prompt == plans[i].imageDescriptions[0].description
    ensures |plans[i].imageDescriptions| == 0 ==> q.prompt == FallbackPrompt(orientation)
    ensures q.duration == ClipSeconds(timings, i)
    ensures q.baseImage.Some? <==> useBaseImages && |plans[i].imagePaths| > 0
    ensures q.baseImage.Some? ==> q.baseImage.value == plans[i].imagePaths[0]
  {
    var plan := plans[i];
    var prompt := if |plan.imageDescriptions| > 0 then plan.imageDescriptions[0].description
                  else FallbackPrompt(orientation);
    var base := if useBaseImages && |plan.imagePaths| > 0 then Some(plan.imagePaths[0]) else None;
    ClipRequest(prompt, ClipSeconds(timings, i), base)
  }

  /** The first plan at or after `i` whose clip request the service
      fails, or `|plans|`. */
  function FirstRefused(plans: seq<SegmentVisualPlan>, timings: seq<SegmentTiming>, orientation: string,
                        useBaseImages: bool, service: ClipRequest -> Result<Path, string>, i: nat): (k: nat)
    requires i <= |plans|
    ensures i <= k <= |plans|
    ensures forall j :: i <= j < k ==> service(ClipRequestFor(plans, timings, j, orientation, useBaseImages)).Success?
    ensures k < |plans| ==> service(ClipRequestFor(plans, timings, k, orientation, useBaseImages)).Failure?
    decreases |plans| - i
  {
    if i == |plans| || service(ClipRequestFor(plans, timings, i, orientation, useBaseImages)).Failure? then i
    else FirstRefused(plans, timings, orientation, useBaseImages, service, i + 1)
  }

  /** `generate_video_clips`, its tasks taken in plan order: each plan
      takes the clip the video service returns for its own request as soon
      as that request succeeds, so when request `k` fails the plans before
      it already hold their clips, the others are untouched, and request
      `k`'s error is raised. */
  function GenerateVideoClips(plans: seq<SegmentVisualPlan>, timings: seq<SegmentTiming>,
                              orientation: string, useBaseImages: bool, service: ClipRequest -> Result<Path, string>)
    : (r: Written<string>)
    ensures |r.plans| == |plans|
    ensures var k := FirstRefused(plans, timings, orientation, useBaseImages, service, 0);
      (forall i :: 0 <= i < k ==>
         r.plans[i] == plans[i].(videoPath := Some(service(ClipRequestFor(plans, timings, i, orientation, useBaseImages)).value)))
      && (forall i :: k <= i < |plans| ==> r.plans[i] == plans[i])
      && (r.raised.None? <==> k == |plans|)
      && (k < |plans| ==> r.raised == Some(service(ClipRequestFor(plans, timings, k, orientation, useBaseImages)).error))
    ensures r.raised.None? ==> CountClips(r.plans) == |r.plans|
  {
    var k := FirstRefused(plans, timings, orientation, useBaseImages, service, 0);
    var done := seq(|plans|, i requires 0 <= i < |plans| =>
      if i < k then plans[i].(videoPath := Some(service(ClipRequestFor(plans, timings, i, orientation, useBaseImages)).value))
      else plans[i]);
    if k < |plans| then
      Written(done, Some(service(ClipRequestFor(plans, timings, k, orientation, useBaseImages)).error))
    else
      AllClipped(done);
      Written(done, None)
  }

  /** When every plan carries a clip, every plan is counted. */
  lemma {:induction false} AllClipped(plans: seq<SegmentVisualPlan>)
    requires forall i :: 0 <= i < |plans| ==> plans[i].videoPath.Some?
    ensures CountClips(plans) == |plans|
  {
    if |plans| > 0 {
      AllClipped(plans[1..]);
    }
  }
}

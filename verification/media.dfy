/** Records shared by the audio, image and assembly stages: word timings,
    segment timings and the per-segment visual plan. */
module Media {
  import opened Wrappers

  /** A filesystem path; only its identity matters to the model. */
  type Path = string

  /** One spoken word with its start and end time in seconds. */
  datatype WordAlignment = WordAlignment(word: string, startTime: real, endTime: real)

  /** Where one script segment sits in the narration audio. */
  datatype SegmentTiming = SegmentTiming(startTime: real, endTime: real, duration: real)

  /** One image prompt; `usesLogo` asks for the brand logo to be composited. */
  datatype ImageDescription = ImageDescription(description: string, usesLogo: bool)

  /** The visual plan of one script segment: how many images, how long the
      last one holds, their prompts and files, and the rendered clip. */
  datatype SegmentVisualPlan = SegmentVisualPlan(
    segmentIndex: int,
    numImages: int,
    lastImageDuration: real,
    imageDescriptions: seq<ImageDescription>,
    imagePaths: seq<Path>,
    videoPath: Option<Path>)

  /** What a clip stage leaves behind: the plans as the caller's objects
      stand afterwards (the clip stages assign `video_path` on the plan
      objects they are handed, as they go) and the exception raised, if
      any. */
  datatype Written<E> = Written(plans: seq<SegmentVisualPlan>, raised: Option<E>)

  /** A plan as first created: no prompts, images or clip yet. */
  function NewPlan(index: int, numImages: int, last: real): SegmentVisualPlan {
    SegmentVisualPlan(index, numImages, last, [], [], None)
  }

  /** One script segment in its raw and audio-tagged forms. */
  datatype ScriptSegment = ScriptSegment(scriptSegment: string, enhancedScriptSegment: string)

  function RawTexts(segs: seq<ScriptSegment>): (r: seq<string>)
    ensures |r| == |segs|
    ensures forall i :: 0 <= i < |segs| ==> r[i] == segs[i].scriptSegment
  {
    seq(|segs|, i requires 0 <= i < |segs| => segs[i].scriptSegment)
  }

  function EnhancedTexts(segs: seq<ScriptSegment>): (r: seq<string>)
    ensures |r| == |segs|
    ensures forall i :: 0 <= i < |segs| ==> r[i] == segs[i].enhancedScriptSegment
  {
    seq(|segs|, i requires 0 <= i < |segs| => segs[i].enhancedScriptSegment)
  }

  /** The non-null clip paths of `plans`, in plan order. The source filters
      with `if p.video_path`; a clip path is a `pathlib.Path`, which defines
      neither `__bool__` nor `__len__` and so is truthy even when built from
      "", and the test keeps exactly the paths that are not None. */
  function ClipPaths(plans: seq<SegmentVisualPlan>): (r: seq<Path>)
    ensures |r| <= |plans|
  {
    if |plans| == 0 then []
    else
      var rest := ClipPaths(plans[1..]);
      match plans[0].videoPath
      case Some(p) => [p] + rest
      case None => rest
  }

  /** Number of plans that carry a clip. */
  function CountClips(plans: seq<SegmentVisualPlan>): nat
  {
    if |plans| == 0 then 0
    else (if plans[0].videoPath.Some? then 1 else 0) + CountClips(plans[1..])
  }

  /** `ClipPaths` keeps exactly the plans with a clip, in order: its length is
      their number, and it is empty exactly when no plan has a clip. */
  lemma {:induction false} ClipPathsExact(plans: seq<SegmentVisualPlan>)
    ensures |ClipPaths(plans)| == CountClips(plans)
    ensures ClipPaths(plans) == [] <==> forall i :: 0 <= i < |plans| ==> plans[i].videoPath.None?
    ensures forall p :: p in ClipPaths(plans) <==> exists i :: 0 <= i < |plans| && plans[i].videoPath == Some(p)
  {
    if |plans| > 0 {
      ClipPathsExact(plans[1..]);
      var rest := plans[1..];
      assert forall i :: 0 < i < |plans| ==> plans[i] == rest[i - 1];
      forall p | (exists i :: 0 <= i < |plans| && plans[i].videoPath == Some(p))
        ensures p in ClipPaths(plans)
      {
        var i :| 0 <= i < |plans| && plans[i].videoPath == Some(p);
        if i > 0 {
          assert rest[i - 1].videoPath == Some(p);
        }
      }
      forall p | p in ClipPaths(plans)
        ensures exists i :: 0 <= i < |plans| && plans[i].videoPath == Some(p)
      {
        if plans[0].videoPath != Some(p) {
          assert p in ClipPaths(rest);
          var j :| 0 <= j < |rest| && rest[j].videoPath == Some(p);
          assert plans[j + 1].videoPath == Some(p);
        }
      }
    }
  }
}

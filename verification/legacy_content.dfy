/** The first-generation short- and long-form content graphs: timing each
    script segment by walking the narration's per-character start times,
    planning each segment's images, and the motion start schedule. Python
    list indexing is modelled exactly, so an index past the end is an
    `IndexError` (`None`) and an index of -1 reads the last element. */
module LegacyContent {
  import opened Wrappers
  import opened PyText
  import opened PyNum
  import opened Media
  import AudioGenerator
  import ImageGenerator

  /** Python's `xs[i]`: a negative index counts from the end; anything else
      out of range raises `IndexError`. */
  function PyIndex<T>(xs: seq<T>, i: int): (r: Option<T>)
    ensures r.Some? <==> -|xs| <= i < |xs|
    ensures 0 <= i < |xs| ==> r == Some(xs[i])
    ensures -|xs| <= i < 0 ==> r == Some(xs[|xs| + i])
  {
    if 0 <= i < |xs| then Some(xs[i])
    else if -|xs| <= i < 0 then Some(xs[|xs| + i])
    else None
  }

  // ---------------------------------------------------------------------
  // Character-index timing
  // ---------------------------------------------------------------------

  /** A segment's `(start, end)` pair in seconds. */
  datatype Span = Span(start: real, end: real)

  /** One duration and one span per segment, in segment order. */
  datatype SegmentTimes = SegmentTimes(durations: seq<real>, spans: seq<Span>)

  /** One loop iteration: the segment's span and duration, and the cursor
      the next segment starts from. */
  datatype SegmentStep = SegmentStep(span: Span, duration: real, cursor: nat)

  /** The first character of a segment: the cursor itself for the first
      segment (cursor 0), otherwise one past it, skipping the separator. */
  function StartIndex(cursor: nat): nat {
    if cursor == 0 then 0 else cursor + 1
  }

  /** Timing one segment of `len` characters from `cursor`. Its end time is
      the start time of its last character, moved on to the character two
      further (the next segment's first one) when that exists. The cursor
      becomes one past the last character, or wraps to 0 at the end of the
      array. A length of 0 makes the last index -1, which Python reads as
      the array's last element. */
  function TimeSegment(starts: seq<real>, cursor: nat, len: nat): (r: Option<SegmentStep>)
    ensures var s := StartIndex(cursor);
            var e := s + len - 1;
            (r.Some? <==> s < |starts| && e < |starts|)
            && (r.Some? ==>
                  r.value.span.start == starts[s]
                  && r.value.span.end == (if e + 2 < |starts| then starts[e + 2]
                                          else if e >= 0 then starts[e] else starts[|starts| - 1])
                  && r.value.duration == r.value.span.end - r.value.span.start
                  && r.value.cursor == (if e + 1 < |starts| then e + 1 else 0))
  {
    var s := StartIndex(cursor);
    var e := s + len - 1;
    var first := PyIndex(starts, s);
    var last := PyIndex(starts, e);
    if first.None? || last.None? then None
    else
      var endTime := last.value + (if e + 2 < |starts| then starts[e + 2] - last.value else 0.0);
      Some(SegmentStep(Span(first.value, endTime), endTime - first.value,
                       if e + 1 < |starts| then (e + 1) as nat else 0))
  }

  /** The timing loop from segment `k` on. */
  function TimingsFrom(starts: seq<real>, lens: seq<nat>, k: nat, cursor: nat): (r: Option<SegmentTimes>)
    requires k <= |lens|
    ensures r.Some? ==> |r.value.durations| == |lens| - k && |r.value.spans| == |lens| - k
    ensures r.Some? ==> forall t :: 0 <= t < |lens| - k ==>
      r.value.durations[t] == r.value.spans[t].end - r.value.spans[t].start
    decreases |lens| - k
  {
    if k == |lens| then Some(SegmentTimes([], []))
    else
      var step := TimeSegment(starts, cursor, lens[k]);
      if step.None? then None
      else
        var rest := TimingsFrom(starts, lens, k + 1, step.value.cursor);
        if rest.None? then None
        else Some(SegmentTimes([step.value.duration] + rest.value.durations,
                               [step.value.span] + rest.value.spans))
  }

  /** The shared loop of `compute_script_segment_timings` and of each
      section of `compute_section_script_timings`, over segment lengths
      `lens` and the narration's character start times `starts`. `None` is
      the `IndexError` an out-of-range index raises. */
  function ScriptTimings(starts: seq<real>, lens: seq<nat>): (r: Option<SegmentTimes>)
    ensures |lens| == 0 ==> r == Some(SegmentTimes([], []))
    ensures r.Some? ==> |r.value.durations| == |lens| && |r.value.spans| == |lens|
    ensures r.Some? ==> forall i :: 0 <= i < |lens| ==>
      r.value.durations[i] == r.value.spans[i].end - r.value.spans[i].start
  {
    TimingsFrom(starts, lens, 0, 0)
  }

  /** Where segment `i` starts when every earlier segment is followed by one
      separator character. */
  function Offset(lens: seq<nat>, i: nat): nat
    requires i <= |lens|
  {
    if i == 0 then 0 else Offset(lens, i - 1) + lens[i - 1] + 1
  }

  lemma {:induction false} OffsetMono(lens: seq<nat>, i: nat, j: nat)
    requires i <= j <= |lens|
    ensures Offset(lens, i) <= Offset(lens, j)
    decreases j - i
  {
    if i < j {
      OffsetMono(lens, i, j - 1);
    }
  }

  /** Every segment is non-empty and the narration has a character for
      every segment plus one separator between neighbours. */
  predicate Covered(starts: seq<real>, lens: seq<nat>) {
    (forall i :: 0 <= i < |lens| ==> lens[i] > 0)
    && (|lens| > 0 ==> Offset(lens, |lens|) <= |starts| + 1)
  }

  /** On a covered narration every segment's characters are in range. */
  lemma OffsetBounds(starts: seq<real>, lens: seq<nat>, i: nat)
    requires Covered(starts, lens) && i < |lens|
    ensures 2 <= Offset(lens, i + 1) <= |starts| + 1 && Offset(lens, i) < |starts|
    ensures i + 1 < |lens| ==> Offset(lens, i + 1) < |starts|
  {
    OffsetMono(lens, i + 1, |lens|);
    if i + 1 < |lens| {
      OffsetMono(lens, i + 2, |lens|);
    }
  }

  /** The start time of segment `i`'s first character. */
  function StartAt(starts: seq<real>, lens: seq<nat>, i: nat): real
    requires Covered(starts, lens) && i < |lens|
  {
    OffsetBounds(starts, lens, i);
    starts[Offset(lens, i)]
  }

  /** Where segment `i`'s timing ends on a covered narration: at the next
      segment's first character, or, for the last segment when no character
      follows the separator, at its own last one. */
  function EndAt(starts: seq<real>, lens: seq<nat>, i: nat): real
    requires Covered(starts, lens) && i < |lens|
  {
    OffsetBounds(starts, lens, i);
    if Offset(lens, i + 1) < |starts| then starts[Offset(lens, i + 1)]
    else starts[Offset(lens, i + 1) - 2]
  }

  /** When the narration covers the segments, no index is out of range and
      the segments tile the narration: segment `i` starts at its own first
      character and ends where segment `i + 1` starts. */
  lemma ScriptTimingsTile(starts: seq<real>, lens: seq<nat>)
    requires Covered(starts, lens)
    ensures ScriptTimings(starts, lens).Some?
    ensures forall i :: 0 <= i < |lens| ==>
      Offset(lens, i) < |starts| && ScriptTimings(starts, lens).value.spans[i].start == starts[Offset(lens, i)]
    ensures forall i :: 0 <= i < |lens| - 1 ==>
      ScriptTimings(starts, lens).value.spans[i].end == ScriptTimings(starts, lens).value.spans[i + 1].start
  {
    TimingsFromTile(starts, lens, 0, 0);
    var r := ScriptTimings(starts, lens).value;
    forall i | 0 <= i < |lens|
      ensures Offset(lens, i) < |starts| && r.spans[i].start == starts[Offset(lens, i)]
      ensures i < |lens| - 1 ==> r.spans[i].end == r.spans[i + 1].start
    {
      OffsetBounds(starts, lens, i);
      assert r.spans[i] == Span(StartAt(starts, lens, i), EndAt(starts, lens, i));
      if i < |lens| - 1 {
        assert r.spans[i + 1] == Span(StartAt(starts, lens, i + 1), EndAt(starts, lens, i + 1));
      }
    }
  }

  /** One segment of a covered narration: it is timed from its first
      character to the next segment's, and leaves the cursor one before the
      next segment's first character. */
  lemma StepTile(starts: seq<real>, lens: seq<nat>, k: nat, cursor: nat)
    requires Covered(starts, lens) && k < |lens|
    requires cursor == (if k == 0 then 0 else Offset(lens, k) - 1)
    ensures TimeSegment(starts, cursor, lens[k]).Some?
    ensures TimeSegment(starts, cursor, lens[k]).value.span == Span(StartAt(starts, lens, k), EndAt(starts, lens, k))
    ensures k + 1 < |lens| ==> TimeSegment(starts, cursor, lens[k]).value.cursor == Offset(lens, k + 1) - 1
  {
    OffsetBounds(starts, lens, k);
    if k > 0 {
      OffsetMono(lens, 1, k);
    }
  }

  /** The inductive step of `ScriptTimingsTile`: from segment `k` on, with
      the cursor one before segment `k`'s first character. */
  lemma {:induction false} TimingsFromTile(starts: seq<real>, lens: seq<nat>, k: nat, cursor: nat)
    requires Covered(starts, lens) && k <= |lens|
    requires k < |lens| ==> cursor == (if k == 0 then 0 else Offset(lens, k) - 1)
    ensures TimingsFrom(starts, lens, k, cursor).Some?
    ensures forall t :: 0 <= t < |lens| - k ==>
      TimingsFrom(starts, lens, k, cursor).value.spans[t] == Span(StartAt(starts, lens, k + t), EndAt(starts, lens, k + t))
    decreases |lens| - k
  {
    if k < |lens| {
      StepTile(starts, lens, k, cursor);
      var step := TimeSegment(starts, cursor, lens[k]).value;
      TimingsFromTile(starts, lens, k + 1, step.cursor);
      var r := TimingsFrom(starts, lens, k, cursor).value;
      var rest := TimingsFrom(starts, lens, k + 1, step.cursor).value;
      assert r.spans == [step.span] + rest.spans;
      forall t | 0 <= t < |lens| - k
        ensures r.spans[t] == Span(StartAt(starts, lens, k + t), EndAt(starts, lens, k + t))
      {
        if t > 0 {
          assert r.spans[t] == rest.spans[t - 1];
          assert k + 1 + (t - 1) == k + t;
        }
      }
    }
  }

  /** The lengths of the texts. */
  function Lengths(texts: seq<string>): (lens: seq<nat>)
    ensures |lens| == |texts|
    ensures forall i :: 0 <= i < |texts| ==> lens[i] == |texts[i]|
  {
    seq(|texts|, (i: int) requires 0 <= i < |texts| => |texts[i]|)
  }

  /** A narration that is the texts joined by single characters has exactly
      one character per text character and per separator. */
  lemma {:induction false} OffsetOfJoin(sep: char, texts: seq<string>, i: nat)
    requires 1 <= i <= |texts|
    ensures Offset(Lengths(texts), i) == |Join([sep], texts[..i])| + 1
  {
    if i == 1 {
      assert texts[..1] == [texts[0]];
    } else {
      OffsetOfJoin(sep, texts, i - 1);
      assert texts[..i] == texts[..i - 1] + [texts[i - 1]];
      JoinSnoc([sep], texts[..i - 1], texts[i - 1]);
    }
  }

  /** When the narration is the non-empty segments joined by single spaces,
      the segments tile it. */
  lemma JoinedNarrationCovered(starts: seq<real>, texts: seq<string>)
    requires forall i :: 0 <= i < |texts| ==> |texts[i]| > 0
    requires |texts| > 0 ==> |starts| == |Join(" ", texts)|
    ensures Covered(starts, Lengths(texts))
  {
    if |texts| > 0 {
      OffsetOfJoin(' ', texts, |texts|);
      assert texts[..|texts|] == texts;
    }
  }

  /** The length of each segment in the track that was voiced: the
      audio-enhanced text when enhancement was on, the raw text otherwise. */
  function SegmentLengths(segments: seq<ScriptSegment>, enhanced: bool): (lens: seq<nat>)
    ensures |lens| == |segments|
    ensures enhanced ==> lens == Lengths(EnhancedTexts(segments))
    ensures !enhanced ==> lens == Lengths(RawTexts(segments))
  {
    Lengths(if enhanced then EnhancedTexts(segments) else RawTexts(segments))
  }

  /** `compute_script_segment_timings` (short form). */
  function ComputeScriptSegmentTimings(starts: seq<real>, segments: seq<ScriptSegment>, enhanced: bool)
    : (r: Option<SegmentTimes>)
    ensures r.Some? ==> |r.value.durations| == |segments| && |r.value.spans| == |segments|
    ensures r.Some? ==> forall i :: 0 <= i < |segments| ==>
      r.value.durations[i] == r.value.spans[i].end - r.value.spans[i].start
    ensures Covered(starts, SegmentLengths(segments, enhanced)) ==>
      r.Some? && forall i :: 0 <= i < |segments| - 1 ==> r.value.spans[i].end == r.value.spans[i + 1].start
  {
    var lens := SegmentLengths(segments, enhanced);
    assert Covered(starts, lens) ==>
      ScriptTimings(starts, lens).Some?
      && forall i :: 0 <= i < |segments| - 1 ==>
           ScriptTimings(starts, lens).value.spans[i].end == ScriptTimings(starts, lens).value.spans[i + 1].start
    by {
      if Covered(starts, lens) {
        ScriptTimingsTile(starts, lens);
      }
    }
    ScriptTimings(starts, lens)
  }

  /** One section's timing. The section's start-time list is read only when
      the section has a segment, so a missing list fails only then. */
  function SectionTimings(allStarts: seq<seq<real>>, sections: seq<seq<string>>, s: nat): Option<SegmentTimes>
    requires s < |sections|
  {
    if |sections[s]| == 0 then Some(SegmentTimes([], []))
    else if s < |allStarts| then ScriptTimings(allStarts[s], Lengths(sections[s]))
    else None
  }

  /** `compute_section_script_timings` (long form): every section is timed
      against its own narration with the cursor back at 0, always on the
      raw segment text; one list per section. */
  function ComputeSectionScriptTimings(allStarts: seq<seq<real>>, sections: seq<seq<string>>)
    : (r: Option<seq<SegmentTimes>>)
    ensures r.Some? <==> forall s :: 0 <= s < |sections| ==> SectionTimings(allStarts, sections, s).Some?
    ensures r.Some? ==> |r.value| == |sections|
    ensures r.Some? ==> forall s :: 0 <= s < |sections| ==>
      |r.value[s].durations| == |sections[s]| && |r.value[s].spans| == |sections[s]|
      && (|sections[s]| > 0 ==> s < |allStarts| && Some(r.value[s]) == ScriptTimings(allStarts[s], Lengths(sections[s])))
  {
    SectionsFrom(allStarts, sections, 0)
  }

  function SectionsFrom(allStarts: seq<seq<real>>, sections: seq<seq<string>>, k: nat)
    : (r: Option<seq<SegmentTimes>>)
    requires k <= |sections|
    ensures r.Some? <==> forall s :: k <= s < |sections| ==> SectionTimings(allStarts, sections, s).Some?
    ensures r.Some? ==> |r.value| == |sections| - k
    ensures r.Some? ==> forall t :: 0 <= t < |sections| - k ==>
      r.value[t] == SectionTimings(allStarts, sections, k + t).value
    decreases |sections| - k
  {
    if k == |sections| then Some([])
    else
      var here := SectionTimings(allStarts, sections, k);
      var rest := SectionsFrom(allStarts, sections, k + 1);
      if here.None? || rest.None? then None
      else
        Some([here.value] + rest.value)
  }

  // ---------------------------------------------------------------------
  // Long-form script
  // ---------------------------------------------------------------------

  /** The script node's result: the whole script and one script per section. */
  datatype LongScript = LongScript(script: string, sectionScripts: seq<string>)

  /** The script node's loop from section `k` on. `write(i, sofar)` stands
      for the model call writing section `i` given the script so far. */
  function WriteSectionsFrom(write: (nat, string) -> string, n: nat, k: nat, acc: LongScript): (r: LongScript)
    requires k <= n && |acc.sectionScripts| == k && acc.script == Join("", acc.sectionScripts)
    ensures |r.sectionScripts| == n && r.sectionScripts[..k] == acc.sectionScripts
    ensures r.script == Join("", r.sectionScripts)
    ensures forall i :: k <= i < n ==> r.sectionScripts[i] == write(i, Join("", r.sectionScripts[..i]))
    decreases n - k
  {
    if k == n then acc
    else
      var s := write(k, acc.script);
      var scripts := acc.sectionScripts + [s];
      ConcatSnoc(acc.sectionScripts, s);
      var r := WriteSectionsFrom(write, n, k + 1, LongScript(acc.script + s, scripts));
      assert r.sectionScripts[..k] == r.sectionScripts[..k + 1][..k];
      r
  }

  /** `generate_script` (long form): sections are written in order, each
      seeing the concatenation of the earlier ones, and the script is the
      concatenation of all of them with no separator. */
  function GenerateLongScript(write: (nat, string) -> string, n: nat): (r: LongScript)
    ensures |r.sectionScripts| == n
    ensures r.script == Join("", r.sectionScripts)
    ensures forall i :: 0 <= i < n ==> r.sectionScripts[i] == write(i, Join("", r.sectionScripts[..i]))
  {
    WriteSectionsFrom(write, n, 0, LongScript("", []))
  }

  // ---------------------------------------------------------------------
  // Images per segment
  // ---------------------------------------------------------------------

  /** The planner is defined for every duration. */
  predicate PlannerDefinedAll(durations: seq<real>, ideal: real) {
    forall i :: 0 <= i < |durations| ==> AudioGenerator.PlannerDefined(durations[i], ideal)
  }

  /** `compute_length_and_num_of_images_per_segment`, the planner both
      first-generation graphs carry a copy of. The count stays the float
      `divmod` gives until `int()` truncates it on return; the split is the
      one the v2 planner computes, for every input. */
  function LengthAndImageCount(d: real, ideal: real, minDuration: real): (r: AudioGenerator.ImageSplit)
    requires AudioGenerator.PlannerDefined(d, ideal)
    ensures r == AudioGenerator.ImagesPerSegment(d, ideal, minDuration)
  {
    if d <= ideal then AudioGenerator.ImageSplit(1, d)
    else
      var (full, excess) := DivMod(d, ideal);
      var count: real := if excess > minDuration then full as real + 1.0 else full as real;
      var last := if excess > minDuration then excess else ideal + excess;
      AudioGenerator.ImageSplit(Trunc(count), last)
  }

  /** The image-description node's planning (short form): the image split of
      each of the first `n` segments, in segment order. Fewer durations than
      segments is an `IndexError`. */
  function SegmentImagePlans(durations: seq<real>, n: nat, ideal: real, minDuration: real)
    : (r: Option<seq<AudioGenerator.ImageSplit>>)
    requires PlannerDefinedAll(durations, ideal)
    ensures r.Some? <==> n <= |durations|
    ensures r.Some? ==> |r.value| == n
    ensures r.Some? ==> forall i :: 0 <= i < n ==>
      (r.value[i].count - 1) as real * ideal + r.value[i].last == durations[i]
      && (ideal > 0.0 ==> r.value[i].count >= 1)
      && (durations[i] <= ideal ==> r.value[i] == AudioGenerator.ImageSplit(1, durations[i]))
  {
    if n <= |durations| then
      Some(seq(n, (i: int) requires 0 <= i < n => LengthAndImageCount(durations[i], ideal, minDuration)))
    else None
  }

  /** The last-image durations the short-form state records. */
  function LastDurations(plans: seq<AudioGenerator.ImageSplit>): (r: seq<real>)
    ensures |r| == |plans|
    ensures forall i :: 0 <= i < |plans| ==> r[i] == plans[i].last
  {
    seq(|plans|, (i: int) requires 0 <= i < |plans| => plans[i].last)
  }

  /** The long form's planning: one list per section, section `s` planned
      from its own durations; a missing duration list or duration fails. */
  function SectionImagePlans(durations: seq<seq<real>>, sectionSizes: seq<nat>, ideal: real, minDuration: real)
    : (r: Option<seq<seq<AudioGenerator.ImageSplit>>>)
    requires forall s :: 0 <= s < |durations| ==> PlannerDefinedAll(durations[s], ideal)
    ensures r.Some? <==> forall s :: 0 <= s < |sectionSizes| ==>
      sectionSizes[s] == 0 || (s < |durations| && sectionSizes[s] <= |durations[s]|)
    ensures r.Some? ==> |r.value| == |sectionSizes|
    ensures r.Some? ==> forall s :: 0 <= s < |sectionSizes| ==>
      Some(r.value[s]) == SectionPlan(durations, sectionSizes[s], s, ideal, minDuration)
  {
    PlansFrom(durations, sectionSizes, ideal, minDuration, 0)
  }

  function SectionPlan(durations: seq<seq<real>>, size: nat, s: nat, ideal: real, minDuration: real)
    : (r: Option<seq<AudioGenerator.ImageSplit>>)
    requires forall s :: 0 <= s < |durations| ==> PlannerDefinedAll(durations[s], ideal)
    ensures r.Some? <==> size == 0 || (s < |durations| && size <= |durations[s]|)
    ensures r.Some? ==> |r.value| == size
    ensures r.Some? ==> forall i :: 0 <= i < size ==>
      (r.value[i].count - 1) as real * ideal + r.value[i].last == durations[s][i]
  {
    if size == 0 then Some([])
    else if s < |durations| then SegmentImagePlans(durations[s], size, ideal, minDuration)
    else None
  }

  function PlansFrom(durations: seq<seq<real>>, sectionSizes: seq<nat>, ideal: real, minDuration: real, k: nat)
    : (r: Option<seq<seq<AudioGenerator.ImageSplit>>>)
    requires forall s :: 0 <= s < |durations| ==> PlannerDefinedAll(durations[s], ideal)
    requires k <= |sectionSizes|
    ensures r.Some? <==> forall s :: k <= s < |sectionSizes| ==>
      SectionPlan(durations, sectionSizes[s], s, ideal, minDuration).Some?
    ensures r.Some? ==> |r.value| == |sectionSizes| - k
    ensures r.Some? ==> forall t :: 0 <= t < |sectionSizes| - k ==>
      r.value[t] == SectionPlan(durations, sectionSizes[k + t], k + t, ideal, minDuration).value
    decreases |sectionSizes| - k
  {
    if k == |sectionSizes| then Some([])
    else
      var here := SectionPlan(durations, sectionSizes[k], k, ideal, minDuration);
      var rest := PlansFrom(durations, sectionSizes, ideal, minDuration, k + 1);
      if here.None? || rest.None? then None
      else
        Some([here.value] + rest.value)
  }

  // ---------------------------------------------------------------------
  // Motion schedule
  // ---------------------------------------------------------------------

  /** The pattern both first-generation graphs cycle. */
  const LegacyPattern: seq<string> := ["zoom_in", "zoom_out"]

  /** Images in the segments before position `j`. */
  function ImagesBefore(groups: seq<seq<Path>>, j: nat): nat
    requires j <= |groups|
  {
    if j == 0 then 0 else ImagesBefore(groups, j - 1) + |groups[j - 1]|
  }

  /** `animate_segments_images` (short form): segment `i` is animated from
      its images with the ideal duration, its last-image duration and the
      pattern started at the images before it modulo 2. Fewer last-image
      durations than segments is an `IndexError`. `outputs` stands for the
      fresh file names. */
  function MotionJobs(groups: seq<seq<Path>>, lasts: seq<real>, ideal: real, outputs: seq<Path>)
    : (r: Option<seq<ImageGenerator.AnimJob>>)
    requires |outputs| == |groups|
    ensures r.Some? <==> |groups| <= |lasts|
    ensures r.Some? ==> |r.value| == |groups|
    ensures r.Some? ==> forall j :: 0 <= j < |groups| ==>
      r.value[j] == ImageGenerator.AnimJob(groups[j], outputs[j], ideal, lasts[j],
                                           Mod(ImagesBefore(groups, j), |LegacyPattern|))
  {
    if |groups| <= |lasts| then Some(MotionJobsFrom(groups, lasts, ideal, outputs, 0, 0)) else None
  }

  /** The loop from segment `k`, `before` being its running `pattern_start`. */
  function MotionJobsFrom(groups: seq<seq<Path>>, lasts: seq<real>, ideal: real, outputs: seq<Path>, k: nat, before: nat)
    : (r: seq<ImageGenerator.AnimJob>)
    requires |outputs| == |groups| <= |lasts| && k <= |groups|
    requires before == ImagesBefore(groups, k)
    ensures |r| == |groups| - k
    ensures forall t :: 0 <= t < |r| ==>
      r[t] == ImageGenerator.AnimJob(groups[k + t], outputs[k + t], ideal, lasts[k + t],
                                     Mod(ImagesBefore(groups, k + t), |LegacyPattern|))
    decreases |groups| - k
  {
    if k == |groups| then []
    else
      [ImageGenerator.AnimJob(groups[k], outputs[k], ideal, lasts[k], Mod(before, |LegacyPattern|))]
      + MotionJobsFrom(groups, lasts, ideal, outputs, k + 1, before + |groups[k]|)
  }

  /** Both entries of the pattern are styles the animator knows. */
  lemma LegacyPatternKnown(start: nat, n: nat)
    ensures ImageGenerator.KnownMotions(LegacyPattern, start, n)
  {
    forall i | 0 <= i < n
      ensures ImageGenerator.MotionAt(LegacyPattern, start, i) in ImageGenerator.ZoompanStyles
    {
      var m := Mod(start + i, |LegacyPattern|);
      assert m == 0 || m == 1;
    }
  }

  /** Every job the short form schedules is animated without error, and the
      `t`-th image of segment `j` takes the pattern entry of its global
      position: it zooms in exactly when the number of images before it is
      even. */
  lemma MotionJobsAlternate(groups: seq<seq<Path>>, lasts: seq<real>, ideal: real, outputs: seq<Path>, j: nat, t: nat)
    requires |outputs| == |groups| <= |lasts| && j < |groups| && t < |groups[j]|
    ensures var job := MotionJobs(groups, lasts, ideal, outputs).value[j];
            var shots := ImageGenerator.MotionScheduleAsWritten(job.paths, job.ideal, job.last, LegacyPattern, job.startIndex);
            shots.Success? && |shots.value| == |groups[j]|
            && shots.value[t].motion == LegacyPattern[Mod(ImagesBefore(groups, j) + t, 2)]
  {
    var before := ImagesBefore(groups, j);
    var job := MotionJobs(groups, lasts, ideal, outputs).value[j];
    assert job.paths == groups[j] && job.startIndex == Mod(before, 2);
    LegacyPatternKnown(job.startIndex, |groups[j]|);
    ImageGenerator.MotionOfReducedStart(LegacyPattern, before, t);
  }

  /** The long form schedules each section like the short form, with the
      pattern offset back at 0 for every section; a missing last-duration
      list or duration fails. */
  function SectionMotionJobs(sections: seq<seq<seq<Path>>>, lasts: seq<seq<real>>, ideal: real, outputs: seq<seq<Path>>)
    : (r: Option<seq<seq<ImageGenerator.AnimJob>>>)
    requires OneOutputEach(sections, outputs)
    ensures r.Some? <==> forall s :: 0 <= s < |sections| ==>
      |sections[s]| == 0 || (s < |lasts| && |sections[s]| <= |lasts[s]|)
    ensures r.Some? ==> |r.value| == |sections|
    ensures r.Some? ==> forall s :: 0 <= s < |sections| ==>
      Some(r.value[s]) == SectionJobs(sections, lasts, ideal, outputs, s)
  {
    assert forall s :: 0 <= s < |sections| ==>
      (SectionJobs(sections, lasts, ideal, outputs, s).Some?
       <==> |sections[s]| == 0 || (s < |lasts| && |sections[s]| <= |lasts[s]|));
    SectionJobsFrom(sections, lasts, ideal, outputs, 0)
  }

  /** One output file per segment of every section. */
  predicate OneOutputEach(sections: seq<seq<seq<Path>>>, outputs: seq<seq<Path>>) {
    |outputs| == |sections| && forall s :: 0 <= s < |sections| ==> |outputs[s]| == |sections[s]|
  }

  function SectionJobs(sections: seq<seq<seq<Path>>>, lasts: seq<seq<real>>, ideal: real, outputs: seq<seq<Path>>, s: nat)
    : (r: Option<seq<ImageGenerator.AnimJob>>)
    requires OneOutputEach(sections, outputs) && s < |sections|
    ensures r.Some? <==> |sections[s]| == 0 || (s < |lasts| && |sections[s]| <= |lasts[s]|)
    ensures r.Some? ==> |r.value| == |sections[s]|
    ensures r.Some? && |sections[s]| > 0 ==>
      r.value[0].startIndex == 0 && r.value == MotionJobs(sections[s], lasts[s], ideal, outputs[s]).value
  {
    if |sections[s]| == 0 then Some([])
    else if s < |lasts| then MotionJobs(sections[s], lasts[s], ideal, outputs[s])
    else None
  }

  function SectionJobsFrom(sections: seq<seq<seq<Path>>>, lasts: seq<seq<real>>, ideal: real, outputs: seq<seq<Path>>, k: nat)
    : (r: Option<seq<seq<ImageGenerator.AnimJob>>>)
    requires OneOutputEach(sections, outputs) && k <= |sections|
    ensures r.Some? <==> forall s :: k <= s < |sections| ==> SectionJobs(sections, lasts, ideal, outputs, s).Some?
    ensures r.Some? ==> |r.value| == |sections| - k
    ensures r.Some? ==> forall t :: 0 <= t < |sections| - k ==>
      r.value[t] == SectionJobs(sections, lasts, ideal, outputs, k + t).value
    decreases |sections| - k
  {
    if k == |sections| then Some([])
    else
      var here := SectionJobs(sections, lasts, ideal, outputs, k);
      var rest := SectionJobsFrom(sections, lasts, ideal, outputs, k + 1);
      if here.None? || rest.None? then None
      else
        Some([here.value] + rest.value)
  }
}

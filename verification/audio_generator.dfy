/** Narration audio (v2): which text track is voiced and aligned, and the
    planner that splits a segment's duration into images. */
module AudioGenerator {
  import opened PyText
  import opened PyNum
  import opened Media
  import ElevenLabs

  // ---------------------------------------------------------------------
  // Images per segment
  // ---------------------------------------------------------------------

  /** How many images a segment gets and how long the last one lasts. */
  datatype ImageSplit = ImageSplit(count: int, last: real)

  /** The planner is defined unless it would divide by a zero ideal. */
  predicate PlannerDefined(d: real, ideal: real) {
    d <= ideal || ideal != 0.0
  }

  /** `compute_images_per_segment`: a segment no longer than the ideal is one
      image; otherwise it is cut into ideal-length images, and the leftover
      either becomes its own image (when longer than the minimum) or is
      absorbed into the last one. The images always add up to the segment. */
  function ImagesPerSegment(d: real, ideal: real, minDuration: real): (p: ImageSplit)
    requires PlannerDefined(d, ideal)
    ensures d <= ideal ==> p == ImageSplit(1, d)
    ensures (p.count - 1) as real * ideal + p.last == d
    ensures ideal > 0.0 ==> p.count >= 1
    ensures ideal > 0.0 && d > ideal ==>
      var excess := DivMod(d, ideal).1;
      (excess > minDuration ==> p.count >= 2 && p.last == excess && minDuration < p.last < ideal)
      && (excess <= minDuration ==> p.count >= 1 && ideal <= p.last && p.last <= ideal + minDuration)
  {
    if d <= ideal then ImageSplit(1, d)
    else
      var (full, excess) := DivMod(d, ideal);
      FullImagesPositive(d, ideal, full, excess);
      if excess > minDuration then ImageSplit(full + 1, excess)
      else ImageSplit(full, ideal + excess)
  }

  /** A segment longer than a positive ideal holds at least one full image. */
  lemma FullImagesPositive(d: real, ideal: real, full: int, excess: real)
    requires ideal < d && d == full as real * ideal + excess
    requires ideal > 0.0 ==> 0.0 <= excess < ideal
    ensures ideal > 0.0 ==> full >= 1
  {
    if ideal > 0.0 {
      assert full as real * ideal > 0.0;
      assert full as real == (d - excess) / ideal;
    }
  }

  // ---------------------------------------------------------------------
  // Track selection
  // ---------------------------------------------------------------------

  /** What the TTS engine returns for a text: the audio file and its words. */
  datatype Speech = Speech(audioPath: Path, words: seq<WordAlignment>)

  /** The result of a generate-and-align call. */
  datatype AlignedAudio = AlignedAudio(audioPath: Path, words: seq<WordAlignment>, timings: seq<SegmentTiming>)

  /** The text voiced and the segment texts aligned against it. */
  datatype Track = Track(ttsText: string, segmentTexts: seq<string>)

  /** The enhanced track is used when it is requested and non-empty. */
  predicate UsesEnhanced(useEnhanced: bool, enhanced: string) {
    useEnhanced && enhanced != ""
  }

  /** The track choice of `generate_and_align_short_form`: the voiced text
      and the aligned segment texts always come from the same track. */
  function SelectTrack(script: string, enhanced: string, useEnhanced: bool, segments: seq<ScriptSegment>)
    : (t: Track)
    ensures |t.segmentTexts| == |segments|
    ensures UsesEnhanced(useEnhanced, enhanced) ==>
      t.ttsText == enhanced && forall i :: 0 <= i < |segments| ==> t.segmentTexts[i] == segments[i].enhancedScriptSegment
    ensures !UsesEnhanced(useEnhanced, enhanced) ==>
      t.ttsText == script && forall i :: 0 <= i < |segments| ==> t.segmentTexts[i] == segments[i].scriptSegment
  {
    if useEnhanced && enhanced != "" then Track(enhanced, EnhancedTexts(segments))
    else Track(script, RawTexts(segments))
  }

  /** `generate_and_align_short_form`: voices the selected track and aligns
      that same track's segment texts to the returned words. */
  function GenerateAndAlignShortForm(
    ratio: ElevenLabs.Ratio, tts: string -> Speech,
    script: string, enhanced: string, useEnhanced: bool, segments: seq<ScriptSegment>)
    : (r: AlignedAudio)
    ensures var t := SelectTrack(script, enhanced, useEnhanced, segments);
      r.words == tts(t.ttsText).words && r.audioPath == tts(t.ttsText).audioPath
      && r.timings == ElevenLabs.AlignSegments(ratio, t.segmentTexts, r.words)
    ensures r.words == [] ==> r.timings == []
  {
    var t := SelectTrack(script, enhanced, useEnhanced, segments);
    var speech := tts(t.ttsText);
    AlignedAudio(speech.audioPath, speech.words, ElevenLabs.AlignSegments(ratio, t.segmentTexts, speech.words))
  }

  /** `generate_and_align_section`: voices the section script and always
      aligns the raw segment texts. */
  function GenerateAndAlignSection(
    ratio: ElevenLabs.Ratio, tts: string -> Speech, sectionScript: string, segments: seq<string>)
    : (r: AlignedAudio)
    ensures r.words == tts(sectionScript).words
    ensures r.timings == ElevenLabs.AlignSegments(ratio, segments, r.words)
    ensures r.words != [] ==> |r.timings| == ElevenLabs.NonBlank(segments)
  {
    var speech := tts(sectionScript);
    AlignedAudio(speech.audioPath, speech.words, ElevenLabs.AlignSegments(ratio, segments, speech.words))
  }
}

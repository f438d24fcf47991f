# MoceanAI content pipeline — a Dafny model

MoceanAI turns a topic into a narrated short-form video, a long-form video,
a user-generated-content (UGC) style clip or an ebook. An LLM writes the
script, a TTS service voices it with character-level timestamps, an
image model and an optional image-to-video model illustrate it, and FFmpeg
assembles the result. This project models the deterministic logic that
connects those services, in both generations of the code:

- **v2 pipeline**:
  - `Config` holds the size, duration, voice and model tables.
  - `ElevenLabs` rebuilds words from character timestamps and aligns script
    segments to them, by exact search first and proportional fallback second.
  - `AudioGenerator` selects the track and plans the images of each segment.
  - `ImageGenerator` builds the image and motion schedules and the
    zoom-pan durations.
  - `VideoAssembler` builds the SRT cues, the subtitle text and the
    concat lists.
  - `Retry`, `VideoService` and `ImageService` implement the three-try
    service wrappers.
  - `Steps`, `PipelineRunner` and `RunnerV2` run the short-form and
    long-form pipelines step by step. They record the partial state when a
    step fails, and they model the quality gate and the revise loop.
  - `Ugc` is the UGC pipeline; `Ebook` and `EbookFormatter` are the ebook
    pipeline and its text formatting.
  - `Stores` holds the profile and history stores.
- **First-generation code**:
  - `LegacyContent` covers the short- and long-form content graphs.
  - `LegacyClips` covers `ShortFormVideo`: clip creation, time assignment
    and the generation loops.
  - `LegacyVideo` covers `Video`: clip construction, redo and merge.
  - `LegacyUtils` covers the helper modules, including the beta model
    router.
- **Python semantics the code relies on** are written out explicitly:
  - `PyText` covers `strip`, `split`, `join`, `find` and negative indexing.
  - `PyNum` covers `int()` truncation and floored `divmod`.
  - `PyFormat` covers integer formatting.

The services themselves (LLM, TTS, image and video generation, files on
disk, clocks, ids) are parameters of the model: a function-typed field of
a services record, or a sequence of outcomes the run consumes in order.

Where a docstring and the code disagree, the model follows the code. For
example, `align_segments_to_words` documents its result as having the same
length as `segments`. The code skips blank segments
(v2/services/elevenlabs_service.py:229-231), so `ElevenLabs.AlignSegments`
promises one timing per non-blank segment.

## Model

| member | source | states |
|---|---|---|
| AudioGenerator.ImagesPerSegment | v2/pipeline/audio_generator.py:124-146 | a segment no longer than the ideal is one image lasting the whole segment; the count is at least 1 for a positive ideal; (count − 1)·ideal + last equals the segment duration; a leftover above the minimum becomes its own image lasting between the minimum and the ideal, otherwise it is absorbed and the last image lasts between ideal and ideal + minimum |
| AudioGenerator.SelectTrack | v2/pipeline/audio_generator.py:55-72 | the text sent to TTS and the segment texts aligned against it come from the same track: enhanced exactly when requested and non-empty, raw otherwise, one text per segment |
| AudioGenerator.GenerateAndAlignShortForm | v2/pipeline/audio_generator.py:31-86 | the words and audio are those TTS returns for the selected track, the timings align that track's segment texts to those words, and no words give no timings |
| AudioGenerator.GenerateAndAlignSection | v2/pipeline/audio_generator.py:88-121 | a section is voiced from its script and always aligned with the raw segment texts; with words present there is one timing per non-blank segment |
| AudioGenerator.FullImagesPositive | v2/pipeline/audio_generator.py:141-146 | a segment longer than a positive ideal duration holds at least one full image |
| ElevenLabs.RunsAreMaximal | v2/services/elevenlabs_service.py:154-169 | every run of the reference word definition is a maximal block of non-space characters |
| ElevenLabs.RunsAreOrdered | v2/services/elevenlabs_service.py:154-169 | runs come in increasing order and are separated by at least one space |
| ElevenLabs.RunsCover | v2/services/elevenlabs_service.py:154-169 | every non-space character lies in some run |
| ElevenLabs.ScanWords | v2/services/elevenlabs_service.py:150-169 | the character loop leaves the words of every run closed by a space in `words`, the pending last run in `current`, and that run's first start time in `word_start` |
| ElevenLabs.ExtractWordAlignments | v2/services/elevenlabs_service.py:142-179 | missing alignment data gives []; otherwise the words are exactly the maximal runs of non-space characters, in order, each starting at its first character's start time and ending at its last character's end time |
| ElevenLabs.CharToWord | v2/services/elevenlabs_service.py:213-223 | `char_to_word` has one entry per transcript character, is non-decreasing, maps every character to a valid word index; character c of word j sits at position `WordStart(j) + c` and maps to j, and the space after word j maps to j |
| ElevenLabs.CharToWordFrom | v2/services/elevenlabs_service.py:220-223 | from word k on, every character of word j maps to j, and the separating space after word j maps to j, the word before it |
| ElevenLabs.TranscriptLayoutFrom | v2/services/elevenlabs_service.py:213-214 | the transcript joined from word k on holds character c of word j at position `WordStart(j) + c` and a single space right after every word but the last |
| ElevenLabs.LayoutCons | v2/services/elevenlabs_service.py:213-214 | a word, a space and a laid-out rest give a laid-out transcript one word longer |
| ElevenLabs.CharToWordNamesItsWord | v2/services/elevenlabs_service.py:213-223 | read against the transcript, the map sends each character of word j, and the space after it, to j |
| ElevenLabs.PyRange | v2/services/elevenlabs_service.py:325 | element k of `range(lo, hi, step)` is lo + k·step and lies in [lo, hi) |
| ElevenLabs.ScanBest | v2/services/elevenlabs_service.py:318-332 | the best-so-far loop returns the first index of a strictly greatest score above the starting best, or −1 when no score beats it |
| ElevenLabs.FuzzyFind | v2/services/elevenlabs_service.py:298-338 | −1 for an empty needle or search area; otherwise −1 exactly when every window scores below 0.6, and else the absolute position of the earliest best-scoring window, which lies in [start, len(haystack) − len(needle)] |
| ElevenLabs.Locate | v2/services/elevenlabs_service.py:233-238 | the exact match at or after the cursor wins over the fuzzy one; any placement found lies at or after the cursor and inside the transcript |
| ElevenLabs.MatchedTiming | v2/services/elevenlabs_service.py:269-291 | a placed segment starts exactly at the start of the word under its first character; it ends at the end of the word under its last character plus min(gap to the next word, 0.3 s), or exactly at that end for the last word, so it never passes the next word's start; the duration is max(end − start, 0.1 s) |
| ElevenLabs.AlignOne | v2/services/elevenlabs_service.py:228-293 | a blank segment changes nothing; a located segment appends exactly the `MatchedTiming` of its match position and moves the cursor to the match end; an unplaceable segment starts at the previous timing's end (0.0 first) and gets its share of the remaining audio; every other segment appends exactly one timing and moves the cursor strictly forward |
| ElevenLabs.AlignFromCount | v2/services/elevenlabs_service.py:228-295 | the segment loop emits one timing per non-blank segment, keeps earlier timings, and never moves the cursor back |
| ElevenLabs.AlignSegments | v2/services/elevenlabs_service.py:209-295 | the code as written, uncapped fallback included: no word alignments give []; otherwise one timing per non-blank segment, never more than there are segments |
| ElevenLabs.AlignSegmentsCapped | v2/services/elevenlabs_service.py:246-262 | the corrected alignment, with the fallback share capped at 1, keeps the count: [] without words, otherwise one timing per non-blank segment |
| ElevenLabs.WordsOf | v2/services/elevenlabs_service.py:154-177 | one word alignment per run of non-space characters, word k built from run k |
| ElevenLabs.WordTexts | v2/services/elevenlabs_service.py:213 | one text per word alignment, in order |
| ElevenLabs.Scores | v2/services/elevenlabs_service.py:325-329 | one score per window the fuzzy search slides over, each the ratio of the needle and the needle-sized slice of the area at that window's offset, the slice lying inside the area |
| ElevenLabs.FallbackShare | v2/services/elevenlabs_service.py:254-256 | the share of the remaining audio a segment is given is never negative, and at most 1 when capped |
| ElevenLabs.AlignSegmentsWith | v2/services/elevenlabs_service.py:209-295 | no word alignments give no timings; otherwise exactly one timing per segment that is not blank after stripping, never more than there are segments |
| ElevenLabs.NonBlankBound | v2/services/elevenlabs_service.py:228-231 | there are never more non-blank segments than segments |
| ElevenLabs.FallbackOvershoots | v2/services/elevenlabs_service.py:250-262 | as written, one word "hi" ending at 1.0 s and an unplaceable segment "zzzzzz" give the timing 0.0 to 3.0, past the end of the audio |
| ElevenLabs.FallbackStaysInsideAudio | v2/services/elevenlabs_service.py:246-262 | with the share capped at 1, a fallback timing starts at the previous end and ends no later than the last word |
| VideoAssembler.ConcatInputs | v2/pipeline/video_assembler.py:148-157 | the concat inputs are the clips in order, followed by exactly one 1.0 s black buffer when requested |
| VideoAssembler.ConcatInputsRoundTrip | v2/pipeline/video_assembler.py:148-157 | reading the clips back from the input list gives exactly the clips passed, with one buffer when requested and none otherwise |
| VideoAssembler.ClipsOfAppend | v2/pipeline/video_assembler.py:148-157 | reading clips and buffers back distributes over concatenation of input lists |
| VideoAssembler.AssembleShortForm | v2/pipeline/video_assembler.py:29-71 | fails exactly when no plan has a video path; otherwise the inputs are the non-null clip paths in plan order plus the optional buffer, and the subtitle branch is taken exactly when subtitles are requested and word alignments are non-empty, with the cues of `_generate_srt` |
| VideoAssembler.AssembleSection | v2/pipeline/video_assembler.py:73-95 | a section assembles its non-null clip paths in order, never with an end buffer and never with subtitles |
| VideoAssembler.Groups | v2/pipeline/video_assembler.py:243-246 | the words are cut into ceil(n/4) groups of 1 to 4 words, all but the last holding exactly 4 |
| VideoAssembler.GroupsPartition | v2/pipeline/video_assembler.py:243-244 | the groups, concatenated in order, give back the word list |
| VideoAssembler.CueOf | v2/pipeline/video_assembler.py:248-250 | a cue starts at its first word's start, ends at its last word's end, and its text is the words joined by single spaces |
| VideoAssembler.SrtCues | v2/pipeline/video_assembler.py:240-256 | `_generate_srt` emits ceil(n/4) cues numbered 1, 2, … without gaps, cue k made from group k |
| VideoAssembler.CueTextLength | v2/pipeline/video_assembler.py:250 | a cue's text is as long as its words plus one space between each pair |
| VideoAssembler.SrtLines | v2/pipeline/video_assembler.py:252-258 | the file holds four lines per cue, line 4k + j being line j of cue k: number, time span, text, blank |
| VideoAssembler.SrtParts | v2/pipeline/video_assembler.py:261-266 | the minute and second fields are below 60 and the millisecond field below 1000; a non-negative input has non-negative hours |
| VideoAssembler.SrtPartsTotal | v2/pipeline/video_assembler.py:261-266 | h·3600 + m·60 + s + ms/1000 equals the input floored to the millisecond |
| VideoAssembler.FieldsReadBack | v2/pipeline/video_assembler.py:267 | a timestamp of in-range fields is twelve characters `HH:MM:SS,mmm`, each field zero-filled digits that read back as its value |
| VideoAssembler.HoursBelowHundred | v2/pipeline/video_assembler.py:263 | inputs below 100 hours give an hours field of at most two digits |
| VideoAssembler.CueLines | v2/pipeline/video_assembler.py:252-258 | each cue is written as four lines, the last one blank |
| ImageGenerator.PlanVisuals | v2/pipeline/image_generator.py:84-123 | one plan per timing with segment_index equal to its position and nothing generated yet; single-image mode gives one image lasting the whole segment, otherwise the planner's count and last duration, which add up to the segment |
| ImageGenerator.SegmentText | v2/pipeline/image_generator.py:171-177 | the segment text is the `script_segment` attribute if present, else the dict entry, else the segment's `str` |
| ImageGenerator.FirstUnknown | v2/pipeline/image_generator.py:500-553 | the first image whose style is not a known zoompan style, with every earlier style known |
| ImageGenerator.MotionScheduleWith | v2/pipeline/image_generator.py:487-571 | no images give an empty schedule; an empty pattern fails; otherwise the schedule succeeds exactly when every image's style is known, and then image i shows its own path with pattern entry (start + i) mod L and the duration its rule gives; a failure names the first unknown style |
| ImageGenerator.ScheduleLength | v2/pipeline/image_generator.py:494-590 | with the last duration given to the last image only, the clip's durations sum to (n − 1)·ideal + last, the length the source expects |
| ImageGenerator.RulesAgreeOnDistinctLast | v2/pipeline/image_generator.py:494-498 | the source's path-equality rule and the last-position rule give the same schedule whenever the last file appears nowhere else in the clip |
| ImageGenerator.DuplicateLastPathOverruns | v2/pipeline/image_generator.py:494-498 | as written, the clip ["a.jpg", "a.jpg"] with ideal 3 and last 5 is scheduled for 10 s where 8 s is expected |
| ImageGenerator.PatternOrDefault | v2/pipeline/image_generator.py:279-280 | the motion pattern defaults to DEFAULT_MOTION_PATTERN when none is given |
| ImageGenerator.AnimationJobs | v2/pipeline/image_generator.py:285-309 | an empty pattern with any segment fails; otherwise one job per plan, segment j starting its pattern at (images in earlier segments) mod L with its own images, output and last duration |
| ImageGenerator.JobsFrom | v2/pipeline/image_generator.py:290-309 | the loop from segment k with `pattern_start` equal to the earlier images yields exactly the jobs of segments k onwards |
| ImageGenerator.AnimateSegments | v2/pipeline/image_generator.py:254-314 | every plan is given its output path before any job runs, so the returned plans carry those paths even when a job fails; an empty pattern fails after naming only the first plan; no error is raised exactly when every job's schedule and render succeed |
| ImageGenerator.FirstRefused | v2/pipeline/image_generator.py:351-379 | the first plan, from i on, whose clip request the video service refuses, or the plan count: every request before it succeeds |
| ImageGenerator.FirstFailing | v2/pipeline/image_generator.py:311 | the first job whose schedule fails, every earlier one succeeding |
| ImageGenerator.MotionOfReducedStart | v2/pipeline/image_generator.py:295-571 | a clip started at (a mod L) shows at image i the motion of global image a + i, so the pattern cycles across all images of all segments |
| ImageGenerator.ClampClipSeconds | v2/pipeline/image_generator.py:363 | the clamp lies in [3, 10], is the identity inside that range, and saturates at each end |
| ImageGenerator.ClipSeconds | v2/pipeline/image_generator.py:362-363 | a clip lasts int(segment duration) clamped to [3, 10], or 5 when no timing exists for it |
| ImageGenerator.ClipSecondsTrackTiming | v2/pipeline/image_generator.py:362-363 | for a segment of 3 to 11 s the requested length is at most the segment and short of it by under a second |
| ImageGenerator.ClipRequestFor | v2/pipeline/image_generator.py:355-368 | the prompt is the first description or the fixed fallback; a base image is passed exactly when base images are wanted and the plan has images, and it is the first image |
| ImageGenerator.GenerateVideoClips | v2/pipeline/image_generator.py:320-402 | the plans before the first refused request take the clip returned for their own request, the later plans are unchanged, the refusal's error is raised, and with no refusal every plan counts as clipped |
| ImageGenerator.SumIdealsThenLast | v2/pipeline/image_generator.py:590 | a run of ideal durations closed by the last duration adds up to (n - 1) times the ideal plus the last |
| ImageGenerator.AllClipped | v2/pipeline/image_generator.py:320-383 | when every plan has a clip, the clip count is the number of plans |
| PipelineRunner.SafeLabel | v2/pipeline/pipeline_runner.py:106 | the label keeps its length; each space becomes an underscore, each slash a hyphen, every other character stays, and no space or slash remains |
| PipelineRunner.SafeLabelIdempotent | v2/pipeline/pipeline_runner.py:106 | sanitising an already sanitised label changes nothing |
| PipelineRunner.SaveCheckpoint | v2/pipeline/pipeline_runner.py:87-119 | a failed write yields no path instead of raising; a successful one yields the timestamped file whose label part holds no space or slash |
| PipelineRunner.EnhanceBody | v2/pipeline/pipeline_runner.py:253-263 | with enhancement off the script is copied unchanged; with it on the enhancer's result is stored, or its error raised with the state untouched |
| PipelineRunner.AudioBody | v2/pipeline/pipeline_runner.py:279-298 | the selected track is voiced, and the audio path, words and the alignment of the track's segment texts against those words are stored together, or nothing is on failure |
| PipelineRunner.PlanBody | v2/pipeline/pipeline_runner.py:301-312 | planning succeeds exactly when every segment's duration is plannable against the ideal duration, and then stores the visual plans of the stored timings |
| PipelineRunner.ClipsBody | v2/pipeline/pipeline_runner.py:346-384 | the video API is used exactly when video generation is on, zoompan otherwise; the step returns exactly when the clip call raises nothing, and then the clip paths are the plans' non-null clips; when it raises, the state keeps the plans the call already wrote |
| PipelineRunner.AssembleBody | v2/pipeline/pipeline_runner.py:387-403 | a run with no clip in any plan raises; success changes only the final video, which is then set |
| PipelineRunner.ShortFormOrder | v2/pipeline/pipeline_runner.py:202-403 | the eleven short-form steps carry exactly the source's failure names in the source's order |
| PipelineRunner.ShortFormStepsAtomic | v2/pipeline/pipeline_runner.py:202-403 | no short-form step raises a pipeline error of its own; every step but `animate_segments` leaves the state unchanged when it raises, and that step leaves exactly the plans its clip call wrote |
| PipelineRunner.ShortFormFailureState | v2/pipeline/pipeline_runner.py:194-199 | a failed short-form run names the first step that raised and carries the state reached before it, with the clip call's written plans when the clip step raised |
| PipelineRunner.UpdateSection | v2/pipeline/pipeline_runner.py:516 | only the addressed section is replaced; the section count and cumulative script are kept, and an index out of range changes nothing |
| PipelineRunner.ScriptBody | v2/pipeline/pipeline_runner.py:521-538 | the section script is written against the cumulative script so far, which then grows by the new script and one space |
| PipelineRunner.SectionAudioBody | v2/pipeline/pipeline_runner.py:555-575 | the section script is voiced and the section's raw segment texts aligned against its words, all stored into that section only |
| PipelineRunner.SectionPlanBody | v2/pipeline/pipeline_runner.py:578-588 | section planning succeeds exactly when every section timing is plannable, storing the plans into that section; otherwise nothing changes |
| PipelineRunner.SectionClipsBody | v2/pipeline/pipeline_runner.py:634-672 | the clip source follows the video-generation flag; on success the section's clip paths are the non-null clips in plan order; when the clip call raises, only that section's plans change, to the plans the call wrote |
| PipelineRunner.SectionAssembleBody | v2/pipeline/pipeline_runner.py:675-689 | the section is rendered from its plans and audio to its own output path, and only its video path is set |
| PipelineRunner.FinalBody | v2/pipeline/pipeline_runner.py:692-709 | the full script is the stripped cumulative script whether or not the concatenation fails; the final video is the concatenation of the non-null section videos |
| PipelineRunner.SectionVideos | v2/pipeline/pipeline_runner.py:697-701 | there are never more section videos than sections |
| PipelineRunner.SectionsFrom | v2/pipeline/pipeline_runner.py:516-689 | each section contributes exactly eight guarded steps |
| PipelineRunner.SectionNamesPrefixed | v2/pipeline/pipeline_runner.py:538-689 | every failure name of section i begins with `section_{i}_` |
| PipelineRunner.StructureCreatesSections | v2/pipeline/pipeline_runner.py:479-512 | once goal and structure succeed there is one fresh section per structure entry, in order, an empty cumulative script, and the two opening checkpoints |
| PipelineRunner.SectionStepsAtomic | v2/pipeline/pipeline_runner.py:516-689 | every section step but `animate` leaves the state unchanged when it raises; a raising `animate` changes only section i's plans, so earlier sections survive a later failure |
| Steps.Names | v2/pipeline/pipeline_runner.py:194-199 | one failure name per step, in step order |
| Steps.ProgressFrom | v2/pipeline/pipeline_runner.py:194-199 | the number of steps returning before the first raise: every earlier step returned and the step there, if any, did not |
| Steps.Progress | v2/pipeline/pipeline_runner.py:194-199 | as `ProgressFrom`, counted from the first step |
| Steps.RunStepsSpec | v2/pipeline/pipeline_runner.py:194-199 | a run completes exactly when every step returns, and otherwise ends as the first raising step's error with the checkpoints written before it |
| Steps.RunAtSpec | v2/pipeline/pipeline_runner.py:194-199 | the run from any reached step matches the reference ending |
| Steps.CompletedReachesEnd | v2/pipeline/pipeline_runner.py:194-199 | a completed run's state is the state after all steps and its log holds every success checkpoint |
| Steps.FailureNamesRaisingStep | v2/pipeline/pipeline_runner.py:194-199 | a failure names a step that raised, carries its partial state, and ends its log with that step's `FAILED_` checkpoint |
| Steps.KeptToEnd | v2/pipeline/pipeline_runner.py:194-199 | a property that holds after some step and that every later step keeps holds of a completed run's final state |
| Steps.KeptFrom | v2/pipeline/pipeline_runner.py:194-199 | such a property holds of every later state reached |
| Steps.EstablishedBy | v2/pipeline/pipeline_runner.py:194-199 | a property one step establishes and later steps keep holds at the end of a completed run |
| Steps.CompletedPassesStep | v2/pipeline/pipeline_runner.py:194-199 | a completed run reached and passed every step |
| Steps.AtomicFailureKeepsState | v2/pipeline/pipeline_runner.py:194-199 | with atomic steps a failure carries exactly the state reached before the failing step |
| Steps.FailureKeepsStateExcept | v2/pipeline/pipeline_runner.py:194-199 | when every step but one is atomic, a failure names the first raising step and carries the state that step raised with, which is the state reached before it unless it is the exempt step |
| Steps.CallAll | v2/pipeline/image_generator.py:254-314 | a gathered fan-out succeeds exactly when every call does, with the results in item order, and otherwise reports the first failing call's error |
| Steps.CheckpointsOfPrefix | v2/pipeline/pipeline_runner.py:194-199 | the checkpoints of the first k steps do not depend on the steps after them |
| Steps.CheckpointsOfAppend | v2/pipeline/pipeline_runner.py:194-199 | the checkpoints of two step lists run one after the other are the first list's followed by the second's |
| Steps.RunThen | v2/pipeline/pipeline_runner.py:516-709 | a run in two phases fails as the first phase when it fails; otherwise it ends as the second phase on the reached state, with the two checkpoint logs joined |
| RunnerV2.ReviseLoop | v2/pipeline/pipeline_runner_v2.py:228-236 | the loop never lowers the counter and never takes it past two; it settles only on a passing report or a spent budget, with the last evaluated draft's report; a draft that already passed, or a spent budget, is kept untouched |
| RunnerV2.GateBound | v2/pipeline/pipeline_runner_v2.py:228 | from a fresh gate at most two revisions are made |
| RunnerV2.LastRevisionKept | v2/pipeline/pipeline_runner_v2.py:228-236 | when both revisions fail the judge, the second revision and its failing report are kept, not the original or the best-scoring draft |
| RunnerV2.BeatDurationMs | v2/pipeline/pipeline_runner_v2.py:699-701 | a beat without a timing asks for the default shot length; a timed beat asks for its duration in milliseconds truncated toward zero |
| RunnerV2.BeatRequests | v2/pipeline/pipeline_runner_v2.py:697-708 | one request per beat, carrying that beat's text, intent, type and energy and its own timed length |
| RunnerV2.SegmentRequests | v2/pipeline/pipeline_runner_v2.py:979-990 | one request per section segment, as a default setup beat whose intent quotes the segment's first 60 characters |
| RunnerV2.UntimedBeatsDefault | v2/pipeline/pipeline_runner_v2.py:699-701 | beats past the last timing ask for the same length as a default shot |
| RunnerV2.PlansFromStoryboard | v2/pipeline/pipeline_runner_v2.py:730-751 | one plan per storyboard entry, in entry order |
| RunnerV2.StoryboardPlans | v2/pipeline/pipeline_runner_v2.py:736-750 | each plan's index is its position, its image count equals its prompt count and its shot count, the prompts are the shots' in order without the logo, and its last image lasts as long as the last shot or 3 s without shots |
| RunnerV2.DefaultShotMatchesFallback | v2/pipeline/pipeline_runner_v2.py:739 | a last shot at its default length gives the same last-image length as the no-shot fallback |
| RunnerV2.EvaluateBody | v2/pipeline/pipeline_runner_v2.py:223-225 | the judge's report is stored exactly when there is a draft and the judge returns, and nothing changes otherwise |
| RunnerV2.GateBody | v2/pipeline/pipeline_runner_v2.py:227-242 | a gate that returns leaves a passing report or a spent budget, with the report being the judge's verdict on the kept draft; only the draft, report and counter change |
| RunnerV2.TtsTexts | v2/pipeline/pipeline_runner_v2.py:259 | one voiced text per beat, the beat's tagged text |
| RunnerV2.AudioBody | v2/pipeline/pipeline_runner_v2.py:245-269 | the beats' tagged texts are voiced joined by spaces and aligned beat by beat to the returned words; on failure nothing changes |
| RunnerV2.StoryboardBody | v2/pipeline/pipeline_runner_v2.py:276-278 | the storyboard is asked for with every beat and its timed length and stored on success only |
| RunnerV2.ImagesBody | v2/pipeline/pipeline_runner_v2.py:286-298 | only the plans change; the storyboard's plans stay even when image generation then fails, and on success they are the image service's result |
| RunnerV2.ClipsBody | v2/pipeline/pipeline_runner_v2.py:316-351 | the clip source follows the video-generation flag, with base images exactly when the first plan has images; success exactly when the call raises nothing, with the clip paths the plans' non-null clips; a raise keeps the plans the call wrote |
| RunnerV2.AssembleBody | v2/pipeline/pipeline_runner_v2.py:353-370 | a run with no clip raises; success changes only the final video, which is then set |
| RunnerV2.ShortFormV2Order | v2/pipeline/pipeline_runner_v2.py:195-370 | the phases fail under the source's phase names in the source's order, and research appears exactly when it is enabled |
| RunnerV2.ShortFormV2NeverPropagates | v2/pipeline/pipeline_runner_v2.py:189-193 | no phase raises a pipeline error of its own |
| RunnerV2.VisualQaNonFatal | v2/pipeline/pipeline_runner_v2.py:301-309 | the visual QA step of the image phase, right after the `sf2_after_images` checkpoint, always returns the state unchanged and writes the `sf2_after_visual_qa` checkpoint |
| RunnerV2.ShortFormV2Checkpoints | v2/pipeline/pipeline_runner_v2.py:208-366 | a completed short-form run writes exactly the source's checkpoints in order: research when enabled, then script, quality gate, audio, storyboard, images, visual QA, clips and completion |
| RunnerV2.StepLabels | v2/pipeline/pipeline_runner_v2.py:208-366 | the short-form step list labels those checkpoints, with research first exactly when it is enabled |
| RunnerV2.MainLabels | v2/pipeline/pipeline_runner_v2.py:221-366 | the phases after research label the eight checkpoints from script to completion |
| RunnerV2.GateStepSettles | v2/pipeline/pipeline_runner_v2.py:228-238 | a gate step that returns leaves a passing report or a spent budget |
| RunnerV2.AfterGateKeepsReport | v2/pipeline/pipeline_runner_v2.py:245-370 | every phase after the gate that returns keeps a passing report or a spent budget |
| RunnerV2.ShortFormV2GateSettles | v2/pipeline/pipeline_runner_v2.py:217-242 | a completed short-form run ends with a passing report or two revisions made |
| RunnerV2.ForEach | v2/pipeline/pipeline_runner_v2.py:1080-1082 | the fan-out hands back one section per section it was given, whether it completes or stops |
| RunnerV2.ForEachSpec | v2/pipeline/pipeline_runner_v2.py:1080-1082 | a completed fan-out ran every task once on its own section and stored each result at its index; a stopped one names a task that raised, all earlier tasks succeeded and later sections are untouched |
| RunnerV2.SectionsPhase | v2/pipeline/pipeline_runner_v2.py:506-515 | a per-section phase returns exactly when its fan-out completes, and keeps the sections as the fan-out left them either way |
| RunnerV2.SectionsPhaseSpec | v2/pipeline/pipeline_runner_v2.py:1080-1082 | a per-section phase succeeds exactly when every section's task does, and each section then holds its own task's result |
| RunnerV2.EvaluateOutlineBody | v2/pipeline/pipeline_runner_v2.py:453-455 | the review is stored exactly when there is an outline and the judge returns |
| RunnerV2.SectionsOf | v2/pipeline/pipeline_runner_v2.py:470-473 | one fresh section per outline section, in outline order |
| RunnerV2.OutlineGateBody | v2/pipeline/pipeline_runner_v2.py:457-481 | a returning outline gate leaves a passing review or a spent budget, and the sections are exactly those of the final outline; the counter never exceeds two |
| RunnerV2.ConnectorPass | v2/pipeline/pipeline_runner_v2.py:882-884 | the pass keeps the number of sections |
| RunnerV2.ConnectorPassSpec | v2/pipeline/pipeline_runner_v2.py:882-884 | smoothed text i replaces only section i's script, sections without a text keep theirs, and texts beyond the last section make no difference |
| RunnerV2.WriteSequential | v2/pipeline/pipeline_runner_v2.py:886-923 | the sequential writer keeps the number of sections |
| RunnerV2.BatonPrefix | v2/pipeline/pipeline_runner_v2.py:923 | the baton up to section k depends only on the scripts of the sections before k |
| RunnerV2.WriteSequentialBaton | v2/pipeline/pipeline_runner_v2.py:894-923 | when every section is written, section k was written with the earlier sections' scripts, each followed by a space, as its context, and holds the writer's result |
| RunnerV2.WrittenScripts | v2/pipeline/pipeline_runner_v2.py:497-499 | exactly the present, non-empty section scripts, none of them empty and never more than the sections |
| RunnerV2.ScriptWritingBody | v2/pipeline/pipeline_runner_v2.py:485-504 | the section count, outline and counter are kept; on success the full script is the space-join of the non-empty section scripts, on failure it is unchanged |
| RunnerV2.SectionAudio | v2/pipeline/pipeline_runner_v2.py:929-961 | a section without a script is skipped; otherwise it succeeds exactly when voicing and segmenting do, storing audio, words, segments and their alignment, and a failed segmentation keeps the audio already stored |
| RunnerV2.SectionStoryboard | v2/pipeline/pipeline_runner_v2.py:978-1027 | a section without segments is skipped; otherwise its plans become the converted storyboard, and a failure leaves it unchanged |
| RunnerV2.VisualPlanningBody | v2/pipeline/pipeline_runner_v2.py:517-529 | a failed style guide fails the phase with nothing changed; otherwise the phase succeeds exactly when every section's storyboard does |
| RunnerV2.SectionImages | v2/pipeline/pipeline_runner_v2.py:1036-1046 | a section without plans is skipped; otherwise it succeeds exactly when image generation does and only its plans change |
| RunnerV2.SectionClips | v2/pipeline/pipeline_runner_v2.py:1051-1082 | a section without plans is skipped; otherwise the clip source follows the flag, success happens exactly when the call raises nothing and takes the returned plans, and a failure breaks with the section holding the plans the call wrote |
| RunnerV2.SectionAssemble | v2/pipeline/pipeline_runner_v2.py:1087-1098 | only a section with plans and audio is rendered, and only its video path changes |
| RunnerV2.SectionVideosV2 | v2/pipeline/pipeline_runner_v2.py:562-566 | never more section videos than sections |
| RunnerV2.ConcatBody | v2/pipeline/pipeline_runner_v2.py:561-570 | the final video is the concatenation of the non-null section videos, set on success only |
| RunnerV2.LongFormV2Order | v2/pipeline/pipeline_runner_v2.py:430-574 | the long-form phases fail under the source's names in the source's order, with research first exactly when enabled |
| RunnerV2.LongFormV2GateSettles | v2/pipeline/pipeline_runner_v2.py:447-481 | a completed long-form run ends with a passing review or two revisions, and one section per section of the final outline |
| Ugc.UgcDefaults | v2/core/ugc_models.py:157-252 | the form's 30-second target lies within the declared 15 to 120 seconds; zoompan and enhancement are the defaults; a scene lasts 3 s and a reference 30 s by default; a fresh state has no product description, clips or video |
| Ugc.EnhanceBody | v2/pipeline/ugc_pipeline.py:237-247 | the enhancer is called only with enhancement on; otherwise the script itself is stored as the enhanced script |
| Ugc.AudioBody | v2/pipeline/ugc_pipeline.py:263-282 | the track chosen by the enhancement flag is voiced, and audio, words and the aligned timings are stored together or not at all |
| Ugc.SceneRequest | v2/pipeline/ugc_pipeline.py:300-310 | the scene planner gets every segment's raw text and every timing's duration, in order, and the product's visual description |
| Ugc.ImagePrompts | v2/pipeline/ugc_pipeline.py:327 | one image prompt per scene, in scene order |
| Ugc.ApiRequests | v2/pipeline/ugc_pipeline.py:410-428 | one request per scene with its motion prompt, a duration within 3 to 10 seconds, and that scene's image as the base exactly when one exists at its index |
| Ugc.ApiDurationTracksScene | v2/pipeline/ugc_pipeline.py:419 | a scene of 3 to 11 seconds asks for its whole seconds: never more than the scene, short of it by under a second |
| Ugc.ApiClips | v2/pipeline/ugc_pipeline.py:398-435 | the step succeeds exactly when every scene's request does; the clip paths are then the returned clips in scene order and nothing else changes, and a failure changes nothing |
| Ugc.ZoompanCount | v2/pipeline/ugc_pipeline.py:451-453 | the loop animates as many scenes as the shorter of the scene and image lists |
| Ugc.ZoompanJobs | v2/pipeline/ugc_pipeline.py:451-471 | one job per animated scene, in scene order |
| Ugc.ZoompanShots | v2/pipeline/ugc_pipeline.py:459-468 | every zoompan clip is a single shot of its scene's image for the whole scene duration, with the motion cycling through the four styles by scene index |
| Ugc.JobOutputs | v2/pipeline/ugc_pipeline.py:455-457 | the clip paths are the job outputs, in job order |
| Ugc.ZoompanClips | v2/pipeline/ugc_pipeline.py:437-475 | the step succeeds exactly when every job does, and then only the clip paths change, to the job outputs |
| Ugc.ClipsBody | v2/pipeline/ugc_pipeline.py:343-357 | the video API runs exactly when the mode is `video_gen`; any other mode uses zoompan |
| Ugc.UgcPlans | v2/pipeline/ugc_pipeline.py:364-374 | one plan per clip, in clip order |
| Ugc.ClipPathsOfClipped | v2/pipeline/ugc_pipeline.py:364-374 | plans that each carry their clip give back exactly the clip list |
| Ugc.UgcPlansRoundTrip | v2/pipeline/ugc_pipeline.py:364-374 | reading the clips back out of the built plans gives the clip list; each plan holds one image, present exactly when a scene image exists at its index |
| Ugc.AssembleBody | v2/pipeline/ugc_pipeline.py:360-389 | the plans are stored even when assembly fails; with no clips the step raises; it succeeds exactly when the end-buffered, subtitle-free render of the clips does, and then a final video is set |
| Ugc.UgcOrder | v2/pipeline/ugc_pipeline.py:175-389 | the steps fail under the source's names in the source's order, with reference analysis first exactly when reference videos were uploaded |
| Ugc.UgcStepsAtomicBeforeAssembly | v2/pipeline/ugc_pipeline.py:168-357 | no step raises a pipeline error of its own, and every step before assembly changes nothing when it raises |
| Ugc.AssemblyFailureKeepsPlans | v2/pipeline/ugc_pipeline.py:360-389 | a run failing at assembly still reports the plans built from its clips |
| Ugc.UgcCompletedHasVideo | v2/pipeline/ugc_pipeline.py:360-392 | a completed run has a final video, at least one clip, and plans carrying exactly its clips |
| Ebook.EbookDefaults | v2/core/ebook_models.py:40-200 | the default chapter count, 8, lies within the declared 3 to 20; PDF only and no subtitle by default; a fresh chapter and a fresh run have nothing generated |
| Ebook.Titles | v2/pipeline/ebook_pipeline.py:183 | one title per chapter, each the chapter outline's title |
| Ebook.Summaries | v2/pipeline/ebook_pipeline.py:247 | one summary per chapter, each that chapter's raw summary |
| Ebook.OutlineBody | v2/pipeline/ebook_pipeline.py:149-176 | on success the outline is stored with one fresh chapter per outline chapter, in order, and nothing else changes; on failure nothing changes |
| Ebook.ChapterBody | v2/pipeline/ebook_pipeline.py:211-242 | writing chapter k stores only that chapter's raw sections and summary; the chapter count never changes and a failure changes nothing |
| Ebook.ChapterSteps | v2/pipeline/ebook_pipeline.py:211-242 | one step per chapter, named `write_chapter_{k+1}` and checkpointing `after_chapter_{k+1}` |
| Ebook.BatonPass | v2/pipeline/ebook_pipeline.py:209-236 | the first chapter is written with an empty previous summary, and each later chapter with exactly the summary returned for the chapter before it |
| Ebook.EditRequestFor | v2/pipeline/ebook_pipeline.py:274-295 | chapter i's edit request has its title and raw sections and the summaries of its neighbours, empty at either end |
| Ebook.EditRequests | v2/pipeline/ebook_pipeline.py:273-296 | one edit request per chapter, in chapter order |
| Ebook.WithEdits | v2/pipeline/ebook_pipeline.py:298-299 | edited section list i lands on chapter i and changes nothing else |
| Ebook.EditBody | v2/pipeline/ebook_pipeline.py:268-305 | editing succeeds exactly when every chapter's edit does, and then each chapter holds its own edit and nothing else changes; a failure changes nothing |
| Ebook.IndicesWhere | v2/pipeline/ebook_pipeline.py:422-426 | exactly the positions where the predicate holds, in increasing order |
| Ebook.Payloads | v2/pipeline/ebook_pipeline.py:428-436 | one description request per candidate chapter, in candidate order |
| Ebook.PositionOf | v2/pipeline/ebook_pipeline.py:462 | the first position of a chapter among the kept chapters, or the list length when absent |
| Ebook.AssignByPosition | v2/pipeline/ebook_pipeline.py:462-464 | the assignment keeps the number of chapters |
| Ebook.AssignLoop | v2/pipeline/ebook_pipeline.py:462-464 | the loop keeps the number of chapters |
| Ebook.AssignTurn | v2/pipeline/ebook_pipeline.py:462-464 | one turn of the loop followed by the rest equals the loop from that turn |
| Ebook.AssignLoopByPosition | v2/pipeline/ebook_pipeline.py:462-464 | with kept chapters in increasing order, the loop from any turn leaves each chapter as the position rule says |
| Ebook.AssignLoopMatches | v2/pipeline/ebook_pipeline.py:462-464 | the source's loop and the by-position assignment agree on every input with increasing kept chapters |
| Ebook.KeptPositions | v2/pipeline/ebook_pipeline.py:450-454 | exactly the positions of the non-empty descriptions, in increasing order |
| Ebook.Kept | v2/pipeline/ebook_pipeline.py:450-454 | the kept chapters are the candidates whose description came back non-empty, still in chapter order |
| Ebook.KeptDescriptions | v2/pipeline/ebook_pipeline.py:450-454 | the descriptions sent for images are the non-empty ones, the m-th belonging to the m-th kept chapter |
| Ebook.SectionImagesBody | v2/pipeline/ebook_pipeline.py:406-464 | only chapters change; a failed description or image call fails the step with nothing changed; no non-empty description means no change; otherwise the m-th kept chapter takes image m |
| Ebook.AssignmentByRank | v2/pipeline/ebook_pipeline.py:456-464 | a chapter takes image m only as the m-th kept chapter when at least m + 1 images came back; chapters not kept are unchanged |
| Ebook.CoverImageBody | v2/pipeline/ebook_pipeline.py:335-342 | the cover is the first path returned, and none is set when the service returns no path |
| Ebook.RenderBody | v2/pipeline/ebook_pipeline.py:356-364 | a format not requested is never rendered; a requested one stores its file or fails with nothing changed |
| Ebook.EbookOrder | v2/pipeline/ebook_pipeline.py:158-370 | the phases fail under the source's names in the source's order, one chapter step per chapter, with the image phase exactly when images are on |
| Ebook.BodyKeepsChapterCount | v2/pipeline/ebook_pipeline.py:205-370 | after the outline phase no step changes the chapter count or raises a pipeline error of its own |
| Ebook.BodyKeepsNoDocx | v2/pipeline/ebook_pipeline.py:205-370 | no step after the outline creates a DOCX file when none was requested |
| Ebook.UnrequestedFormatNotRendered | v2/pipeline/ebook_pipeline.py:362-364 | a completed run without DOCX requested has no DOCX file |
| EbookFormatter.KeepTitleChars | v2/pipeline/ebook_formatter.py:580 | for a given `str.isalnum` table, the result holds only alphanumerics, spaces, underscores and hyphens, exactly the allowed characters of the title, and an allowed title is kept whole |
| EbookFormatter.SafeTitle | v2/pipeline/ebook_formatter.py:580 | for a given `str.isalnum` table, the safe title is the first at most 50 kept characters, all of them allowed, and the whole filtered title when that fits |
| EbookFormatter.SafeTitleIdempotent | v2/pipeline/ebook_formatter.py:580 | sanitising a safe title changes nothing, and a title already within the rules is kept whole |
| EbookFormatter.LastComponent | v2/pipeline/ebook_formatter.py:115 | the text after the last slash: slash-free, a tail of the path, and preceded by a slash unless it is the whole path |
| EbookFormatter.BaseName | v2/pipeline/ebook_formatter.py:115 | `Path.name` is slash-free, never ".", and when non-empty a whole slash-separated component of the path |
| EbookFormatter.SliceOfPrefix | v2/pipeline/ebook_formatter.py:115 | a component of the path before a slash is a component of the whole path |
| EbookFormatter.BaseNameIgnoresTrailing | v2/pipeline/ebook_formatter.py:115 | a trailing slash or "/." does not change the name, as pathlib drops them |
| EbookFormatter.BaseNameOfComponent | v2/pipeline/ebook_formatter.py:115 | a last component that is neither empty nor "." is the name |
| EbookFormatter.LastComponentOf | v2/pipeline/ebook_formatter.py:115 | a slash-free text after a directory ending in a slash is the last component |
| EbookFormatter.RFind | v2/pipeline/ebook_formatter.py:115 | the last occurrence of the character, or -1 exactly when it does not occur |
| EbookFormatter.Suffix | v2/pipeline/ebook_formatter.py:115 | a suffix is empty or a dot followed by at least one character, with no further dot or slash |
| EbookFormatter.NameSuffix | v2/pipeline/ebook_formatter.py:115 | the suffix of a file name has the same shape |
| EbookFormatter.SuffixIgnoresTrailingSlash | v2/pipeline/ebook_formatter.py:115-122 | a trailing slash or "/." does not change the suffix, so it does not change the MIME type either |
| EbookFormatter.MimeOf | v2/pipeline/ebook_formatter.py:116-123 | the type is one of the four image types; both JPEG suffixes map to JPEG, and any unknown suffix to PNG |
| EbookFormatter.DataUriReadBack | v2/pipeline/ebook_formatter.py:126 | the URI reads back: the MIME type sits between `data:` and `;base64,` and the payload is everything after |
| EbookFormatter.ImageToDataUri | v2/pipeline/ebook_formatter.py:106-128 | no path or an unreadable file gives no URI; otherwise the URI of the file's base64 bytes typed by its lower-cased suffix |
| EbookFormatter.FirstUri | v2/pipeline/ebook_formatter.py:604-610 | there is a chapter image exactly when some path yields a URI, and it is the URI of the first such path |
| EbookFormatter.RenderedPositions | v2/pipeline/ebook_formatter.py:598-601 | exactly the chapters with edited or raw sections, in increasing order |
| EbookFormatter.ChapterViews | v2/pipeline/ebook_formatter.py:598-624 | one view per rendered chapter, numbered by its position among all chapters plus one, with its title, its non-empty sections and its first usable image |
| EbookFormatter.ChapterNumbering | v2/pipeline/ebook_formatter.py:598-624 | a chapter is rendered exactly when it has sections, and then under its own position plus one, even after skipped chapters |
| EbookFormatter.DocxImages | v2/pipeline/ebook_formatter.py:770-778 | the DOCX embeds the chapter images whose files exist, in list order and as often as listed: the paths at exactly the existing positions, in increasing order; a path is embedded exactly when it is listed and exists |
| EbookFormatter.DocxImagesFrom | v2/pipeline/ebook_formatter.py:770-778 | the image loop from position i on yields `paths` read at the positions from i on whose file exists, in increasing order |
| EbookFormatter.DocxImagesMembers | v2/pipeline/ebook_formatter.py:770-778 | the paths at the existing positions are exactly the listed paths whose file exists |
| EbookFormatter.BookTitle | v2/pipeline/ebook_formatter.py:628 | the outline's title when there is an outline, the configured title otherwise |
| EbookFormatter.BookSubtitle | v2/pipeline/ebook_formatter.py:629 | the outline's subtitle when there is an outline, the configured one otherwise |
| EbookFormatter.CollapsedNonBlank | v2/pipeline/ebook_formatter.py:783-786 | the pieces are, in order, the collapsed parts at exactly the positions whose collapsed text is non-empty; each piece is non-empty and already collapsed |
| EbookFormatter.CollapsedNonBlankFrom | v2/pipeline/ebook_formatter.py:783-786 | the paragraph loop from part i on yields the collapsed parts at the positions from i on that are not blank, in order |
| EbookFormatter.BlankPieces | v2/pipeline/ebook_formatter.py:783-786 | parts that are all whitespace give no paragraph |
| EbookFormatter.Paragraphs | v2/pipeline/ebook_formatter.py:753-756 | the paragraphs are, in order, the whitespace-collapsed pieces of the text split on blank lines, for exactly the pieces that are not blank; each is non-empty, single-spaced and trimmed, and blank text gives none |
| EbookFormatter.CollapseIdempotent | v2/pipeline/ebook_formatter.py:754 | collapsing whitespace twice is collapsing once |
| EbookFormatter.SplitWsOfJoin | v2/pipeline/ebook_formatter.py:754 | splitting single-spaced whitespace-free words gives the words back |
| Retry.SleepAfter | v2/services/video_service.py:138-139 | a failed first or second try sleeps 2 s or 4 s; the last sleeps not at all |
| Retry.Pow2 | v2/services/video_service.py:139 | powers of two are positive |
| Retry.RetryFrom | v2/services/video_service.py:99-139 | from any try on, the loop ends at a try that won or raised a fatal error, or after the third try with that try's retried error, every try before the end having been retried and the sleeps matching the tries |
| Retry.RunRetry | v2/services/video_service.py:98-144 | at most three tries; the loop ends at the first try that is not retried, or gives up after the third with its error, having slept 2 s and 4 s between tries only |
| Retry.ExhaustedIff | v2/services/image_service.py:107-136 | the loop gives up exactly when all three tries fail with a retried error, and otherwise stops right after the first try that is not retried |
| VideoService.VideoTry | v2/services/video_service.py:100-133 | an unknown provider and a provider's own `ValueError` end the loop; a missing or empty output and any other error are retried; a try succeeds exactly when it wrote a non-empty file |
| VideoService.GenerateVideo | v2/services/video_service.py:69-144 | an unknown provider fails at once with a `ValueError`; success returns the output path after a try that wrote it; every earlier try was retried; a `RuntimeError` comes only after three tries |
| VideoService.VideoSucceedsIff | v2/services/video_service.py:99-128 | the call succeeds exactly when some try within three writes a non-empty file and every earlier try failed in a retried way |
| VideoService.SuccessHasGoodTry | v2/services/video_service.py:121-126 | a successful call ended on a try that wrote a non-empty file, after retried tries only |
| VideoService.NoSuccessNoGoodTry | v2/services/video_service.py:130-131 | when the call fails, every good try within three came after a try that was not retried |
| VideoService.ClassifiesVideo | v2/services/video_service.py:121-133 | for a known provider the loop's classification of every try agrees with the reference predicates |
| VideoService.VideoGivesUpIff | v2/services/video_service.py:141-144 | the call gives up with a `RuntimeError` exactly when all three tries are retried, carrying the third try's error in the message |
| VideoService.VideoRatio | v2/services/video_service.py:183 | portrait in any letter case gives 9:16 and every other orientation 16:9 |
| VideoService.RunwayRequest | v2/services/video_service.py:183-196 | the duration is the requested one capped at 10 s; the ratio follows the orientation; the base image is sent exactly when given and present |
| ImageService.ImageTry | v2/services/image_service.py:108-129 | no error ends the loop early, the unknown provider included; a try succeeds exactly when a known provider returned non-empty bytes |
| ImageService.GenerateSingle | v2/services/image_service.py:96-136 | success comes from a known provider's try that returned bytes; failure only after all three tries and both sleeps; an unknown provider fails after three tries with its message |
| ImageService.SingleSucceedsIff | v2/services/image_service.py:107-126 | an image succeeds exactly when the provider is known and some try within three returns bytes |
| ImageService.GenerateImages | v2/services/image_service.py:65-94 | the call succeeds exactly when every image does, returning one path per description in description order; a failure carries some failed image's error |
| ImageService.ImagesFrom | v2/services/image_service.py:88-94 | the paths from any position on are returned in order when all succeed; otherwise the error is that of an image that failed |
| ImageService.GoogleAspect | v2/services/image_service.py:143 | landscape in any letter case is 16:9, anything else 9:16 |
| ImageService.OpenAiSize | v2/services/image_service.py:159 | landscape in any letter case is 1536x1024, anything else 1024x1536 |
| ImageService.FluxSize | v2/services/image_service.py:184-185 | portrait in any letter case is 1088 by 1920, anything else 1920 by 1088 |
| ImageService.OrientationAgreement | v2/services/image_service.py:143-185 | every provider frames portrait tall and landscape wide; Google and OpenAI always agree, Flux and the video ratio always agree, and any other orientation is tall for the first two but wide for the others |
| LegacyContent.PyIndex | short_form_content.py:392-393 | Python list indexing: defined exactly for -len <= i < len, a non-negative index reads that element and a negative one counts back from the end; any other index is the IndexError |
| LegacyContent.TimeSegment | short_form_content.py:380-403 | one segment: defined exactly when its first and last character indices are in range; it spans from its first character's start time to the start of the character two past its last when one exists, its duration is end minus start, and the cursor moves one past its last character or wraps to 0 |
| LegacyContent.TimingsFrom | short_form_content.py:377-404 | from any segment on, a successful loop yields one duration and one span per remaining segment, each duration being its span's end minus start |
| LegacyContent.ScriptTimings | short_form_content.py:375-406 | no segments give empty lists; otherwise a success holds one duration and one span per segment and every duration is its span's length |
| LegacyContent.OffsetMono | short_form_content.py:380-389 | the first-character position of segments, counting one separator after each, never decreases along the script |
| LegacyContent.OffsetBounds | short_form_content.py:380-403 | on a narration that covers the segments, every segment's first character and every later segment's start lie inside the character array |
| LegacyContent.ScriptTimingsTile | short_form_content.py:375-406 | when the narration covers the non-empty segments and their separators, no index is out of range, segment i starts at the start time of its own first character, and each segment ends exactly where the next begins |
| LegacyContent.StepTile | short_form_content.py:380-403 | on a covered narration one iteration from the right cursor times the segment from its first character to the next segment's, and leaves the cursor one before the next segment's first character |
| LegacyContent.TimingsFromTile | short_form_content.py:377-404 | the inductive form of the tiling: from segment k on, every span runs from that segment's first character to the next one's |
| LegacyContent.Lengths | short_form_content.py:385-386 | one length per text, each the text's character count |
| LegacyContent.OffsetOfJoin | short_form_content.py:380-389 | the first character of segment i sits where the first i texts joined by single separators end, plus the separator |
| LegacyContent.JoinedNarrationCovered | short_form_content.py:375-403 | a narration that is the non-empty segments joined by single spaces covers them, so the tiling applies to it |
| LegacyContent.SegmentLengths | short_form_content.py:385-386 | one length per segment: the audio-enhanced text's length when enhancement was on, the raw text's otherwise |
| LegacyContent.ComputeScriptSegmentTimings | short_form_content.py:350-406 | a success has one duration and one span per segment with every duration the span's length, and when the voiced texts cover the narration it succeeds and consecutive segments meet with no gap |
| LegacyContent.ComputeSectionScriptTimings | long_form_content.py:455-507 | succeeds exactly when every section's timing does; then one result per section, each with one entry per segment and equal to the short-form loop run on that section's own start times from cursor 0 over the raw segment lengths |
| LegacyContent.SectionsFrom | long_form_content.py:455-502 | from any section on, succeeds exactly when each remaining section's timing does and then returns those timings in section order |
| LegacyContent.WriteSectionsFrom | long_form_content.py:284-306 | from section k on, keeps the scripts already written, writes each later section given the concatenation of all earlier ones, and keeps the whole script equal to the concatenation |
| LegacyContent.GenerateLongScript | long_form_content.py:281-308 | one script per section, each written from the concatenation of the sections before it, and the whole script is their concatenation with no separator |
| LegacyContent.LengthAndImageCount | short_form_content.py:409-463 | the first-generation planner copy (the long-form one, long_form_content.py:510-565, differs only in layout and print formatting) gives exactly the split the v2 planner gives, for every input it is defined on |
| LegacyContent.SegmentImagePlans | short_form_content.py:476-483 | succeeds exactly when there is a duration for every segment; then one split per segment whose full images plus last image add up to the segment's duration, with at least one image, and a single image when the segment is no longer than the ideal |
| LegacyContent.LastDurations | short_form_content.py:482-483 | one recorded last-image duration per segment, that segment's split's last image |
| LegacyContent.SectionImagePlans | long_form_content.py:578-626 | succeeds exactly when every non-empty section has a duration list long enough for its segments; then one plan list per section, each that section's own plan |
| LegacyContent.SectionPlan | long_form_content.py:585-592 | one section: defined exactly when it is empty or its durations cover its segments; then one split per segment adding up to that segment's duration |
| LegacyContent.PlansFrom | long_form_content.py:578-622 | from any section on, succeeds exactly when every remaining section's plan does and returns those plans in order |
| LegacyContent.MotionJobs | short_form_content.py:621-650 | succeeds exactly when there is a last-image duration per segment; then segment j is animated from its images, its output, the ideal and its last duration, with the pattern starting at the number of images before it modulo 2 |
| LegacyContent.MotionJobsFrom | short_form_content.py:636-647 | from segment k on with the running start equal to the images before k, every job carries its segment's data and its global pattern start |
| LegacyContent.LegacyPatternKnown | short_form_content.py:626-628 | both entries of the zoom-in/zoom-out pattern are motions the animator accepts, wherever the schedule starts |
| LegacyContent.MotionJobsAlternate | short_form_content.py:621-650 | every scheduled job animates without error, one shot per image, and each image zooms in exactly when the number of images before it across the whole video is even |
| LegacyContent.SectionMotionJobs | long_form_content.py:720-760 | succeeds exactly when every non-empty section has enough last-image durations; then each section is scheduled as its own short-form run |
| LegacyContent.SectionJobs | long_form_content.py:727-748 | one section: defined exactly when it is empty or has enough last durations; then one job per segment, the pattern restarted at 0, identical to the short-form schedule of that section |
| LegacyContent.SectionJobsFrom | long_form_content.py:720-760 | from any section on, succeeds exactly when each remaining section's schedule does and returns them in order |
| LegacyClips.FirstFalsy | shortformvideo.py:124-126 | the position found is the first falsy required field from the start point, every field before it being truthy, or the end when all are |
| LegacyClips.CheckRequired | shortformvideo.py:119-126 | no error exactly when every required field is truthy; otherwise the MissingDataError message names the first falsy field and the action |
| LegacyClips.Guarded | shortformvideo.py:119-145 | a method with any falsy required field raises MissingDataError; with all fields set its outcome is its body's |
| LegacyClips.GuardPrecedesCall | shortformvideo.py:124-128 | when a required field is missing the outcome is the same whatever the model call would have done, since the guard raises before the call |
| LegacyClips.RequiredFieldsNest | shortformvideo.py:119-202 | the goal's required fields are among the hook's, and the hook's among the talking points' |
| LegacyClips.PreviousScript | shortformvideo.py:462-468 | a previous-script context, when given, is the script just before the clip |
| LegacyClips.NextScript | shortformvideo.py:463-471 | a next-script context, when given, is the script just after the clip |
| LegacyClips.CreateClipsWith | shortformvideo.py:448-480 | an empty script list raises and changes nothing; otherwise the existing clips are kept and one clip per segment with an enhanced text is appended, numbered on from the counter; it fails exactly when enhanced texts run out, with the counter one ahead of the clips appended |
| LegacyClips.ClipsFrom | shortformvideo.py:461-479 | the loop from any segment on keeps the clips already there, appends one numbered clip per remaining segment until the enhanced texts run out, and fails exactly when they do |
| LegacyClips.IntendedContext | shortformvideo.py:461-471 | with the neighbour guards corrected every clip gets the previous segment's script exactly when it is not the first and the next one's exactly when it is not the last |
| LegacyClips.AsWrittenDropsNeighbours | shortformvideo.py:468-471 | on three segments the guards as written give the middle clip neither neighbour's script although both exist |
| LegacyClips.TimeClip | shortformvideo.py:593-620 | defined exactly when the clip's first and last character indices are in range; the clip starts at its first character, its duration runs to its last character's start, its end is moved on to the next character's start when there is one, and the cursor becomes the last index (as written) or the next first index (corrected) |
| LegacyClips.TimesFrom | shortformvideo.py:591-620 | a successful loop from any clip on gives every remaining clip a timing and changes nothing else about it |
| LegacyClips.MissingTiming | shortformvideo.py:571-578 | no error exactly when the character, start-time and end-time arrays are all present and non-empty |
| LegacyClips.AssignTimesWith | shortformvideo.py:560-631 | a success keeps the clips in order and only sets their timings; a missing or empty character array raises MissingDataError naming it |
| LegacyClips.PrefixMono | shortformvideo.py:593-598 | the first-character position of clips laid back to back never decreases |
| LegacyClips.Lens | shortformvideo.py:595 | one length per clip, that of the text it was voiced from |
| LegacyClips.StepExpected | shortformvideo.py:593-620 | one step from the expected cursor times the clip from its first to its last character, its end moved on to the next clip's start, and leaves the cursor expected for the next clip |
| LegacyClips.TimesFromCons | shortformvideo.py:591-620 | the loop times the current clip and then continues from the cursor that step leaves |
| LegacyClips.TimesFromExpected | shortformvideo.py:591-620 | from the expected cursor every remaining clip is timed as expected |
| LegacyClips.ConsExpected | shortformvideo.py:591-620 | a clip timed as expected ahead of clips timed as expected gives clips timed as expected from its position |
| LegacyClips.TimesExpected | shortformvideo.py:589-620 | from cursor 0 every clip of a narration that holds them back to back, with a first clip of at least two characters, is timed as expected |
| LegacyClips.ExpectedContiguous | shortformvideo.py:613-618 | each expected timing ends exactly where the next clip's starts |
| LegacyClips.AssignTimesTile | shortformvideo.py:560-631 | with the arrays set, the clips back to back in the narration and a first clip of two or more characters, assignment succeeds, each clip spans its own characters, and consecutive clips meet |
| LegacyClips.OneCharFirstClipRestarts | shortformvideo.py:593-620 | a one-character first clip leaves the cursor at 0, so the second clip is timed from the first character again |
| LegacyClips.NextStartTiles | shortformvideo.py:591-620 | keeping the next clip's first index as the cursor times every clip of a fitting narration in place, whatever the first clip's length |
| LegacyClips.Narration | shortformvideo.py:595 | one voiced text per clip, the enhanced one when enhancement was used |
| LegacyClips.PrefixOfConcat | shortformvideo.py:593-598 | clip i starts where the texts before it end in their separator-free join |
| LegacyClips.JoinedNarrationFits | shortformvideo.py:589-598 | when the narration is the separator-free join of non-empty voiced texts, the clips fit it |
| LegacyClips.RetryLoop | shortformvideo.py:802-832 | the method runs between 1 and max times; a raise carries the last call's message and is early only for a missing-data error; a breaking loop that finishes ended on a success, and every earlier call failed without a missing-data error |
| LegacyClips.LoopFrom | shortformvideo.py:802-821 | the same bounds from any iteration on; a non-breaking loop that finishes had a successful last call |
| LegacyClips.BreakingLoopIff | shortformvideo.py:802-811 | a loop with break finishes exactly when some call within the retries succeeds after only ordinary failures |
| LegacyClips.HookLoopDiscardsSuccess | shortformvideo.py:813-821 | a hook loop whose first two calls succeed and whose third times out raises, where a breaking loop would have finished after one call |
| LegacyClips.ScriptPhases | shortformvideo.py:834-857 | the script stage is a retried loop with break, for either method, and nothing for another value |
| LegacyClips.AudioPhases | shortformvideo.py:870-882 | the audio stage's methods are each called once |
| LegacyClips.MergePhases | shortformvideo.py:900-905 | the merge stage's methods are each called once |
| LegacyClips.VideoPhasesWith | shortformvideo.py:791-905 | at least six phases, the goal loop first and the hook loop second, and every loop other than the hook and base-description loops breaks |
| LegacyClips.PhaseEnd | shortformvideo.py:870-905 | a phase called once makes exactly one call and finishes exactly when it succeeds |
| LegacyClips.RunPhases | shortformvideo.py:791-907 | phases run in order; the run finishes exactly when every phase does, and otherwise stops at the first phase that raises, with its message, every phase before it having finished |
| LegacyClips.OncePhasesIff | shortformvideo.py:870-905 | phases that are each called once finish together exactly when every first call succeeds |
| LegacyClips.FirstInvalid | shortformvideo.py:920-923 | the position found is the first clip without a truthy path, all earlier ones having one |
| LegacyClips.ValidateClips | shortformvideo.py:911-924 | fails exactly when there are no clips, with its message; otherwise the flag holds exactly when every clip's animated path is truthy |
| LegacyClips.AnimatedPaths | shortformvideo.py:920-921 | one animated path per clip, in clip order |
| LegacyClips.MergeAllClips | shortformvideo.py:768-780 | proceeds exactly when there are clips and every animated path is truthy, with those paths in clip order |
| LegacyClips.IdsWhere | shortformvideo.py:963-967 | no more ids than clips |
| LegacyClips.ClipsSummary | shortformvideo.py:960-968 | the valid list holds, in order, the ids of clips whose path is truthy and names a file, the invalid list the rest, and together they have one id per clip |
| LegacyClips.SummaryFrom | shortformvideo.py:963-967 | from any clip on, the lists so far are extended by the valid and invalid ids of the remaining clips |
| LegacyClips.SummaryPartitions | shortformvideo.py:960-968 | every clip's id lands in exactly one of the two lists |
| LegacyClips.IdsOf | shortformvideo.py:963-967 | one id per clip |
| LegacyClips.PartitionIds | shortformvideo.py:963-967 | the ids with and without playable files together are all the clips' ids, counted with multiplicity |
| LegacyVideo.GenerateTopics | video.py:52-80 | an empty theme raises its message before any call; a failed call raises the fixed message; otherwise the decoded reply's topics, or none when the key is absent; it succeeds exactly when the theme is set and the reply decodes |
| LegacyVideo.MakeClip | video.py:124-136 | the clip takes the given id and the item's integer duration, the item's voice script or the default one, and its base image description or the empty text, with no animated path yet |
| LegacyVideo.Scripts | video.py:139 | one voice script per clip, in order |
| LegacyVideo.ExtendsRefl | video.py:116-139 | a state extends itself with nothing appended |
| LegacyVideo.ExtendsStep | video.py:124-139 | appending one clip numbered on from the counter, bumping the counter and adding its voice script to the running script keeps the state an extension of the base |
| LegacyVideo.ExtendsTrans | video.py:120-139 | extending an extension is an extension of the original, the extra counter bump carried along |
| LegacyVideo.JoinConcat | video.py:139 | joining scripts with no separator distributes over concatenation of the lists |
| LegacyVideo.ItemsFrom | video.py:122-139 | the item loop never removes clips, and its only possible error is a rejected duration |
| LegacyVideo.ItemsFromExtends | video.py:122-139 | the item loop appends clips numbered on from the counter, grows the running script by exactly their voice scripts, and leaves the counter one ahead when a duration is rejected |
| LegacyVideo.FirstUnconvertible | video.py:128 | the position found is the first item without an integer duration, all earlier ones having one, or the end |
| LegacyVideo.ItemsFromStops | video.py:122-128 | the loop appends one clip per item up to the first item without an integer duration and fails exactly when there is such an item |
| LegacyVideo.ItemsFromAppends | video.py:122-138 | the clips the item loop appends are exactly the clips built from the items before the first rejected duration |
| LegacyVideo.ItemClipsAt | video.py:124-136 | the t-th appended clip is built from item j + t, which has an integer duration, and is numbered count + 1 + t |
| LegacyVideo.ItemsFromBuilds | video.py:122-138 | the t-th clip an item loop appends is built from the t-th item it reads, numbered on from the counter |
| LegacyVideo.Push | video.py:124-138 | one more clip built from the item, numbered one past the counter, with the counter bumped |
| LegacyVideo.ItemsFromUnfold | video.py:122-139 | an item with an integer duration is appended and the loop continues from the next item |
| LegacyVideo.TopicsFrom | video.py:120-139 | the topic loop extends the state and never reports missing topics; a topic whose clip data fails raises its cause with the state as the loop found it |
| LegacyVideo.GenerateClips | video.py:116-139 | no topics raises before anything changes; a failing first topic leaves the state unchanged; otherwise the clips are appended numbered on and the running script grows by exactly their voice scripts |
| LegacyVideo.FreshIdsMatchPositions | video.py:116-139 | from a fresh object clip i has id i + 1, the running script is the join of the clips' voice scripts, and the counter equals the number of clips unless a duration was rejected |
| LegacyVideo.ReDoWith | video.py:250-265 | an id above the counter or below the lower bound raises; a clip is acted on only when the action is known and the index is in range, and for a positive id it is the clip at id - 1; an unknown action in range does nothing |
| LegacyVideo.ReDoZeroHitsLastClip | video.py:252-255 | id 0 passes the range check as written and acts on the last clip, whose id is 2 |
| LegacyVideo.ReDoTargetsNamedClip | video.py:252-265 | with the lower bound at 1 and clips numbered in order, the action runs exactly when the id names a clip, and on the clip with that id |
| LegacyVideo.MergeAllClips | video.py:194-199 | fails exactly when the stored flag is false; otherwise the clips' animated paths in clip order |
| LegacyVideo.Paths | video.py:199 | one animated path per clip, in order |
| LegacyVideo.ValidateThenMerge | video.py:182-199 | validation right before merging lets the merge proceed exactly when every clip has a truthy animated path |
| LegacyVideo.StaleFlagPassesUnrendered | video.py:194-199 | a flag left from an earlier validation lets a clip with no animated path through the merge guard |
| LegacyVideo.FinalVideoPath | video.py:209-212 | returns the path exactly when it is non-empty, and raises otherwise |
| LegacyVideo.GenerateVideoIff | video.py:214-247 | the run completes exactly when every step succeeds on its single call |
| LegacyUtils.DescriptionsOf | utils.py:61-62 | a single description is wrapped into a one-element list; a list is kept |
| LegacyUtils.PathsOf | utils.py:63-64 | a single Path is wrapped into a one-element list, a list is kept, and a plain string, which the isinstance check does not wrap, is indexed one character at a time |
| LegacyUtils.GenerateImage | utils.py:60-95 | raises its fixed ValueError exactly when the wrapped lists differ in length; otherwise, for google or openai, one request per path, image i prompted from description i and written to path i; any other provider requests nothing |
| LegacyUtils.ImageShapeFollowsOrientation | utils.py:70-95 | google requests use the Imagen client and openai requests the OpenAI one, each with the given prompt and target, and the shape is wide exactly when the orientation is "landscape" |
| LegacyUtils.SingleArgumentsPair | utils.py:61-67 | a single description and a single Path always pair up; a single description and a plain-string path pair up only when the string is one character long |
| LegacyUtils.PatternOf | utils.py:243-244 | a single style name is wrapped into a one-element pattern; a list is kept |
| LegacyUtils.OutputSize | utils.py:248 | the frame is 1080x1920 exactly when the orientation is "portrait" |
| LegacyUtils.AnimateWithMotionEffect | utils.py:231-371 | succeeds exactly when the pipeline's motion schedule of the wrapped paths and pattern does, with those shots and the frame size of the orientation; otherwise with the schedule's error |
| LegacyUtils.DefaultStyleSchedules | utils.py:236-267 | with the default single ken_burns style every image is scheduled, each with that style |
| LegacyUtils.ScheduledLengthMatchesExpected | utils.py:261-366 | with distinct paths the shots add up to the expected length the source reports: all but one image at the ideal duration and one at the last duration |
| LegacyUtils.FenceStart | beta_version/old_utils.py:23-24 | removes nothing unless the text starts with the opening json fence; then at least the fence and only whitespace after it |
| LegacyUtils.FenceEnd | beta_version/old_utils.py:23-24 | removes nothing unless the text ends with a closing fence outside the removed opening one; then the fence and only whitespace before it |
| LegacyUtils.ExtractJsonFromFence | beta_version/old_utils.py:23-24 | the stripped text between the removed opening and closing fences; text with neither fence is just stripped |
| LegacyUtils.StripTight | beta_version/old_utils.py:24 | text that neither starts nor ends with whitespace is unchanged by stripping |
| LegacyUtils.FenceRoundTrip | beta_version/old_utils.py:23-24 | a body wrapped in an opening json fence and a closing fence, each on its own line, comes back unchanged |
| LegacyUtils.UnfencedIsFixed | beta_version/old_utils.py:23-24 | a reply with no surrounding whitespace and no fences is returned unchanged |
| LegacyUtils.ChosenModel | beta_version/old_utils.py:73-74 | the given model when it is present and non-empty, otherwise the provider's default |
| LegacyUtils.InvokeLlm | beta_version/old_utils.py:71-121 | DeepSeek makes no call and answers the empty text; OpenAI, Anthropic and Gemini call their own client with the chosen model and return its reply; xAI calls its client with no model |
| LegacyUtils.DefaultModelUsed | beta_version/old_utils.py:14-74 | without a model the provider's default is used, and that default is non-empty for the providers that pass a model on |
| Stores.Find | v2/core/database.py:84-86 | a row is returned exactly when some row has that id, and the data returned is that row's |
| Stores.FindAt | v2/core/database.py:84-86 | in an id-ordered table the lookup of a row's id returns that row's data |
| Stores.NewId | v2/core/database.py:70-76 | the id given to a new row is above every id in an ordered table |
| Stores.Appended | v2/core/database.py:70-76 | adding a row under the new id keeps the table ordered, makes the row retrievable under that id, and leaves every other id's row as it was |
| Stores.FindSnocOther | v2/core/database.py:84-86 | adding a row under another id does not change what an id finds |
| Stores.Remove | v2/core/database.py:107 | no more rows than before, none with the deleted id, and each one from the table |
| Stores.Removed | v2/core/database.py:102-109 | deleting keeps the order, makes the id unfindable, and leaves every other id's row as it was |
| Stores.RemovedOrdered | v2/core/database.py:107 | deleting a row keeps the table in id order |
| Stores.RemovedKeeps | v2/core/database.py:107 | deleting one id does not change what any other id finds |
| Stores.Replace | v2/core/database.py:94-97 | same number of rows; the row with the id carries the new data and every other row is unchanged |
| Stores.Replaced | v2/core/database.py:89-99 | after a rewrite the id finds the new data when it was present, and every other id finds what it found before |
| Stores.CommitProfile | v2/core/database.py:35 | the commit goes through exactly when the name is set and no other row already uses it |
| Stores.CreateProfile | v2/core/database.py:70-76 | an argument that is not a column is rejected; a success appends one row under the new id whose columns are the arguments or NULL, and it succeeds exactly when every argument is a column and the name is given and unused |
| Stores.CreatedProfileRetrievable | v2/core/database.py:70-86 | a created profile is retrievable under its id with every argument's value |
| Stores.Updated | v2/core/database.py:94-96 | every column is the argument's value when the rule writes it (always in the first generation, only when truthy in the second), else the previous value |
| Stores.UpdateProfileWith | v2/core/database.py:89-99 | an unknown id returns None and changes nothing; otherwise the rewritten row is committed exactly when the name constraints hold, with the table and the new row returned, or the constraint's error |
| Stores.UpdateVisible | v2/core/database.py:89-99 | after a successful update the id finds the updated data and every other id finds what it did before |
| Stores.UpdateRulesDiffer | crud.py:18-19 | the first generation writes every argument as given; the second writes only truthy ones and keeps the previous value otherwise |
| Stores.ClearingNameDiffers | crud.py:13-22 | clearing the name of a stored profile is rejected by the first generation's NOT NULL constraint and ignored by the second |
| Stores.Delete | v2/core/database.py:102-109 | True exactly when the id exists, with exactly that row removed; False leaves the table unchanged |
| Stores.SaveVideoRecord | v2/core/database.py:115-121 | succeeds exactly when every non-nullable column is given; then one row is appended under the new id, its creation time the given one or now, with the given topic and path |
| Stores.Insert | v2/core/database.py:126 | the list gains exactly the one row |
| Stores.InsertSorted | v2/core/database.py:126 | inserting into a newest-first list keeps it newest first |
| Stores.GetAllVideos | v2/core/database.py:124-126 | every row exactly once |
| Stores.GetAllVideosNewestFirst | v2/core/database.py:124-126 | the rows come newest first, all of them |
| V2Models.DefaultsValid | v2/core/v2_models.py:135-231 | the defaults the records fill in (beat type setup and energy 5, storyboard energy 5, a 3000 ms zoom-in shot at medium speed with a cut, a 120-second context section that is building) lie within the declared bounds, and the minimum image duration is positive and below the ideal |
| RunnerV2.GateReadsOnlyPassed | v2/pipeline/pipeline_runner_v2.py:228-233 | the gate returns the state unchanged exactly when the report's `passed` field is set or two revisions were made, whatever the scores say; otherwise it counts one more revision, and a failed revision raises with the count already raised |
| Config.OutputSize | v2/core/config.py:51-52 | both dimensions are positive and the frame is taller than wide exactly for portrait |
| Config.OverscaleSize | v2/core/config.py:53-54 | the zoompan input is exactly twice the output frame in each dimension |
| Config.Keys | v2/core/config.py:142 | one key per entry, in insertion order |
| Config.Lookup | v2/core/config.py:130-140 | a value is found exactly when the key is present, and it is stored under that key |
| Config.VoiceActorNamesResolve | v2/core/config.py:130-142 | nine voice names are listed, and every one resolves to a voice id |
| Config.ProvidersAgree | v2/core/config.py:152-166 | a provider has a default model exactly when it has a LangChain provider string |
| Config.DefaultPatternOffered | v2/core/config.py:172-173 | the default alternation is non-empty and uses only offered motion patterns |
| Config.ImageDurationsOrdered | v2/core/config.py:56-57 | the minimum image duration is positive and below the ideal |
| Media.ClipPaths | v2/pipeline/video_assembler.py:51 | no more clip paths than plans |
| Media.ClipPathsExact | v2/pipeline/video_assembler.py:51 | the clip paths are exactly the plans' non-null paths: one per plan with a clip, empty exactly when no plan has one, and each a path of some plan |
| PyNum.Trunc | v2/pipeline/image_generator.py:362 | int() on a float truncates toward zero: the result is within one of the input, at or below it for non-negative inputs and at or above it for negative ones |
| PyNum.DivMod | v2/pipeline/audio_generator.py:141 | the floored quotient times the divisor plus the remainder is the dividend, and the remainder lies between 0 and the divisor, on the divisor's side |
| PyNum.FloorBound | v2/pipeline/audio_generator.py:141 | the remainder left by the floored quotient lies between 0 and the divisor, on the divisor's side |
| PyNum.Mod | v2/pipeline/image_generator.py:500 | the remainder is below the modulus and equals the input when that is already below it |
| PyNum.ModOfSum | v2/pipeline/image_generator.py:295-571 | reducing the start index first does not change the pattern position of a later image |
| PyText.Strip | v2/pipeline/ebook_formatter.py:103 | the stripped text is a slice of the input that neither starts nor ends with whitespace, with only whitespace outside it, and is empty exactly when the input is blank |
| PyText.StripIdempotent | v2/pipeline/ebook_formatter.py:103 | stripping twice is stripping once |
| PyText.SplitOn | v2/pipeline/ebook_formatter.py:753 | splitting on a non-empty separator gives at least one piece, no piece contains the separator, and joining the pieces back with it restores the text |
| PyText.CollapseSpaces | v2/pipeline/ebook_formatter.py:754 | whitespace runs become single interior spaces: the result is empty exactly when the text is blank and has no leading, trailing or repeated whitespace |
| PyFormat.Digits | v2/pipeline/video_assembler.py:267 | the decimal digits of a number: at least one, all digits, a single one exactly below 10 |
| PyFormat.DigitsValue | v2/pipeline/video_assembler.py:267 | reading the digits back gives the number |
| PyFormat.FormatInt | v2/pipeline/video_assembler.py:267 | a non-negative number is its digits zero-filled to the width; a negative one is a minus sign and the digits filled to one less |
| PyFormat.FormatIntRoundTrip | v2/pipeline/video_assembler.py:267 | a number that fits the width is rendered exactly that wide, all digits, and reads back as the number |

## Left out

- The Streamlit UI, the prompt texts and the LLM, TTS, image and video clients are left out. They appear only as parameters whose results the model consumes.
- FFmpeg, MoviePy, WeasyPrint and python-docx rendering are left out, including the concat and re-encode of `assemble_long_form`. The model covers the file lists, cue texts and durations handed to them, not the media they produce.
- `asyncio` TaskGroup and `gather` fan-outs run sequentially in item order, and the first failure in that order is the one reported. The source may surface any failing task, or an ExceptionGroup wrapping several.
- uuids, timestamps and the current time are parameters: they come from the operating system.
- The SQLite column lengths, an explicit `id` keyword, and the order of history rows with equal `created_at` are left out. `get_all_profiles` returns the table in the order the store holds it.
- ai_models.py is not part of this model.
- Unknown keyword arguments to the v2 `update_profile` are set as attributes by the source but never persisted. They are left out.
- Times and durations are mathematical reals. Python float rounding is left out.
- Whitespace for `strip` and `split` is the ASCII set plus `\x85` and `\xa0`. Python's other Unicode spaces are left out.
- Saving history records at the end of a run is left out of the runners. It is a database write after the pipeline result is fixed.
- Checkpoint file writes are abstract. The model records which labelled checkpoint each step reaches, not the JSON written.
- Dynamic checkpoint labels such as `sf2_revision_{n}` inside the revise loop are left out. Each phase is one labelled group of steps.
- Progress callbacks and logging are left out. They do not influence results.
- Visual QA in the second-generation short-form run only gathers the image prompts and paths and logs their count (pipeline_runner_v2.py:753-775). It calls no service, so the model's step returns its state and writes the `sf2_after_visual_qa` checkpoint.
- `compute_images_per_segment` is imported by the UGC pipeline but never called there, and the v2 storyboard conversion does not call it either. No lemma ties it to those pipelines.
- The `_strip_markdown` regular expressions are left out. The formatter's input is taken after markdown stripping.
- The `Clip` constructor call whose arguments do not match its signature in the first-generation code is left out. The model builds clips from the fields the callers use.
- LegacyVideo.MakeClip: the item fields are strings or absent. A JSON null or a non-string value is not modelled: for `voice_script` the source appends the clip and then raises TypeError at video.py:139, and a null `base_image_description` or `voice_presence` is kept as None.
- `re_do_clip_action` in `ShortFormVideo` is `pass` in the source; only the `Video` version is modelled.
- When `assign_times` raises IndexError, the clips already updated keep their times. The model returns no result for that case instead of the partially updated clips.
- Stores.InsertSorted: the SQL `ORDER BY created_at` is modelled on the time values alone. The datetime minimum used for rows without a timestamp is dropped.
- ElevenLabs.AlignSegments: follows the code as written, so its fallback timings may run past the end of the audio (see Findings). The capped `ElevenLabs.AlignSegmentsCapped` is stated beside it; the pipelines use the code as written.
- The default values of the v2 state records (revision count 0, a 600 s target duration, "parallel" section strategy) are not a member of their own. A run is modelled from the state it is given.
- errors.py (the exception class hierarchy) is not part of this model. Failures are a step name and a message.
- `generate_video_clips` starts its tasks together and writes each plan's clip as its task finishes. The model takes them in plan order: the plans before the first refused request carry their clips. Which later tasks finish before the error cancels the group depends on timing and is left out.
- PyText.Lower: lower-cases ASCII letters only, where Python's `str.lower` follows the Unicode tables. It is applied to file suffixes and orientation names, which end up compared with ASCII words (".jpg", "portrait", "landscape" and the like). The one non-ASCII character Python lowers to a single ASCII letter is the Kelvin sign, to k, and none of those words contains k, so the comparisons agree with Python's. The fuzzy search's `str.lower` is part of its ratio parameter instead.
- EbookFormatter.KeepTitleChars: Python's `str.isalnum` table is a parameter, not written out.

## Findings

| source | as written | input that shows it | evidently intended | confidence | as-written member | corrected member |
|---|---|---|---|---|---|---|
| shortformvideo.py:468-471 | the previous segment is used only when `index - 1 > 0`, and the next only when `index + 1 < len - 1` | three segments: the middle clip (index 1) gets neither neighbour | use a neighbour whenever it exists (`index > 0`, `index + 1 < len`) | not executed | LegacyClips.AsWrittenDropsNeighbours | LegacyClips.IntendedContext |
| video.py:252-255 | the range check accepts clip id 0, and the lookup uses index `id - 1` | two clips numbered 1 and 2, id 0: index -1 acts on the last clip, whose id is 2 | ids 1..len only, and exactly the named clip is redone | not executed | LegacyVideo.ReDoZeroHitsLastClip | LegacyVideo.ReDoTargetsNamedClip |
| shortformvideo.py:813-821 | the hook retry loop has no `break`, so it keeps calling after a success and raises if the last attempt times out | attempts succeed, succeed, time out: the loop raises | stop at the first success; fail only when every attempt fails | not executed | LegacyClips.HookLoopDiscardsSuccess | LegacyClips.BreakingLoopIff |
| shortformvideo.py:593-620 | the next clip starts after the current clip's end index, but an end index of 0 (a one-character first clip) is read as "no clip yet" | a first clip of one character: the second clip is timed from character 0 again | each clip starts right after the previous one ends | not executed | LegacyClips.OneCharFirstClipRestarts | LegacyClips.NextStartTiles |
| v2/services/elevenlabs_service.py:250-262 | the proportional fallback scales by segment length over transcript length, which can exceed 1, and does not clamp the end time | words "hi" ending at 1.0 s, segment "zzzzzz": timing 0.0–3.0 s, past the end of the audio | the fallback timing stays inside the audio | not executed | ElevenLabs.FallbackOvershoots | ElevenLabs.FallbackStaysInsideAudio |
| v2/pipeline/image_generator.py:494-498 | the last image is recognised by its path, so an earlier copy of the same path also gets the last duration | paths ["a.jpg", "a.jpg"], ideal 3 s, last 5 s: 10 s scheduled where 8 s is expected | only the last position gets the last duration (the two rules agree when the last path is distinct) | not executed | ImageGenerator.DuplicateLastPathOverruns | ImageGenerator.RulesAgreeOnDistinctLast |

/** The first-generation short-form video object (`ShortFormVideo`): the
    required-field guard every generation method starts with, clip creation
    from the script list, clip timing over the narration's character start
    times, the per-phase retry loops of `generate_video`, and the clip
    inspection helpers it shares with the topic-based `Video` object. */
module LegacyClips {
  import opened Wrappers
  import opened PyText
  import LegacyContent

  // ---------------------------------------------------------------------
  // Required fields
  // ---------------------------------------------------------------------

  /** The `MissingDataError` message for `field` in the method doing `action`. */
  function MissingMessage(field: string, action: string): string {
    "The data point " + field + " is missing and is required to " + action + "."
  }

  /** The first field at or after `i` whose value is falsy, or `|fields|`. */
  function FirstFalsy(fields: seq<string>, truthy: string -> bool, i: nat): (k: nat)
    requires i <= |fields|
    ensures i <= k <= |fields|
    ensures forall j :: i <= j < k ==> truthy(fields[j])
    ensures k < |fields| ==> !truthy(fields[k])
    decreases |fields| - i
  {
    if i == |fields| || !truthy(fields[i]) then i else FirstFalsy(fields, truthy, i + 1)
  }

  /** The guard loop: the first falsy required field raises
      `MissingDataError`; `truthy` gives each attribute's truthiness. */
  function CheckRequired(fields: seq<string>, truthy: string -> bool, action: string): (r: Option<string>)
    ensures r.None? <==> forall j :: 0 <= j < |fields| ==> truthy(fields[j])
    ensures r.Some? ==> exists k :: 0 <= k < |fields| && !truthy(fields[k])
                                    && (forall j :: 0 <= j < k ==> truthy(fields[j]))
                                    && r.value == MissingMessage(fields[k], action)
  {
    var k := FirstFalsy(fields, truthy, 0);
    if k < |fields| then Some(MissingMessage(fields[k], action)) else None
  }

  /** How one call of a generation method ends. */
  datatype StepTry = Ok | MissingData(message: string) | Failed(message: string)

  /** A generation method: its guard, then its body (the model call),
      which only runs when every required field is set. */
  function Guarded(fields: seq<string>, truthy: string -> bool, action: string, body: StepTry): (r: StepTry)
    ensures (exists j :: 0 <= j < |fields| && !truthy(fields[j])) ==> r.MissingData?
    ensures (forall j :: 0 <= j < |fields| ==> truthy(fields[j])) ==> r == body
  {
    var missing := CheckRequired(fields, truthy, action);
    if missing.Some? then MissingData(missing.value) else body
  }

  /** A missing field raises before the body: the outcome does not depend
      on what the body would have done. */
  lemma GuardPrecedesCall(fields: seq<string>, truthy: string -> bool, action: string, b1: StepTry, b2: StepTry)
    requires exists j :: 0 <= j < |fields| && !truthy(fields[j])
    ensures Guarded(fields, truthy, action, b1) == Guarded(fields, truthy, action, b2)
  {
  }

  const GoalFields: seq<string> := ["topic", "purpose", "target_audience"]
  const HookFields: seq<string> := ["topic", "purpose", "target_audience", "tone"]
  const TalkingPointFields: seq<string> :=
    ["topic", "purpose", "target_audience", "tone", "goal", "hook", "duration_seconds"]
  const ScriptFields: seq<string> := ["generated_talking_points"]
  const CreateClipsFields: seq<string> := ["script_list"]
  const VideoAudioFields: seq<string> := ["script_list", "audio_enhanced_script_list"]
  const TimingFields: seq<string> := [
    "one_shot_audio_voice_over_characters",
    "one_shot_audio_voice_over_start_times_seconds",
    "one_shot_audio_voice_over_end_times_seconds"]
  const ClipsFields: seq<string> := ["clips"]

  /** Each method's guard extends the previous one's. */
  lemma RequiredFieldsNest()
    ensures forall f :: f in GoalFields ==> f in HookFields
    ensures forall f :: f in HookFields ==> f in TalkingPointFields
  {
  }

  // ---------------------------------------------------------------------
  // Clips
  // ---------------------------------------------------------------------

  /** Where a clip sits in the narration: the character indices of its first
      and last characters and their times, and its duration. */
  datatype ClipTiming = ClipTiming(startIndex: int, endIndex: int, startTime: real, endTime: real, duration: real)

  /** One clip of the script: its id, its text, the texts either side of it
      given to the model as context, its timing once assigned, and the path
      of its animated video once rendered. */
  datatype ScriptClip = ScriptClip(
    id: int,
    previousScript: Option<string>,
    voiceScript: string,
    enhancedScript: string,
    nextScript: Option<string>,
    timing: Option<ClipTiming>,
    animatedPath: Option<string>)

  /** Which neighbour rule builds the context: the source's guards, or the
      rule they evidently mean (every clip but the first has a previous
      script, every clip but the last a next one). */
  datatype ContextRule = AsWritten | Intended

  function PreviousScript(rule: ContextRule, scripts: seq<string>, i: nat): (p: Option<string>)
    requires i < |scripts|
    ensures p.Some? ==> i >= 1 && p.value == scripts[i - 1]
  {
    match rule
    case AsWritten => if i - 1 > 0 then Some(scripts[i - 1]) else None
    case Intended => if i >= 1 then Some(scripts[i - 1]) else None
  }

  function NextScript(rule: ContextRule, scripts: seq<string>, i: nat): (p: Option<string>)
    requires i < |scripts|
    ensures p.Some? ==> i + 1 < |scripts| && p.value == scripts[i + 1]
  {
    match rule
    case AsWritten => if i + 1 < |scripts| - 1 then Some(scripts[i + 1]) else None
    case Intended => if i + 1 < |scripts| then Some(scripts[i + 1]) else None
  }

  /** The object's clip list and counter, and the error a method raised. */
  datatype ClipsRun = ClipsRun(clips: seq<ScriptClip>, count: int, error: Option<string>)

  /** The clip for segment `i`, numbered `id`. */
  function NewClip(rule: ContextRule, scripts: seq<string>, enhanced: seq<string>, i: nat, id: int): ScriptClip
    requires i < |scripts| && i < |enhanced|
  {
    ScriptClip(id, PreviousScript(rule, scripts, i), scripts[i], enhanced[i], NextScript(rule, scripts, i), None, None)
  }

  /** `create_clips`: an empty script list raises before anything changes;
      otherwise one clip per segment is appended, numbered on from the
      counter. The counter is bumped before each clip is built, so a missing
      enhanced text raises `IndexError` with the counter one ahead of the
      clips appended. */
  function CreateClipsWith(rule: ContextRule, clips: seq<ScriptClip>, count: int,
                           scripts: seq<string>, enhanced: seq<string>): (r: ClipsRun)
    ensures |scripts| == 0 ==>
      r == ClipsRun(clips, count, Some(MissingMessage("script_list", "create clips")))
    ensures |scripts| > 0 ==>
      var n := if |enhanced| < |scripts| then |enhanced| else |scripts|;
      |r.clips| == |clips| + n && r.clips[..|clips|] == clips
      && (var added := r.clips[|clips|..];
          forall i :: 0 <= i < n ==> added[i] == NewClip(rule, scripts, enhanced, i, count + 1 + i))
      && (r.error.None? <==> |scripts| <= |enhanced|)
      && r.count == count + n + (if r.error.Some? then 1 else 0)
  {
    if |scripts| == 0 then ClipsRun(clips, count, Some(MissingMessage("script_list", "create clips")))
    else ClipsFrom(rule, clips, count, scripts, enhanced, 0)
  }

  /** The loop from segment `i`, `clips` and `count` as it left them. */
  function ClipsFrom(rule: ContextRule, clips: seq<ScriptClip>, count: int,
                     scripts: seq<string>, enhanced: seq<string>, i: nat): (r: ClipsRun)
    requires i <= |scripts|
    ensures var n := (if |enhanced| < |scripts| then |enhanced| else |scripts|) - i;
      var m := if n < 0 then 0 else n;
      |r.clips| == |clips| + m && r.clips[..|clips|] == clips
      && (var added := r.clips[|clips|..];
          forall t :: 0 <= t < m ==> added[t] == NewClip(rule, scripts, enhanced, i + t, count + 1 + t))
      && (r.error.None? <==> |scripts| <= |enhanced| || i == |scripts|)
      && r.count == count + m + (if r.error.Some? then 1 else 0)
    decreases |scripts| - i
  {
    if i == |scripts| then ClipsRun(clips, count, None)
    else if i >= |enhanced| then ClipsRun(clips, count + 1, Some("IndexError: list index out of range"))
    else
      var c := NewClip(rule, scripts, enhanced, i, count + 1);
      var r := ClipsFrom(rule, clips + [c], count + 1, scripts, enhanced, i + 1);
      assert r.clips[..|clips|] == r.clips[..|clips| + 1][..|clips|];
      assert r.clips[|clips|..] == [c] + r.clips[|clips| + 1..];
      r
  }

  /** The source's `create_clips`. */
  function CreateClips(clips: seq<ScriptClip>, count: int, scripts: seq<string>, enhanced: seq<string>): ClipsRun {
    CreateClipsWith(AsWritten, clips, count, scripts, enhanced)
  }

  /** With the intended neighbour rule every clip sees exactly the segments
      next to it. */
  lemma IntendedContext(clips: seq<ScriptClip>, count: int, scripts: seq<string>, enhanced: seq<string>, i: nat)
    requires i < |scripts| <= |enhanced|
    ensures var c := CreateClipsWith(Intended, clips, count, scripts, enhanced).clips[|clips| + i];
      c.id == count + 1 + i
      && c.previousScript == (if i > 0 then Some(scripts[i - 1]) else None)
      && c.nextScript == (if i + 1 < |scripts| then Some(scripts[i + 1]) else None)
  {
    var r := CreateClipsWith(Intended, clips, count, scripts, enhanced);
    assert r.clips[|clips|..][i] == r.clips[|clips| + i];
  }

  /** As written, the second clip gets no previous script and the
      second-to-last no next one: on three segments the middle clip has no
      context on either side although both neighbours exist. */
  lemma AsWrittenDropsNeighbours()
    ensures var r := CreateClips([], 0, ["a", "b", "c"], ["a", "b", "c"]);
      |r.clips| == 3 && r.clips[1].previousScript == None && r.clips[1].nextScript == None
  {
    var r := CreateClips([], 0, ["a", "b", "c"], ["a", "b", "c"]);
    assert r.clips[0..][1] == NewClip(AsWritten, ["a", "b", "c"], ["a", "b", "c"], 1, 2);
  }

  // ---------------------------------------------------------------------
  // Clip timing
  // ---------------------------------------------------------------------

  /** Which cursor the timing loop keeps: the source's (the last character's
      index, a first character at index 0 being taken for "no clip yet") or
      the next clip's first character. */
  datatype CursorRule = LastIndex | NextStart

  /** The index of a clip's first character given the cursor. */
  function FirstIndex(rule: CursorRule, cursor: int): int {
    match rule
    case LastIndex => if cursor == 0 then 0 else cursor + 1
    case NextStart => cursor
  }

  /** The cursors a loop can hold: the source's may be -1 after an empty
      clip at the start, the corrected one never goes below 0. */
  predicate CursorOk(rule: CursorRule, cursor: int) {
    match rule
    case LastIndex => cursor >= -1
    case NextStart => cursor >= 0
  }

  /** One clip of `len` characters from `cursor`. The duration runs from the
      first character's start time to the last character's, and is taken
      before the end time is moved on to the next character's start. An
      index past the arrays is an `IndexError`; an index of -1 reads the last
      entry, as Python's indexing does. */
  function TimeClip(rule: CursorRule, starts: seq<real>, cursor: int, len: nat): (r: Option<(ClipTiming, int)>)
    requires CursorOk(rule, cursor)
    ensures var s := FirstIndex(rule, cursor);
            var e := s + len - 1;
            (r.Some? <==> s < |starts| && e < |starts|)
            && (r.Some? ==>
                  var last := if e >= 0 then starts[e] else starts[|starts| - 1];
                  r.value.0.startIndex == s && r.value.0.endIndex == e
                  && r.value.0.startTime == starts[s]
                  && r.value.0.duration == last - starts[s]
                  && r.value.0.endTime == (if e + 1 < |starts| then starts[e + 1] else last)
                  && r.value.1 == (match rule case LastIndex => e case NextStart => e + 1)
                  && CursorOk(rule, r.value.1))
  {
    var s := FirstIndex(rule, cursor);
    var e := s + len - 1;
    var first := LegacyContent.PyIndex(starts, s);
    var last := LegacyContent.PyIndex(starts, e);
    if first.None? || last.None? then None
    else
      var endTime := last.value + (if e + 1 < |starts| then starts[e + 1] - last.value else 0.0);
      Some((ClipTiming(s, e, first.value, endTime, last.value - first.value),
            match rule case LastIndex => e case NextStart => e + 1))
  }

  /** The length each clip has in the voiced text. */
  function VoicedLength(c: ScriptClip, enhanced: bool): nat {
    |Voiced(c, enhanced)|
  }

  /** The text a clip is voiced from. */
  function Voiced(c: ScriptClip, enhanced: bool): string {
    if enhanced then c.enhancedScript else c.voiceScript
  }

  /** The timing loop from clip `i` on; `None` is an `IndexError`. */
  function TimesFrom(rule: CursorRule, starts: seq<real>, clips: seq<ScriptClip>, enhanced: bool, i: nat, cursor: int)
    : (r: Option<seq<ScriptClip>>)
    requires i <= |clips| && CursorOk(rule, cursor)
    ensures r.Some? ==> |r.value| == |clips| - i
    ensures r.Some? ==> forall t :: 0 <= t < |clips| - i ==>
      r.value[t].timing.Some? && r.value[t] == clips[i + t].(timing := r.value[t].timing)
    decreases |clips| - i
  {
    if i == |clips| then Some([])
    else
      var step := TimeClip(rule, starts, cursor, VoicedLength(clips[i], enhanced));
      if step.None? then None
      else
        var rest := TimesFrom(rule, starts, clips, enhanced, i + 1, step.value.1);
        if rest.None? then None
        else
          var r := [clips[i].(timing := Some(step.value.0))] + rest.value;
          assert forall t :: 1 <= t < |clips| - i ==> r[t] == rest.value[t - 1];
          Some(r)
  }

  /** Whether all three character arrays are set (non-empty). */
  function TimingFieldSet(chars: Option<seq<char>>, starts: Option<seq<real>>, ends: Option<seq<real>>, field: string): bool {
    if field == TimingFields[0] then chars.Some? && |chars.value| > 0
    else if field == TimingFields[1] then starts.Some? && |starts.value| > 0
    else ends.Some? && |ends.value| > 0
  }

  /** The guard of `assign_start_and_end_times_to_clips`. */
  function MissingTiming(chars: Option<seq<char>>, starts: Option<seq<real>>, ends: Option<seq<real>>): (r: Option<string>)
    ensures r.None? <==> chars.Some? && |chars.value| > 0 && starts.Some? && |starts.value| > 0
                         && ends.Some? && |ends.value| > 0
  {
    var r := CheckRequired(TimingFields, (f: string) => TimingFieldSet(chars, starts, ends, f),
                           "assign start and end times to clips");
    assert r.None? <==> forall j :: 0 <= j < 3 ==> TimingFieldSet(chars, starts, ends, TimingFields[j]);
    r
  }

  /** `assign_start_and_end_times_to_clips`: the three character arrays must
      be present and non-empty, then every clip is timed in order. */
  function AssignTimesWith(rule: CursorRule, chars: Option<seq<char>>, starts: Option<seq<real>>, ends: Option<seq<real>>,
                           clips: seq<ScriptClip>, enhanced: bool): (r: Result<seq<ScriptClip>, string>)
    ensures r.Success? ==> starts.Some? && |r.value| == |clips|
    ensures r.Success? ==> forall i :: 0 <= i < |clips| ==>
      r.value[i].timing.Some? && r.value[i] == clips[i].(timing := r.value[i].timing)
    ensures chars.None? || chars == Some([]) ==>
      r == Failure(MissingMessage("one_shot_audio_voice_over_characters", "assign start and end times to clips"))
  {
    var missing := MissingTiming(chars, starts, ends);
    if missing.Some? then Failure(missing.value)
    else
      var timed := TimesFrom(rule, starts.value, clips, enhanced, 0, 0);
      if timed.None? then Failure("IndexError: list index out of range") else Success(timed.value)
  }

  function AssignTimes(chars: Option<seq<char>>, starts: Option<seq<real>>, ends: Option<seq<real>>,
                       clips: seq<ScriptClip>, enhanced: bool): Result<seq<ScriptClip>, string> {
    AssignTimesWith(LastIndex, chars, starts, ends, clips, enhanced)
  }

  /** Where clip `i` starts when the narration is the clips' texts with no
      separator. */
  function Prefix(lens: seq<nat>, i: nat): nat
    requires i <= |lens|
  {
    if i == 0 then 0 else Prefix(lens, i - 1) + lens[i - 1]
  }

  lemma {:induction false} PrefixMono(lens: seq<nat>, i: nat, j: nat)
    requires i <= j <= |lens|
    ensures Prefix(lens, i) <= Prefix(lens, j)
    decreases j - i
  {
    if i < j {
      PrefixMono(lens, i, j - 1);
    }
  }

  function Lens(clips: seq<ScriptClip>, enhanced: bool): (lens: seq<nat>)
    ensures |lens| == |clips|
    ensures forall i :: 0 <= i < |clips| ==> lens[i] == VoicedLength(clips[i], enhanced)
  {
    seq(|clips|, (i: int) requires 0 <= i < |clips| => VoicedLength(clips[i], enhanced))
  }

  /** Every clip is non-empty and the narration holds them all. */
  predicate Fits(starts: seq<real>, lens: seq<nat>) {
    (forall i :: 0 <= i < |lens| ==> lens[i] > 0) && Prefix(lens, |lens|) <= |starts|
  }

  /** The expected timing of clip `i` on a narration that holds the clips
      back to back: from its first character to its last, its end moved on
      to the next clip's first character when there is one. */
  function Expected(starts: seq<real>, lens: seq<nat>, i: nat): ClipTiming
    requires Fits(starts, lens) && i < |lens|
  {
    PrefixMono(lens, i + 1, |lens|);
    var s := Prefix(lens, i);
    var e := Prefix(lens, i + 1) - 1;
    ClipTiming(s, e, starts[s], if e + 1 < |starts| then starts[e + 1] else starts[e], starts[e] - starts[s])
  }

  /** The loop state that produces the expected timings: the source's cursor
      sits on the previous clip's last character, which must not be 0. */
  predicate CursorAt(rule: CursorRule, lens: seq<nat>, i: nat, cursor: int)
    requires i <= |lens|
  {
    match rule
    case LastIndex => if i == 0 then cursor == 0 else cursor == Prefix(lens, i) - 1 && cursor != 0
    case NextStart => cursor == Prefix(lens, i)
  }

  /** The first clip is long enough for the source's cursor: a cursor of 0
      after it would read as "no clip yet". */
  predicate FirstLongEnough(rule: CursorRule, lens: seq<nat>) {
    rule.LastIndex? ==> |lens| <= 1 || lens[0] >= 2
  }

  /** One step from a cursor in the expected place times the clip as
      expected and leaves the cursor in the expected place for the next. */
  lemma StepExpected(rule: CursorRule, starts: seq<real>, lens: seq<nat>, i: nat, cursor: int)
    requires Fits(starts, lens) && i < |lens| && FirstLongEnough(rule, lens)
    requires CursorOk(rule, cursor) && CursorAt(rule, lens, i, cursor)
    ensures TimeClip(rule, starts, cursor, lens[i]).Some?
    ensures TimeClip(rule, starts, cursor, lens[i]).value.0 == Expected(starts, lens, i)
    ensures i + 1 < |lens| ==> CursorAt(rule, lens, i + 1, TimeClip(rule, starts, cursor, lens[i]).value.1)
  {
    PrefixMono(lens, i + 1, |lens|);
    PrefixMono(lens, 1, i + 1);
    if i > 0 {
      PrefixMono(lens, 1, i);
    }
  }

  /** The loop's unfolding at a clip that is timed. */
  lemma TimesFromCons(rule: CursorRule, starts: seq<real>, clips: seq<ScriptClip>, enhanced: bool, i: nat, cursor: int)
    requires i < |clips| && CursorOk(rule, cursor)
    requires TimeClip(rule, starts, cursor, VoicedLength(clips[i], enhanced)).Some?
    ensures var step := TimeClip(rule, starts, cursor, VoicedLength(clips[i], enhanced)).value;
      var rest := TimesFrom(rule, starts, clips, enhanced, i + 1, step.1);
      TimesFrom(rule, starts, clips, enhanced, i, cursor)
        == if rest.None? then None else Some([clips[i].(timing := Some(step.0))] + rest.value)
  {
  }

  /** `xs` times clips `i` onwards as expected. */
  predicate TimedFrom(starts: seq<real>, lens: seq<nat>, i: nat, xs: seq<ScriptClip>)
    requires Fits(starts, lens)
  {
    i + |xs| == |lens| && forall t :: 0 <= t < |xs| ==> xs[t].timing == Some(Expected(starts, lens, i + t))
  }

  /** From a cursor in the expected place, every remaining clip is timed as
      expected. */
  lemma {:induction false} TimesFromExpected(rule: CursorRule, starts: seq<real>, clips: seq<ScriptClip>, enhanced: bool,
                                             lens: seq<nat>, i: nat, cursor: int)
    requires lens == Lens(clips, enhanced) && Fits(starts, lens) && FirstLongEnough(rule, lens)
    requires i <= |clips| && CursorOk(rule, cursor)
    requires i < |clips| ==> CursorAt(rule, lens, i, cursor)
    ensures TimesFrom(rule, starts, clips, enhanced, i, cursor).Some?
    ensures TimedFrom(starts, lens, i, TimesFrom(rule, starts, clips, enhanced, i, cursor).value)
    decreases |clips| - i
  {
    if i < |clips| {
      assert lens[i] == VoicedLength(clips[i], enhanced);
      StepExpected(rule, starts, lens, i, cursor);
      var step := TimeClip(rule, starts, cursor, lens[i]).value;
      TimesFromExpected(rule, starts, clips, enhanced, lens, i + 1, step.1);
      TimesFromCons(rule, starts, clips, enhanced, i, cursor);
      var rest := TimesFrom(rule, starts, clips, enhanced, i + 1, step.1).value;
      var head := clips[i].(timing := Some(step.0));
      assert TimesFrom(rule, starts, clips, enhanced, i, cursor) == Some([head] + rest);
      ConsExpected(starts, lens, i, head, rest);
    } else {
      assert TimesFrom(rule, starts, clips, enhanced, i, cursor) == Some([]);
    }
  }

  /** Prepending a clip timed as expected to clips timed as expected. */
  lemma ConsExpected(starts: seq<real>, lens: seq<nat>, i: nat, head: ScriptClip, rest: seq<ScriptClip>)
    requires Fits(starts, lens) && i < |lens|
    requires head.timing == Some(Expected(starts, lens, i))
    requires TimedFrom(starts, lens, i + 1, rest)
    ensures TimedFrom(starts, lens, i, [head] + rest)
  {
    var r := [head] + rest;
    forall t | 0 <= t < |r|
      ensures r[t].timing == Some(Expected(starts, lens, i + t))
    {
      if t > 0 {
        assert r[t] == rest[t - 1];
        assert i + 1 + (t - 1) == i + t;
      }
    }
  }

  /** From the start of the loop, every clip is timed as expected. */
  lemma TimesExpected(rule: CursorRule, starts: seq<real>, clips: seq<ScriptClip>, enhanced: bool, lens: seq<nat>)
    requires lens == Lens(clips, enhanced) && Fits(starts, lens) && FirstLongEnough(rule, lens)
    ensures TimesFrom(rule, starts, clips, enhanced, 0, 0).Some?
    ensures forall t :: 0 <= t < |clips| ==>
      TimesFrom(rule, starts, clips, enhanced, 0, 0).value[t].timing == Some(Expected(starts, lens, t))
  {
    TimesFromExpected(rule, starts, clips, enhanced, lens, 0, 0);
    var r := TimesFrom(rule, starts, clips, enhanced, 0, 0).value;
    assert TimedFrom(starts, lens, 0, r);
    forall t | 0 <= t < |clips|
      ensures r[t].timing == Some(Expected(starts, lens, t))
    {
      assert r[t].timing == Some(Expected(starts, lens, 0 + t));
    }
  }

  /** Consecutive expected timings meet. */
  lemma ExpectedContiguous(starts: seq<real>, lens: seq<nat>)
    requires Fits(starts, lens)
    ensures forall i :: 0 <= i < |lens| - 1 ==> Expected(starts, lens, i).endTime == Expected(starts, lens, i + 1).startTime
  {
    forall i | 0 <= i < |lens| - 1
      ensures Expected(starts, lens, i).endTime == Expected(starts, lens, i + 1).startTime
    {
      PrefixMono(lens, i + 2, |lens|);
    }
  }

  /** With the clips back to back in the narration (as the separator-free
      join of their texts gives) and a first clip of at least two
      characters, each clip is timed from its own first character to its
      last, and ends where the next clip starts. */
  lemma AssignTimesTile(chars: seq<char>, starts: seq<real>, ends: seq<real>, clips: seq<ScriptClip>, enhanced: bool)
    requires |chars| > 0 && |starts| > 0 && |ends| > 0
    requires Fits(starts, Lens(clips, enhanced)) && FirstLongEnough(LastIndex, Lens(clips, enhanced))
    ensures var r := AssignTimes(Some(chars), Some(starts), Some(ends), clips, enhanced);
      r.Success?
      && (forall i :: 0 <= i < |clips| ==> r.value[i].timing == Some(Expected(starts, Lens(clips, enhanced), i)))
      && (forall i :: 0 <= i < |clips| - 1 ==> r.value[i].timing.value.endTime == r.value[i + 1].timing.value.startTime)
  {
    var lens := Lens(clips, enhanced);
    TimesExpected(LastIndex, starts, clips, enhanced, lens);
    ExpectedContiguous(starts, lens);
    assert MissingTiming(Some(chars), Some(starts), Some(ends)).None?;
    var timed := TimesFrom(LastIndex, starts, clips, enhanced, 0, 0).value;
    assert AssignTimes(Some(chars), Some(starts), Some(ends), clips, enhanced) == Success(timed);
    assert forall i :: 0 <= i < |clips| ==> timed[i].timing == Some(Expected(starts, lens, i));
    forall i | 0 <= i < |clips| - 1
      ensures timed[i].timing.value.endTime == timed[i + 1].timing.value.startTime
    {
      assert timed[i].timing == Some(Expected(starts, lens, i));
      assert timed[i + 1].timing == Some(Expected(starts, lens, i + 1));
    }
  }

  /** A one-character first clip leaves the cursor at 0, which the loop
      reads as "no clip yet": the second clip is then timed from the first
      character again. */
  lemma OneCharFirstClipRestarts()
    ensures var clips := [ScriptClip(1, None, "A", "A", None, None, None), ScriptClip(2, None, "b", "b", None, None, None)];
      var r := AssignTimes(Some(['A', 'b']), Some([0.0, 0.5]), Some([0.5, 1.0]), clips, true);
      r.Success? && r.value[1].timing.value.startIndex == 0 && r.value[1].timing.value.startTime == 0.0
  {
    var clips := [ScriptClip(1, None, "A", "A", None, None, None), ScriptClip(2, None, "b", "b", None, None, None)];
    var step := TimeClip(LastIndex, [0.0, 0.5], 0, 1);
    assert step.Some? && step.value.1 == 0;
    var rest := TimesFrom(LastIndex, [0.0, 0.5], clips, true, 1, 0);
    assert rest.Some? && rest.value[0].timing == Some(step.value.0);
  }

  /** Keeping the next clip's first index as the cursor times every clip
      of a fitting narration in place, whatever the first clip's length. */
  lemma NextStartTiles(chars: seq<char>, starts: seq<real>, ends: seq<real>, clips: seq<ScriptClip>, enhanced: bool)
    requires |chars| > 0 && |starts| > 0 && |ends| > 0 && Fits(starts, Lens(clips, enhanced))
    ensures var r := AssignTimesWith(NextStart, Some(chars), Some(starts), Some(ends), clips, enhanced);
      r.Success? && forall i :: 0 <= i < |clips| ==> r.value[i].timing == Some(Expected(starts, Lens(clips, enhanced), i))
  {
    TimesExpected(NextStart, starts, clips, enhanced, Lens(clips, enhanced));
  }

  /** The narration is the clips' voiced texts with no separator. */
  function Narration(clips: seq<ScriptClip>, enhanced: bool): (texts: seq<string>)
    ensures |texts| == |clips|
    ensures forall i :: 0 <= i < |clips| ==> texts[i] == Voiced(clips[i], enhanced)
  {
    seq(|clips|, (i: int) requires 0 <= i < |clips| => Voiced(clips[i], enhanced))
  }

  /** Clip `i` starts where the texts before it end in the joined narration. */
  lemma {:induction false} PrefixOfConcat(texts: seq<string>, i: nat)
    requires i <= |texts|
    ensures Prefix(LegacyContent.Lengths(texts), i) == |Join("", texts[..i])|
  {
    if i > 0 {
      PrefixOfConcat(texts, i - 1);
      assert texts[..i] == texts[..i - 1] + [texts[i - 1]];
      ConcatSnoc(texts[..i - 1], texts[i - 1]);
    }
  }

  /** When the narration timed is the join of the clips' non-empty texts,
      the clips fit it. */
  lemma JoinedNarrationFits(starts: seq<real>, clips: seq<ScriptClip>, enhanced: bool)
    requires forall i :: 0 <= i < |clips| ==> |Voiced(clips[i], enhanced)| > 0
    requires |starts| == |Join("", Narration(clips, enhanced))|
    ensures Fits(starts, Lens(clips, enhanced))
  {
    var texts := Narration(clips, enhanced);
    assert Lens(clips, enhanced) == LegacyContent.Lengths(texts);
    PrefixOfConcat(texts, |texts|);
    assert texts[..|texts|] == texts;
  }

  // ---------------------------------------------------------------------
  // Retry loops of generate_video
  // ---------------------------------------------------------------------

  /** How a phase's loop ended and how many times it ran the method. */
  datatype LoopEnd = Done(calls: nat) | Raised(message: string, calls: nat)

  /** `for i in range(max_retries)` around one method. A missing-data error
      is raised at once; any other error is swallowed except on the last
      iteration; a loop with `break` stops at the first success, one without
      runs the method every iteration. */
  function RetryLoop(max: nat, attempt: nat -> StepTry, breaks: bool): (r: LoopEnd)
    ensures 1 <= r.calls <= max || (max == 0 && r == Done(0))
    ensures r.Raised? ==> !attempt(r.calls - 1).Ok?
    ensures r.Raised? ==> r.message == attempt(r.calls - 1).message
    ensures r.Raised? && r.calls < max ==> attempt(r.calls - 1).MissingData?
    ensures breaks && r.Done? && max > 0 ==> attempt(r.calls - 1).Ok?
    ensures forall j :: 0 <= j < r.calls - 1 ==> !attempt(j).MissingData? && (breaks ==> attempt(j).Failed?)
  {
    LoopFrom(max, attempt, breaks, 0)
  }

  function LoopFrom(max: nat, attempt: nat -> StepTry, breaks: bool, i: nat): (r: LoopEnd)
    requires i <= max
    ensures i <= r.calls <= max && (r.calls == i ==> i == max && r.Done?)
    ensures r.Raised? ==> !attempt(r.calls - 1).Ok? && r.message == attempt(r.calls - 1).message
    ensures r.Raised? && r.calls < max ==> attempt(r.calls - 1).MissingData?
    ensures breaks && r.Done? && r.calls > i ==> attempt(r.calls - 1).Ok?
    ensures r.Done? && r.calls == max && max > i && !breaks ==> !attempt(max - 1).Failed? && !attempt(max - 1).MissingData?
    ensures forall j :: i <= j < r.calls - 1 ==> !attempt(j).MissingData? && (breaks ==> attempt(j).Failed?)
    decreases max - i
  {
    if i == max then Done(i)
    else
      match attempt(i)
      case MissingData(m) => Raised(m, i + 1)
      case Ok => if breaks then Done(i + 1) else LoopFrom(max, attempt, breaks, i + 1)
      case Failed(m) => if i == max - 1 then Raised(m, i + 1) else LoopFrom(max, attempt, breaks, i + 1)
  }

  /** A loop with `break` succeeds exactly when some call succeeds before
      any missing-data error and within the retries. */
  lemma BreakingLoopIff(max: nat, attempt: nat -> StepTry)
    ensures RetryLoop(max, attempt, true).Done? <==>
      max == 0 || exists k :: 0 <= k < max && attempt(k).Ok? && forall j :: 0 <= j < k ==> attempt(j).Failed?
  {
    var r := RetryLoop(max, attempt, true);
    if !r.Done? && max > 0 {
      forall k | 0 <= k < max && attempt(k).Ok?
        ensures exists j :: 0 <= j < k && !attempt(j).Failed?
      {
        assert r.calls - 1 < k;
      }
    }
  }

  /** The hook loop, which has no `break`, regenerates the hook on every
      iteration and raises when the last one fails, although an earlier one
      succeeded. */
  lemma HookLoopDiscardsSuccess()
    ensures var attempt := (i: nat) => if i < 2 then Ok else Failed("timeout");
      RetryLoop(3, attempt, false) == Raised("timeout", 3)
      && RetryLoop(3, attempt, true) == Done(1)
  {
    var attempt := (i: nat) => if i < 2 then Ok else Failed("timeout");
    assert LoopFrom(3, attempt, false, 2) == Raised("timeout", 3);
    assert LoopFrom(3, attempt, false, 1) == LoopFrom(3, attempt, false, 2);
  }

  /** One phase of `generate_video`: a method retried in a loop (with or
      without `break`), or a method called once. */
  datatype Phase = Retried(name: string, breaks: bool) | Once(name: string)

  /** How `generate_video` is asked to produce script and audio. Any other
      value matches no case and skips that stage. */
  datatype Method = OneShot | MultiShot | Other(value: string)

  /** A retried phase that must break: every loop except the hook loop
      and the base-description loop. */
  predicate MustBreak(p: Phase) {
    p.Retried? && p.name != "generate_hook" && p.name != "generate_clips_base_image_descriptions"
  }

  /** The script phase chosen by `script_generation_method`. */
  function ScriptPhases(script: Method): (ps: seq<Phase>)
    ensures forall p :: p in ps ==> p.Retried? && p.breaks && MustBreak(p)
  {
    match script
    case OneShot => [Retried("generate_script_one_shot", true)]
    case MultiShot => [Retried("generate_script_multi_shot", true)]
    case Other(_) => []
  }

  /** The audio phases chosen by `audio_generation_method`. */
  function AudioPhases(audio: Method): (ps: seq<Phase>)
    ensures forall p :: p in ps ==> p.Once?
  {
    match audio
    case OneShot => [Once("generate_video_audio"), Once("assign_start_and_end_times_to_clips")]
    case MultiShot => [Once("generate_clips_audios")]
    case Other(_) => []
  }

  /** The merge phases chosen by `audio_generation_method`. */
  function MergePhases(audio: Method): (ps: seq<Phase>)
    ensures forall p :: p in ps ==> p.Once?
  {
    match audio
    case OneShot => [Once("merge_video_audio_and_clip_visuals")]
    case MultiShot => [Once("merge_clips_audios_and_visuals"), Once("merge_all_clips")]
    case Other(_) => []
  }

  /** The phases `generate_video` runs, in order; the loops whose evident
      intent is "retry until one success" all use `Retried(_, true)`. */
  function VideoPhasesWith(hookBreaks: bool, audio: Method, script: Method): (ps: seq<Phase>)
    ensures |ps| >= 6
    ensures ps[0] == Retried("generate_goal", true)
    ensures ps[1] == Retried("generate_hook", hookBreaks)
    ensures forall p :: p in ps && MustBreak(p) ==> p.breaks
  {
    var head := [Retried("generate_goal", true), Retried("generate_hook", hookBreaks),
                 Retried("generate_talking_points", true)];
    var visuals := [Retried("generate_clips_base_image_descriptions", hookBreaks), Once("generate_clips_visuals"),
                    Once("animate_clips_visuals")];
    var clips := [Retried("create_clips", true)];
    assert forall p :: p in head && MustBreak(p) ==> p.breaks;
    assert forall p :: p in visuals ==> !MustBreak(p) || p.breaks;
    head + ScriptPhases(script) + clips + AudioPhases(audio) + visuals + MergePhases(audio)
  }

  /** How one phase ends given its calls' outcomes. */
  function PhaseEnd(p: Phase, max: nat, attempt: nat -> StepTry): (r: LoopEnd)
    ensures p.Once? ==> (r.Done? <==> attempt(0).Ok?) && r.calls == 1
  {
    match p
    case Retried(_, breaks) => RetryLoop(max, attempt, breaks)
    case Once(_) => if attempt(0).Ok? then Done(1) else Raised(attempt(0).message, 1)
  }

  /** How `generate_video` ends: the phases completed and the message of
      the exception that stopped it, if any. */
  datatype VideoRun = VideoRun(completed: nat, raised: Option<string>)

  /** Phases run in order and the first one that raises ends the run.
      `attempt(p, i)` is the outcome of phase `p`'s `i`-th call. */
  function RunPhases(phases: seq<Phase>, max: nat, attempt: (nat, nat) -> StepTry, k: nat): (r: VideoRun)
    requires k <= |phases|
    ensures k <= r.completed <= |phases|
    ensures r.raised.None? <==> forall p :: k <= p < |phases| ==> PhaseEnd(phases[p], max, (i: nat) => attempt(p, i)).Done?
    ensures r.raised.None? ==> r.completed == |phases|
    ensures r.raised.Some? ==>
      (r.completed < |phases|
       && PhaseEnd(phases[r.completed], max, (i: nat) => attempt(r.completed, i)).Raised?
       && PhaseEnd(phases[r.completed], max, (i: nat) => attempt(r.completed, i)).message == r.raised.value
       && forall p :: k <= p < r.completed ==> PhaseEnd(phases[p], max, (i: nat) => attempt(p, i)).Done?)
    decreases |phases| - k
  {
    if k == |phases| then VideoRun(k, None)
    else
      var e := PhaseEnd(phases[k], max, (i: nat) => attempt(k, i));
      if e.Raised? then VideoRun(k, Some(e.message))
      else RunPhases(phases, max, attempt, k + 1)
  }

  /** A run of phases that each call once completes exactly when every
      first call succeeds. */
  lemma OncePhasesIff(phases: seq<Phase>, max: nat, attempt: (nat, nat) -> StepTry)
    requires forall p :: 0 <= p < |phases| ==> phases[p].Once?
    ensures RunPhases(phases, max, attempt, 0).raised.None? <==> forall p :: 0 <= p < |phases| ==> attempt(p, 0).Ok?
  {
    forall p | 0 <= p < |phases|
      ensures PhaseEnd(phases[p], max, (i: nat) => attempt(p, i)).Done? <==> attempt(p, 0).Ok?
    {
    }
  }

  /** `generate_video` as written, where the hook and base-description
      loops have no `break`. */
  function GenerateVideo(max: nat, audio: Method, script: Method, attempt: (nat, nat) -> StepTry): VideoRun {
    RunPhases(VideoPhasesWith(false, audio, script), max, attempt, 0)
  }

  // ---------------------------------------------------------------------
  // Inspection (shared by ShortFormVideo and Video)
  // ---------------------------------------------------------------------

  /** A clip path is truthy: present and non-empty. */
  predicate Truthy(path: Option<string>) {
    path.Some? && |path.value| > 0
  }

  /** The first clip at or after `i` without a truthy animated path. */
  function FirstInvalid(paths: seq<Option<string>>, i: nat): (k: nat)
    requires i <= |paths|
    ensures i <= k <= |paths|
    ensures forall j :: i <= j < k ==> Truthy(paths[j])
    ensures k < |paths| ==> !Truthy(paths[k])
    decreases |paths| - i
  {
    if i == |paths| || !Truthy(paths[i]) then i else FirstInvalid(paths, i + 1)
  }

  /** `validate_clips`: no clips raises; otherwise the flag holds exactly
      when every clip has a truthy animated path. */
  function ValidateClips(paths: seq<Option<string>>): (r: Result<bool, string>)
    ensures |paths| == 0 <==> r.Failure?
    ensures r.Failure? ==> r.error == "Clip cannot be validated without clips."
    ensures r.Success? ==> (r.value <==> forall i :: 0 <= i < |paths| ==> Truthy(paths[i]))
  {
    if |paths| == 0 then Failure("Clip cannot be validated without clips.")
    else Success(FirstInvalid(paths, 0) == |paths|)
  }

  /** The animated paths of the clips. */
  function AnimatedPaths(clips: seq<ScriptClip>): (ps: seq<Option<string>>)
    ensures |ps| == |clips|
    ensures forall i :: 0 <= i < |clips| ==> ps[i] == clips[i].animatedPath
  {
    seq(|clips|, (i: int) requires 0 <= i < |clips| => clips[i].animatedPath)
  }

  const NotValidMessage: string := "Some clips are not valid and therefore clips cannot be merged."

  /** `merge_all_clips` (short form): it validates first, so it proceeds,
      with the animated paths in clip order, exactly when there are clips
      and every one has a truthy path. */
  function MergeAllClips(clips: seq<ScriptClip>): (r: Result<seq<string>, string>)
    ensures r.Success? <==> |clips| > 0 && forall i :: 0 <= i < |clips| ==> Truthy(clips[i].animatedPath)
    ensures r.Success? ==> |r.value| == |clips| && forall i :: 0 <= i < |clips| ==> Some(r.value[i]) == clips[i].animatedPath
  {
    var valid := ValidateClips(AnimatedPaths(clips));
    if valid.Failure? then Failure(valid.error)
    else if !valid.value then Failure(NotValidMessage)
    else Success(seq(|clips|, (i: int) requires 0 <= i < |clips| => clips[i].animatedPath.value))
  }

  /** A clip's id and animated path, as `clips_summary` reads them. */
  datatype ClipRef = ClipRef(id: int, path: Option<string>)

  /** A clip counts as valid when its path is truthy and names a file. */
  predicate Playable(c: ClipRef, isFile: string -> bool) {
    Truthy(c.path) && isFile(c.path.value)
  }

  /** The ids of the clips with (`keep`) or without playable files, in order. */
  function IdsWhere(clips: seq<ClipRef>, isFile: string -> bool, keep: bool): (ids: seq<int>)
    ensures |ids| <= |clips|
  {
    if |clips| == 0 then []
    else (if Playable(clips[0], isFile) == keep then [clips[0].id] else []) + IdsWhere(clips[1..], isFile, keep)
  }

  /** `clips_summary`: one pass that appends each clip's id to the valid or
      the invalid list. */
  function ClipsSummary(clips: seq<ClipRef>, isFile: string -> bool): (r: (seq<int>, seq<int>))
    ensures |r.0| + |r.1| == |clips|
    ensures r.0 == IdsWhere(clips, isFile, true) && r.1 == IdsWhere(clips, isFile, false)
  {
    SummaryFrom(clips, isFile, [], [], 0)
  }

  function SummaryFrom(clips: seq<ClipRef>, isFile: string -> bool, valid: seq<int>, invalid: seq<int>, i: nat)
    : (r: (seq<int>, seq<int>))
    requires i <= |clips|
    requires |valid| + |invalid| == i
    ensures |r.0| + |r.1| == |clips|
    ensures r.0 == valid + IdsWhere(clips[i..], isFile, true) && r.1 == invalid + IdsWhere(clips[i..], isFile, false)
    decreases |clips| - i
  {
    if i == |clips| then (valid, invalid)
    else
      assert clips[i..][1..] == clips[i + 1..];
      if Playable(clips[i], isFile) then SummaryFrom(clips, isFile, valid + [clips[i].id], invalid, i + 1)
      else SummaryFrom(clips, isFile, valid, invalid + [clips[i].id], i + 1)
  }

  /** Every clip's id lands in exactly one of the two lists. */
  lemma {:induction false} SummaryPartitions(clips: seq<ClipRef>, isFile: string -> bool)
    ensures var r := ClipsSummary(clips, isFile);
      multiset(r.0) + multiset(r.1) == multiset(IdsOf(clips))
  {
    PartitionIds(clips, isFile);
  }

  function IdsOf(clips: seq<ClipRef>): (ids: seq<int>)
    ensures |ids| == |clips|
  {
    if |clips| == 0 then [] else [clips[0].id] + IdsOf(clips[1..])
  }

  lemma {:induction false} PartitionIds(clips: seq<ClipRef>, isFile: string -> bool)
    ensures multiset(IdsWhere(clips, isFile, true)) + multiset(IdsWhere(clips, isFile, false)) == multiset(IdsOf(clips))
    decreases |clips|
  {
    if |clips| > 0 {
      PartitionIds(clips[1..], isFile);
    }
  }
}

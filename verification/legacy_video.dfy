/** The topic-based `Video` object: topics come from the model, each topic
    becomes a batch of clips whose voice scripts accumulate into the
    video's running script, and the clips are then rendered and merged.
    The model calls are parameters; rendering is left to the services it
    calls. */
module LegacyVideo {
  import opened Wrappers
  import opened PyText
  import LegacyContent
  import LegacyClips

  /** What the model's topic reply decoded to: the call failed, the reply
      was not JSON, or a JSON object with or without a `topics` list, each
      topic carrying an optional `topic` text. */
  datatype TopicsReply = CallFailed | Unparsable(error: string) | Parsed(topics: Option<seq<Option<string>>>)

  /** `generate_topics`: an empty theme raises before the model is asked; a
      failed call raises the fixed message, an undecodable reply its decoding
      error; otherwise the reply's topics, or none when the key is absent. */
  function GenerateTopics(theme: string, reply: TopicsReply): (r: Result<seq<Option<string>>, string>)
    ensures |theme| == 0 ==> r == Failure("Video theme cannot be None")
    ensures |theme| > 0 && reply.Parsed? ==> r == Success(reply.topics.GetOr([]))
    ensures |theme| > 0 && reply.CallFailed? ==> r == Failure("Generation of topics for the video payload failed.")
    ensures r.Success? <==> |theme| > 0 && reply.Parsed?
  {
    if |theme| == 0 then Failure("Video theme cannot be None")
    else match reply
      case CallFailed => Failure("Generation of topics for the video payload failed.")
      case Unparsable(e) => Failure(e)
      case Parsed(topics) => Success(topics.GetOr([]))
  }

  /** One clip as the model describes it; `duration` is `None` when the
      `clip_duration_sec` value is absent or is not an integer literal, so
      `int()` rejects it. */
  datatype ClipData = ClipData(
    baseImageDescription: Option<string>,
    duration: Option<int>,
    voicePresence: Option<string>,
    voiceScript: Option<string>)

  /** A clip of the video. */
  datatype VideoClip = VideoClip(
    id: int,
    baseImageDescription: string,
    durationSec: int,
    voicePresence: string,
    voiceScript: string,
    animatedPath: Option<string>)

  /** The voice script a clip gets when the model gives none. */
  const DefaultVoiceScript: string := "empty my boy"

  /** The clip built from one item, numbered `id`. */
  function MakeClip(id: int, d: ClipData): (c: VideoClip)
    requires d.duration.Some?
    ensures c.id == id && c.durationSec == d.duration.value && c.animatedPath.None?
    ensures c.voiceScript == (if d.voiceScript.Some? then d.voiceScript.value else DefaultVoiceScript)
    ensures c.baseImageDescription == d.baseImageDescription.GetOr("")
  {
    VideoClip(id, d.baseImageDescription.GetOr(""), d.duration.value, d.voicePresence.GetOr(""),
              d.voiceScript.GetOr(DefaultVoiceScript), None)
  }

  /** The object's clip list, clip counter and running script. */
  datatype VideoState = VideoState(clips: seq<VideoClip>, count: int, script: string)

  /** The voice scripts of some clips, in order. */
  function Scripts(clips: seq<VideoClip>): (ss: seq<string>)
    ensures |ss| == |clips|
    ensures forall i :: 0 <= i < |clips| ==> ss[i] == clips[i].voiceScript
  {
    seq(|clips|, (i: int) requires 0 <= i < |clips| => clips[i].voiceScript)
  }

  /** `s` is `base` with clips appended: earlier clips untouched, new ones
      numbered on from the counter, the counter `extra` ahead of the clips
      appended, and the running script extended by exactly their voice
      scripts. */
  predicate Extends(base: VideoState, s: VideoState, extra: int) {
    |base.clips| <= |s.clips| && s.clips[..|base.clips|] == base.clips
    && s.count == base.count + (|s.clips| - |base.clips|) + extra
    && (var added := s.clips[|base.clips|..];
        forall t :: 0 <= t < |added| ==> added[t].id == base.count + 1 + t)
    && s.script == base.script + Join("", Scripts(s.clips[|base.clips|..]))
  }

  lemma ExtendsRefl(s: VideoState)
    ensures Extends(s, s, 0)
  {
    assert s.clips[..|s.clips|] == s.clips;
    assert Scripts(s.clips[|s.clips|..]) == [];
  }

  /** Appending one clip numbered on from the counter extends the state. */
  lemma {:induction false} ExtendsStep(base: VideoState, s: VideoState, c: VideoClip)
    requires Extends(base, s, 0) && c.id == s.count + 1
    ensures Extends(base, VideoState(s.clips + [c], s.count + 1, s.script + c.voiceScript), 0)
  {
    var n := |base.clips|;
    var s2 := VideoState(s.clips + [c], s.count + 1, s.script + c.voiceScript);
    assert s2.clips[..n] == s.clips[..n];
    assert s2.clips[n..] == s.clips[n..] + [c];
    assert Scripts(s2.clips[n..]) == Scripts(s.clips[n..]) + [c.voiceScript];
    ConcatSnoc(Scripts(s.clips[n..]), c.voiceScript);
  }

  lemma {:induction false} ExtendsTrans(a: VideoState, b: VideoState, c: VideoState, extra: int)
    requires Extends(a, b, 0) && Extends(b, c, extra)
    ensures Extends(a, c, extra)
  {
    var n := |a.clips|;
    var m := |b.clips|;
    assert c.clips[..n] == c.clips[..m][..n];
    assert c.clips[n..] == b.clips[n..] + c.clips[m..];
    var ab := c.clips[n..];
    forall t | 0 <= t < |ab|
      ensures ab[t].id == a.count + 1 + t
    {
      if t >= m - n {
        assert ab[t] == c.clips[m..][t - (m - n)];
      } else {
        assert ab[t] == b.clips[n..][t];
      }
    }
    assert Scripts(c.clips[n..]) == Scripts(b.clips[n..]) + Scripts(c.clips[m..]);
    JoinConcat(Scripts(b.clips[n..]), Scripts(c.clips[m..]));
  }

  /** Joining with no separator distributes over concatenation. */
  lemma {:induction false} JoinConcat(xs: seq<string>, ys: seq<string>)
    ensures Join("", xs + ys) == Join("", xs) + Join("", ys)
    decreases |ys|
  {
    if |ys| == 0 {
      assert xs + ys == xs;
    } else {
      var init := ys[..|ys| - 1];
      var y := ys[|ys| - 1];
      assert ys == init + [y];
      assert xs + ys == (xs + init) + [y];
      JoinConcat(xs, init);
      ConcatSnoc(xs + init, y);
      ConcatSnoc(init, y);
    }
  }

  /** Why `generate_clips` raised. */
  datatype ClipsError = NoTopics | ClipDataFailed(cause: string) | DurationNotInt

  function ErrorMessage(e: ClipsError): string {
    match e
    case NoTopics => "Generation of topics for the video clip data failed."
    case ClipDataFailed(cause) => "Generation of clip data failed with exception: " + cause
    case DurationNotInt => "ValueError: invalid literal for int()"
  }

  /** The object after `generate_clips` and the exception it raised, if any. */
  datatype ClipsRun = ClipsRun(state: VideoState, error: Option<ClipsError>)

  /** The items of one topic from item `j`: the counter is bumped before the
      duration is converted, so an item whose duration `int()` rejects
      leaves the counter one ahead and appends nothing more. */
  function ItemsFrom(s: VideoState, items: seq<ClipData>, j: nat): (r: ClipsRun)
    requires j <= |items|
    ensures |s.clips| <= |r.state.clips|
    ensures r.error.None? || r.error == Some(DurationNotInt)
    decreases |items| - j
  {
    if j == |items| then ClipsRun(s, None)
    else if items[j].duration.None? then ClipsRun(s.(count := s.count + 1), Some(DurationNotInt))
    else ItemsFrom(Push(s, items[j]), items, j + 1)
  }

  /** The item loop extends the object: its clips are appended numbered on
      from the counter, and the running script grows by their voice
      scripts; a rejected duration leaves the counter one ahead. */
  lemma {:induction false} ItemsFromExtends(s: VideoState, items: seq<ClipData>, j: nat, r: ClipsRun)
    requires j <= |items| && r == ItemsFrom(s, items, j)
    ensures Extends(s, r.state, if r.error.Some? then 1 else 0)
    decreases |items| - j
  {
    ExtendsRefl(s);
    if j < |items| && items[j].duration.Some? {
      var s1 := Push(s, items[j]);
      ExtendsStep(s, s, MakeClip(s.count + 1, items[j]));
      ItemsFromUnfold(s, items, j);
      ItemsFromExtends(s1, items, j + 1, r);
      ExtendsTrans(s, s1, r.state, if r.error.Some? then 1 else 0);
    }
  }

  /** The first item from `j` on without an integer duration, or the end. */
  function FirstUnconvertible(items: seq<ClipData>, j: nat): (k: nat)
    requires j <= |items|
    ensures j <= k <= |items|
    ensures forall t :: j <= t < k ==> items[t].duration.Some?
    ensures k < |items| ==> items[k].duration.None?
    decreases |items| - j
  {
    if j == |items| || items[j].duration.None? then j else FirstUnconvertible(items, j + 1)
  }

  /** The item loop stops exactly at the first item without an integer
      duration, having appended one clip per item before it. */
  lemma {:induction false} ItemsFromStops(s: VideoState, items: seq<ClipData>, j: nat, r: ClipsRun)
    requires j <= |items| && r == ItemsFrom(s, items, j)
    ensures |r.state.clips| - |s.clips| == FirstUnconvertible(items, j) - j
    ensures r.error.None? <==> FirstUnconvertible(items, j) == |items|
    decreases |items| - j
  {
    if j < |items| && items[j].duration.Some? {
      var s1 := Push(s, items[j]);
      ItemsFromUnfold(s, items, j);
      ItemsFromStops(s1, items, j + 1, r);
    }
  }

  /** The clips the item loop appends from item `j`, numbered on from
      `count`: one per item, up to the first item without an integer
      duration. */
  function ItemClips(count: int, items: seq<ClipData>, j: nat): (cs: seq<VideoClip>)
    requires j <= |items|
    decreases |items| - j
  {
    if j == |items| || items[j].duration.None? then []
    else [MakeClip(count + 1, items[j])] + ItemClips(count + 1, items, j + 1)
  }

  /** The item loop appends exactly `ItemClips`. */
  lemma {:induction false} ItemsFromAppends(s: VideoState, items: seq<ClipData>, j: nat)
    requires j <= |items|
    ensures ItemsFrom(s, items, j).state.clips == s.clips + ItemClips(s.count, items, j)
    decreases |items| - j
  {
    if j < |items| && items[j].duration.Some? {
      var s1 := Push(s, items[j]);
      ItemsFromUnfold(s, items, j);
      ItemsFromAppends(s1, items, j + 1);
      assert s1.clips == s.clips + [MakeClip(s.count + 1, items[j])];
      assert s1.clips + ItemClips(s1.count, items, j + 1)
        == s.clips + ([MakeClip(s.count + 1, items[j])] + ItemClips(s.count + 1, items, j + 1));
    }
  }

  /** The `t`-th appended clip is built from item `j + t` and numbered
      `count + 1 + t`. */
  lemma {:induction false} ItemClipsAt(count: int, items: seq<ClipData>, j: nat, t: nat)
    requires j <= |items| && t < |ItemClips(count, items, j)|
    ensures j + t < |items| && items[j + t].duration.Some?
    ensures ItemClips(count, items, j)[t] == MakeClip(count + 1 + t, items[j + t])
    decreases |items| - j
  {
    var cs := ItemClips(count, items, j);
    assert j < |items| && items[j].duration.Some?;
    assert cs == [MakeClip(count + 1, items[j])] + ItemClips(count + 1, items, j + 1);
    if t > 0 {
      ItemClipsAt(count + 1, items, j + 1, t - 1);
      assert cs[t] == ItemClips(count + 1, items, j + 1)[t - 1];
      assert count + 1 + 1 + (t - 1) == count + 1 + t && j + 1 + (t - 1) == j + t;
      assert cs[t] == MakeClip(count + 1 + t, items[j + t]);
    } else {
      assert cs[t] == MakeClip(count + 1 + t, items[j + t]);
    }
  }

  /** The `t`-th clip an item loop appends is built from the `t`-th item
      it reads, numbered on from the counter. */
  lemma ItemsFromBuilds(s: VideoState, items: seq<ClipData>, j: nat, t: nat)
    requires j <= |items| && t < |ItemsFrom(s, items, j).state.clips| - |s.clips|
    ensures j + t < |items| && items[j + t].duration.Some?
    ensures ItemsFrom(s, items, j).state.clips[|s.clips| + t] == MakeClip(s.count + 1 + t, items[j + t])
  {
    ItemsFromAppends(s, items, j);
    ItemClipsAt(s.count, items, j, t);
  }

  /** A state with one more clip built from `d`. */
  function Push(s: VideoState, d: ClipData): (s1: VideoState)
    requires d.duration.Some?
    ensures |s1.clips| == |s.clips| + 1 && s1.clips[|s.clips|] == MakeClip(s.count + 1, d)
    ensures s1.count == s.count + 1
  {
    var c := MakeClip(s.count + 1, d);
    VideoState(s.clips + [c], s.count + 1, s.script + c.voiceScript)
  }

  lemma ItemsFromUnfold(s: VideoState, items: seq<ClipData>, j: nat)
    requires j < |items| && items[j].duration.Some?
    ensures ItemsFrom(s, items, j) == ItemsFrom(Push(s, items[j]), items, j + 1)
  {
  }

  /** The topics from topic `k`; `clipData(topic, script)` is the model's
      answer for a topic given the running script so far. */
  function TopicsFrom(s: VideoState, topics: seq<Option<string>>, clipData: (string, string) -> Result<seq<ClipData>, string>,
                      k: nat): (r: ClipsRun)
    requires k <= |topics|
    ensures Extends(s, r.state, if r.error == Some(DurationNotInt) then 1 else 0)
    ensures r.error != Some(NoTopics)
    ensures k < |topics| && clipData(topics[k].GetOr(""), s.script).Failure? ==>
      r == ClipsRun(s, Some(ClipDataFailed(clipData(topics[k].GetOr(""), s.script).error)))
    decreases |topics| - k
  {
    if k == |topics| then
      ExtendsRefl(s);
      ClipsRun(s, None)
    else
      var data := clipData(topics[k].GetOr(""), s.script);
      if data.Failure? then
        ExtendsRefl(s);
        ClipsRun(s, Some(ClipDataFailed(data.error)))
      else
        var r1 := ItemsFrom(s, data.value, 0);
        ItemsFromExtends(s, data.value, 0, r1);
        if r1.error.Some? then r1
        else
          var r := TopicsFrom(r1.state, topics, clipData, k + 1);
          ExtendsTrans(s, r1.state, r.state, if r.error == Some(DurationNotInt) then 1 else 0);
          r
  }

  /** `generate_clips`: no topics raises before anything changes; otherwise
      each topic's clips are appended in turn and the running script grows
      by exactly their voice scripts. */
  function GenerateClips(s: VideoState, topics: seq<Option<string>>,
                         clipData: (string, string) -> Result<seq<ClipData>, string>): (r: ClipsRun)
    ensures |topics| == 0 ==> r == ClipsRun(s, Some(NoTopics))
    ensures |topics| > 0 && clipData(topics[0].GetOr(""), s.script).Failure? ==> r.state == s
    ensures Extends(s, r.state, if r.error == Some(DurationNotInt) then 1 else 0)
  {
    if |topics| == 0 then
      ExtendsRefl(s);
      ClipsRun(s, Some(NoTopics))
    else TopicsFrom(s, topics, clipData, 0)
  }

  /** From a fresh object, clip `i` has id `i + 1`, so ids match positions
      as long as no duration was rejected. */
  lemma FreshIdsMatchPositions(topics: seq<Option<string>>, clipData: (string, string) -> Result<seq<ClipData>, string>)
    ensures var r := GenerateClips(VideoState([], 0, ""), topics, clipData);
      (forall i :: 0 <= i < |r.state.clips| ==> r.state.clips[i].id == i + 1)
      && r.state.script == Join("", Scripts(r.state.clips))
      && r.state.count == |r.state.clips| + (if r.error == Some(DurationNotInt) then 1 else 0)
  {
    var r := GenerateClips(VideoState([], 0, ""), topics, clipData);
    assert r.state.clips[0..] == r.state.clips;
  }

  /** Which clip an action targets. */
  datatype Action = BaseImage | Audio | Animate | Unknown(name: string)

  /** `re_do_clip_action`: an id above the counter or below 0 raises; the
      clip at `id - 1` is then used with Python's indexing (so -1 is the
      last clip), and an action that matches no case does nothing.
      `Some(i)` is the index of the clip acted on. `lowest` is the smallest
      id accepted: 0 as written, 1 as intended. */
  function ReDoWith(lowest: int, clips: seq<VideoClip>, count: int, id: int, action: Action): (r: Result<Option<nat>, string>)
    ensures id > count || id < lowest ==> r == Failure("Clip id is out of range.")
    ensures r.Success? && r.value.Some? ==> r.value.value < |clips| && !action.Unknown?
    ensures r.Success? && r.value.Some? && id >= 1 ==> r.value.value == id - 1
    ensures action.Unknown? && lowest <= id <= count ==> r == Success(None)
  {
    if id > count || id < lowest then Failure("Clip id is out of range.")
    else if action.Unknown? then Success(None)
    else
      var i := id - 1;
      if 0 <= i < |clips| then Success(Some(i))
      else if -|clips| <= i < 0 then Success(Some(|clips| + i))
      else Failure("IndexError: list index out of range")
  }

  function ReDo(clips: seq<VideoClip>, count: int, id: int, action: Action): Result<Option<nat>, string> {
    ReDoWith(0, clips, count, id, action)
  }

  /** Clips numbered from 1 in order, the counter matching. */
  predicate Numbered(clips: seq<VideoClip>, count: int) {
    count == |clips| && forall i :: 0 <= i < |clips| ==> clips[i].id == i + 1
  }

  /** As written, id 0 passes the range check and reaches index -1: the
      action runs on the last clip. */
  lemma ReDoZeroHitsLastClip()
    ensures var clips := [VideoClip(1, "", 5, "", "a", None), VideoClip(2, "", 5, "", "b", None)];
      ReDo(clips, 2, 0, Audio) == Success(Some(1)) && clips[1].id == 2
  {
  }

  /** With the lower bound at 1, on numbered clips the action runs exactly
      when the id names a clip, and on that clip. */
  lemma ReDoTargetsNamedClip(clips: seq<VideoClip>, count: int, id: int, action: Action)
    requires Numbered(clips, count) && !action.Unknown?
    ensures var r := ReDoWith(1, clips, count, id, action);
      (r.Success? <==> 1 <= id <= count)
      && (r.Success? ==> r.value.Some? && clips[r.value.value].id == id)
  {
  }

  /** The merge guard reads the stored flag, not the clips: once validated,
      it proceeds exactly when every clip has a truthy animated path. */
  function MergeAllClips(allValid: bool, clips: seq<VideoClip>): (r: Result<seq<Option<string>>, string>)
    ensures r.Failure? <==> !allValid
    ensures r.Success? ==> |r.value| == |clips| && forall i :: 0 <= i < |clips| ==> r.value[i] == clips[i].animatedPath
  {
    if !allValid then Failure(LegacyClips.NotValidMessage)
    else Success(Paths(clips))
  }

  function Paths(clips: seq<VideoClip>): (ps: seq<Option<string>>)
    ensures |ps| == |clips|
    ensures forall i :: 0 <= i < |clips| ==> ps[i] == clips[i].animatedPath
  {
    seq(|clips|, (i: int) requires 0 <= i < |clips| => clips[i].animatedPath)
  }

  /** `generate_video` validates right before merging, so the merge goes
      ahead exactly when there are clips and all of them are rendered. */
  lemma ValidateThenMerge(clips: seq<VideoClip>)
    ensures var v := LegacyClips.ValidateClips(Paths(clips));
      v.Success? ==>
        (MergeAllClips(v.value, clips).Success? <==> forall i :: 0 <= i < |clips| ==> LegacyClips.Truthy(clips[i].animatedPath))
  {
  }

  /** A flag left over from an earlier validation lets an unrendered clip
      through. */
  lemma StaleFlagPassesUnrendered()
    ensures MergeAllClips(true, [VideoClip(1, "", 5, "", "a", None)]).Success?
  {
  }

  /** `get_final_video_path`: an empty path raises. */
  function FinalVideoPath(path: string): (r: Result<string, string>)
    ensures r.Success? <==> |path| > 0
    ensures r.Success? ==> r.value == path
  {
    if |path| == 0 then Failure("Final video path cannot be retrieved.") else Success(path)
  }

  /** The steps of `generate_video`, each run once in order; the first that
      raises ends the run. */
  const VideoSteps: seq<LegacyClips.Phase> := [
    LegacyClips.Once("generate_topics"), LegacyClips.Once("generate_clips"),
    LegacyClips.Once("generate_clips_visuals"), LegacyClips.Once("generate_clips_audios"),
    LegacyClips.Once("animate_clips_visuals"), LegacyClips.Once("merge_clips_audios_and_visuals"),
    LegacyClips.Once("validate_clips"), LegacyClips.Once("merge_all_clips"),
    LegacyClips.Once("get_final_video_path")]

  /** The run completes exactly when every step's single call succeeds. */
  lemma GenerateVideoIff(attempt: (nat, nat) -> LegacyClips.StepTry)
    ensures LegacyClips.RunPhases(VideoSteps, 1, attempt, 0).raised.None?
      <==> forall p :: 0 <= p < |VideoSteps| ==> attempt(p, 0).Ok?
  {
    LegacyClips.OncePhasesIff(VideoSteps, 1, attempt);
  }
}

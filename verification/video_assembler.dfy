/** Final assembly (v2): which clips are concatenated, the optional end
    buffer, the subtitle branch, and the SRT file written for it. */
module VideoAssembler {
  import opened Wrappers
  import opened PyText
  import opened PyNum
  import opened PyFormat
  import opened Media
  import ElevenLabs

  // ---------------------------------------------------------------------
  // Concat inputs and assembly
  // ---------------------------------------------------------------------

  /** One input of the concat filter: a rendered clip or the black buffer. */
  datatype ConcatInput = ClipInput(path: Path) | BlackBuffer(seconds: real)

  /** The length of the black buffer appended at the end of a short. */
  const EndBufferSeconds: real := 1.0

  /** `_assemble_basic` inputs: the clips in order, then one black buffer
      when requested. */
  function ConcatInputs(clips: seq<Path>, addEndBuffer: bool): (r: seq<ConcatInput>)
    ensures |r| == |clips| + (if addEndBuffer then 1 else 0)
    ensures forall i :: 0 <= i < |clips| ==> r[i] == ClipInput(clips[i])
    ensures addEndBuffer ==> r[|r| - 1] == BlackBuffer(EndBufferSeconds)
  {
    var inputs := seq(|clips|, i requires 0 <= i < |clips| => ClipInput(clips[i]));
    if addEndBuffer then inputs + [BlackBuffer(EndBufferSeconds)] else inputs
  }

  /** The clips named by a concat input list, in order. */
  function ClipsOf(inputs: seq<ConcatInput>): seq<Path> {
    if |inputs| == 0 then []
    else (if inputs[0].ClipInput? then [inputs[0].path] else []) + ClipsOf(inputs[1..])
  }

  /** How many black buffers an input list holds. */
  function Buffers(inputs: seq<ConcatInput>): nat {
    if |inputs| == 0 then 0
    else (if inputs[0].BlackBuffer? then 1 else 0) + Buffers(inputs[1..])
  }

  /** Reading the clips back from the inputs gives exactly the clips passed,
      and there is one buffer when asked for and none otherwise. */
  lemma ConcatInputsRoundTrip(clips: seq<Path>, addEndBuffer: bool)
    ensures ClipsOf(ConcatInputs(clips, addEndBuffer)) == clips
    ensures Buffers(ConcatInputs(clips, addEndBuffer)) == if addEndBuffer then 1 else 0
  {
    var inputs := seq(|clips|, i requires 0 <= i < |clips| => ClipInput(clips[i]));
    ClipsOfClips(clips);
    if addEndBuffer {
      ClipsOfAppend(inputs, [BlackBuffer(EndBufferSeconds)]);
      assert ConcatInputs(clips, true) == inputs + [BlackBuffer(EndBufferSeconds)];
    }
  }

  lemma {:induction false} ClipsOfClips(clips: seq<Path>)
    ensures var inputs := seq(|clips|, i requires 0 <= i < |clips| => ClipInput(clips[i]));
      ClipsOf(inputs) == clips && Buffers(inputs) == 0
  {
    if |clips| > 0 {
      ClipsOfClips(clips[1..]);
      var inputs := seq(|clips|, i requires 0 <= i < |clips| => ClipInput(clips[i]));
      assert inputs[1..] == seq(|clips[1..]|, i requires 0 <= i < |clips[1..]| => ClipInput(clips[1..][i]));
    }
  }

  lemma {:induction false} ClipsOfAppend(a: seq<ConcatInput>, b: seq<ConcatInput>)
    ensures ClipsOf(a + b) == ClipsOf(a) + ClipsOf(b)
    ensures Buffers(a + b) == Buffers(a) + Buffers(b)
  {
    if |a| == 0 {
      assert a + b == b;
    } else {
      ClipsOfAppend(a[1..], b);
      var ab := a + b;
      assert ab[0] == a[0];
      assert ab[1..] == a[1..] + b;
      var head := if a[0].ClipInput? then [a[0].path] else [];
      assert ClipsOf(ab) == head + ClipsOf(a[1..] + b);
      assert ClipsOf(a) == head + ClipsOf(a[1..]);
      assert Buffers(ab) == (if a[0].BlackBuffer? then 1 else 0) + Buffers(a[1..] + b);
    }
  }

  /** What is handed to FFmpeg: the concat inputs muxed with the audio into
      the output file, and, on the subtitle branch, the SRT cues burnt in. */
  datatype Assembly =
    | Basic(inputs: seq<ConcatInput>, audio: Path, output: Path)
    | WithSubtitles(inputs: seq<ConcatInput>, audio: Path, output: Path, cues: seq<Cue>)

  /** `assemble_short_form`. Raises when no plan has a clip; subtitles are
      burnt in only when requested and word timings exist. `output` is the
      timestamped file name the source draws. */
  function AssembleShortForm(plans: seq<SegmentVisualPlan>, audio: Path, output: Path, addEndBuffer: bool,
                             addSubtitles: bool, words: Option<seq<WordAlignment>>)
    : (r: Result<Assembly, string>)
    ensures r.Failure? <==> forall i :: 0 <= i < |plans| ==> plans[i].videoPath.None?
    ensures r.Success? ==> r.value.inputs == ConcatInputs(ClipPaths(plans), addEndBuffer)
    ensures r.Success? ==> r.value.audio == audio && r.value.output == output
    ensures r.Success? ==>
      (r.value.WithSubtitles? <==> addSubtitles && words.Some? && |words.value| > 0)
    ensures r.Success? && r.value.WithSubtitles? ==> r.value.cues == SrtCues(words.value)
  {
    ClipPathsExact(plans);
    var clips := ClipPaths(plans);
    if |clips| == 0 then Failure("No animated clips available for assembly")
    else if addSubtitles && words.Some? && |words.value| > 0 then
      Success(WithSubtitles(ConcatInputs(clips, addEndBuffer), audio, output, SrtCues(words.value)))
    else
      Success(Basic(ConcatInputs(clips, addEndBuffer), audio, output))
  }

  /** `assemble_section`: the section's clips, never an end buffer, never
      subtitles, and no check for an empty clip list. */
  function AssembleSection(plans: seq<SegmentVisualPlan>, audio: Path, output: Path): (a: Assembly)
    ensures a.Basic? && a.audio == audio && a.output == output
    ensures ClipsOf(a.inputs) == ClipPaths(plans)
    ensures Buffers(a.inputs) == 0
  {
    ConcatInputsRoundTrip(ClipPaths(plans), false);
    Basic(ConcatInputs(ClipPaths(plans), false), audio, output)
  }

  // ---------------------------------------------------------------------
  // SRT subtitles
  // ---------------------------------------------------------------------

  /** Words per subtitle cue. */
  const WordsPerGroup: nat := 4

  /** `range(0, n, 4)` slices: consecutive groups of four words, the last
      holding the remainder. */
  function Groups(ws: seq<WordAlignment>): (gs: seq<seq<WordAlignment>>)
    ensures |gs| == (|ws| + WordsPerGroup - 1) / WordsPerGroup
    ensures forall k :: 0 <= k < |gs| ==> 0 < |gs[k]| <= WordsPerGroup
    ensures forall k :: 0 <= k < |gs| - 1 ==> |gs[k]| == WordsPerGroup
    decreases |ws|
  {
    if |ws| == 0 then []
    else
      var g := Take(ws, WordsPerGroup);
      [g] + Groups(ws[|g|..])
  }

  function Concat<T>(gs: seq<seq<T>>): seq<T> {
    if |gs| == 0 then [] else gs[0] + Concat(gs[1..])
  }

  /** The groups partition the words: concatenated in order they give back
      the word list. */
  lemma {:induction false} GroupsPartition(ws: seq<WordAlignment>)
    ensures Concat(Groups(ws)) == ws
    decreases |ws|
  {
    if |ws| > 0 {
      var g := Take(ws, WordsPerGroup);
      GroupsPartition(ws[|g|..]);
      assert Groups(ws)[1..] == Groups(ws[|g|..]);
      assert ws == g + ws[|g|..];
    }
  }

  /** One SRT cue: its number, time span and text. */
  datatype Cue = Cue(index: nat, start: real, end: real, text: string)

  function CueOf(g: seq<WordAlignment>, index: nat): (c: Cue)
    requires |g| > 0
    ensures c.start == g[0].startTime && c.end == g[|g| - 1].endTime
    ensures c.text == Join(" ", ElevenLabs.WordTexts(g))
    ensures c.index == index
  {
    Cue(index, g[0].startTime, g[|g| - 1].endTime, Join(" ", ElevenLabs.WordTexts(g)))
  }

  /** The cues of `_generate_srt`: one per group, numbered from 1 with no
      gaps, each spanning its first word's start to its last word's end. */
  function SrtCues(ws: seq<WordAlignment>): (cs: seq<Cue>)
    ensures |cs| == (|ws| + 3) / 4
    ensures forall k :: 0 <= k < |cs| ==> cs[k].index == k + 1
    ensures forall k :: 0 <= k < |cs| ==> cs[k] == CueOf(Groups(ws)[k], k + 1)
  {
    var gs := Groups(ws);
    seq(|gs|, k requires 0 <= k < |gs| => CueOf(gs[k], k + 1))
  }

  /** A cue of `n` words has `n - 1` separating spaces, so it is never
      longer than four words and its text is the words single-spaced. */
  lemma CueTextLength(ws: seq<WordAlignment>, k: nat)
    requires k < |SrtCues(ws)|
    ensures var g := Groups(ws)[k];
      |SrtCues(ws)[k].text| == TotalLen(ElevenLabs.WordTexts(g)) + |g| - 1
  {
    var g := Groups(ws)[k];
    JoinLength(" ", ElevenLabs.WordTexts(g));
  }

  /** The four lines written per cue. */
  function CueLines(c: Cue): (ls: seq<string>)
    ensures |ls| == 4 && ls[3] == ""
  {
    [NatToString(c.index), FormatSrtTime(c.start) + " --> " + FormatSrtTime(c.end), c.text, ""]
  }

  /** `f` applied to every element, the results concatenated in order. */
  function Blocks<T, U>(f: T -> seq<U>, cs: seq<T>): seq<U> {
    if |cs| == 0 then [] else f(cs[0]) + Blocks(f, cs[1..])
  }

  /** With four-element blocks, element `j` of block `k` lands at `4k + j`. */
  lemma {:induction false} BlocksAt<T, U>(f: T -> seq<U>, cs: seq<T>)
    requires forall c :: |f(c)| == 4
    ensures |Blocks(f, cs)| == 4 * |cs|
    ensures forall k, j :: 0 <= k < |cs| && 0 <= j < 4 ==> Blocks(f, cs)[4 * k + j] == f(cs[k])[j]
  {
    if |cs| > 0 {
      BlocksAt(f, cs[1..]);
      assert forall k :: 1 <= k < |cs| ==> cs[k] == cs[1..][k - 1];
    }
  }

  /** All lines of the file, cue after cue: line `4k + j` is line `j` of
      cue `k`. */
  function SrtLines(cs: seq<Cue>): (ls: seq<string>)
    ensures |ls| == 4 * |cs|
    ensures forall k, j :: 0 <= k < |cs| && 0 <= j < 4 ==> ls[4 * k + j] == CueLines(cs[k])[j]
  {
    BlocksAt(CueLines, cs);
    Blocks(CueLines, cs)
  }

  /** The text `_generate_srt` writes. */
  function SrtText(ws: seq<WordAlignment>): string {
    Join("\n", SrtLines(SrtCues(ws)))
  }

  // ---------------------------------------------------------------------
  // SRT timestamps
  // ---------------------------------------------------------------------

  /** The four fields of an SRT timestamp. */
  datatype SrtTime = SrtTime(hours: int, minutes: int, secs: int, millis: int)

  /** `_format_srt_time`'s arithmetic: `seconds // 3600`, `(seconds % 3600)
      // 60`, `seconds % 60` and `(seconds % 1) * 1000`, each truncated by
      `int`. The fields are in range and add up to the input floored to
      the millisecond. */
  function SrtParts(x: real): (t: SrtTime)
    ensures 0 <= t.minutes < 60 && 0 <= t.secs < 60 && 0 <= t.millis < 1000
    ensures x >= 0.0 ==> t.hours >= 0
  {
    var (h, r1) := DivMod(x, 3600.0);
    var (m, r2) := DivMod(r1, 60.0);
    var s60 := DivMod(x, 60.0).1;
    var frac := DivMod(x, 1.0).1;
    var sec := Trunc(s60);
    var ms := Trunc(frac * 1000.0);
    SrtPartsSum(x, h, r1, m, r2, s60, frac, sec, ms);
    SrtTime(h, Trunc(m as real), sec, ms)
  }

  /** The fields add up to the input floored to the millisecond. */
  lemma SrtPartsTotal(x: real)
    ensures var t := SrtParts(x);
      (3600 * t.hours + 60 * t.minutes + t.secs) as real + (t.millis as real) / 1000.0
      == ((x * 1000.0).Floor as real) / 1000.0
  {
    var (h, r1) := DivMod(x, 3600.0);
    var (m, r2) := DivMod(r1, 60.0);
    var s60 := DivMod(x, 60.0).1;
    var frac := DivMod(x, 1.0).1;
    SrtPartsSum(x, h, r1, m, r2, s60, frac, Trunc(s60), Trunc(frac * 1000.0));
  }

  /** The arithmetic behind `SrtParts`. */
  lemma SrtPartsSum(x: real, h: int, r1: real, m: int, r2: real, s60: real, frac: real, sec: int, ms: int)
    requires x == (h as real) * 3600.0 + r1 && 0.0 <= r1 < 3600.0
    requires r1 == (m as real) * 60.0 + r2 && 0.0 <= r2 < 60.0
    requires s60 == DivMod(x, 60.0).1 && frac == DivMod(x, 1.0).1
    requires sec == Trunc(s60) && ms == Trunc(frac * 1000.0)
    ensures 0 <= m < 60 && 0 <= sec < 60 && 0 <= ms < 1000
    ensures (3600 * h + 60 * m + sec) as real + (ms as real) / 1000.0 == ((x * 1000.0).Floor as real) / 1000.0
  {
    RemainderUnique(x, 60.0, 60 * h + m, r2);
    assert s60 == r2;
    assert 0 <= sec < 60;
    var whole := 3600 * h + 60 * m + sec;
    RemainderUnique(x, 1.0, whole, r2 - sec as real);
    assert frac == r2 - sec as real;
    assert 0.0 <= frac < 1.0;
    FloorShift(frac * 1000.0, 1000 * whole);
    assert x * 1000.0 == frac * 1000.0 + (1000 * whole) as real;
  }

  /** The remainder of `divmod` by 60 or by 1 is the unique one below the
      divisor. */
  lemma RemainderUnique(a: real, b: real, q: int, r: real)
    requires b == 60.0 || b == 1.0
    requires a == (q as real) * b + r && 0.0 <= r < b
    ensures DivMod(a, b) == (q, r)
  {
    var qr := DivMod(a, b);
    var d := qr.0 - q;
    assert (d as real) * b == r - qr.1;
    if b == 60.0 {
      assert d >= 1 ==> (d as real) * 60.0 >= 60.0;
      assert d <= -1 ==> (d as real) * 60.0 <= -60.0;
    }
    assert d == 0;
  }

  /** Adding an integer shifts the floor by that integer. */
  lemma FloorShift(v: real, k: int)
    ensures (v + k as real).Floor == v.Floor + k
  {
  }

  /** `_format_srt_time`: `HH:MM:SS,mmm`, each field zero-filled. */
  function FormatSrtTime(x: real): string {
    FormatFields(SrtParts(x))
  }

  /** The four fields zero-filled to widths 2, 2, 2 and 3. */
  function FormatFields(t: SrtTime): string {
    FormatInt(t.hours, 2) + ":" + FormatInt(t.minutes, 2) + ":" + FormatInt(t.secs, 2) + "," + FormatInt(t.millis, 3)
  }

  /** A timestamp of in-range fields is exactly twelve characters with its
      separators at fixed places, and every field reads back as its value. */
  lemma FieldsReadBack(t: SrtTime)
    requires 0 <= t.hours < 100 && 0 <= t.minutes < 60 && 0 <= t.secs < 60 && 0 <= t.millis < 1000
    ensures var s := FormatFields(t);
      |s| == 12 && s[2] == ':' && s[5] == ':' && s[8] == ','
      && AllDigits(s[0..2]) && AllDigits(s[3..5]) && AllDigits(s[6..8]) && AllDigits(s[9..12])
      && Value(s[0..2]) == t.hours && Value(s[3..5]) == t.minutes
      && Value(s[6..8]) == t.secs && Value(s[9..12]) == t.millis
  {
    FormatIntRoundTrip(t.hours, 2);
    FormatIntRoundTrip(t.minutes, 2);
    FormatIntRoundTrip(t.secs, 2);
    FormatIntRoundTrip(t.millis, 3);
    FieldsAt(FormatInt(t.hours, 2), FormatInt(t.minutes, 2), FormatInt(t.secs, 2), FormatInt(t.millis, 3));
  }

  /** Below a hundred hours of input the hours field fits two digits. */
  lemma HoursBelowHundred(x: real)
    requires 0.0 <= x < 360000.0
    ensures 0 <= SrtParts(x).hours < 100
  {
    var (h, r1) := DivMod(x, 3600.0);
    assert (h as real) * 3600.0 <= x;
  }

  /** Where the fields sit in `A:B:C,D` for two-wide `A`, `B`, `C` and
      three-wide `D`. */
  lemma FieldsAt(a: string, b: string, c: string, d: string)
    requires |a| == 2 && |b| == 2 && |c| == 2 && |d| == 3
    ensures var s := a + ":" + b + ":" + c + "," + d;
      |s| == 12 && s[2] == ':' && s[5] == ':' && s[8] == ','
      && s[0..2] == a && s[3..5] == b && s[6..8] == c && s[9..12] == d
  {
  }
}

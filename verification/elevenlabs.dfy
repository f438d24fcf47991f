/** Word-level alignment of the narration (v2): grouping the TTS engine's
    per-character timings into words, and locating each script segment in
    the transcript to give it a start and end time. */
module ElevenLabs {
  import opened Wrappers
  import opened PyText
  import opened PyNum
  import opened Media

  // ---------------------------------------------------------------------
  // Characters to words
  // ---------------------------------------------------------------------

  /** The engine's character alignment: parallel arrays of characters and
      their start and end times. */
  datatype CharAlignment = CharAlignment(characters: seq<char>, starts: seq<real>, ends: seq<real>)

  /** The index arrays are read at every character position. */
  predicate WellFormed(a: CharAlignment) {
    |a.starts| >= |a.characters| && |a.ends| >= |a.characters|
  }

  /** First index at or after `i` that holds a space, or `|cs|`. */
  function RunEnd(cs: seq<char>, i: nat): (e: nat)
    requires i <= |cs|
    ensures i <= e <= |cs|
    ensures forall j :: i <= j < e ==> cs[j] != ' '
    ensures e < |cs| ==> cs[e] == ' '
    decreases |cs| - i
  {
    if i < |cs| && cs[i] != ' ' then RunEnd(cs, i + 1) else i
  }

  /** The maximal runs of non-space characters of `cs[i..]`, as half-open
      index ranges: the reference definition of what a word is. */
  function Runs(cs: seq<char>, i: nat): (rs: seq<(nat, nat)>)
    requires i <= |cs|
    ensures forall k :: 0 <= k < |rs| ==> i <= rs[k].0 < rs[k].1 <= |cs|
    decreases |cs| - i
  {
    if i == |cs| then []
    else if cs[i] == ' ' then Runs(cs, i + 1)
    else
      var e := RunEnd(cs, i);
      [(i, e)] + Runs(cs, e)
  }

  /** A half-open range is a maximal run of non-space characters. */
  predicate IsMaximalRun(cs: seq<char>, lo: nat, hi: nat) {
    lo < hi <= |cs|
    && (forall j :: lo <= j < hi ==> cs[j] != ' ')
    && (lo == 0 || cs[lo - 1] == ' ')
    && (hi == |cs| || cs[hi] == ' ')
  }

  /** Each run is maximal. */
  lemma {:induction false} RunsAreMaximal(cs: seq<char>, i: nat)
    requires i <= |cs| && (i == 0 || cs[i - 1] == ' ')
    ensures forall k :: 0 <= k < |Runs(cs, i)| ==> IsMaximalRun(cs, Runs(cs, i)[k].0, Runs(cs, i)[k].1)
    decreases |cs| - i
  {
    if i < |cs| {
      if cs[i] == ' ' {
        RunsAreMaximal(cs, i + 1);
      } else {
        var e := RunEnd(cs, i);
        if e < |cs| {
          RunsAreMaximal(cs, e + 1);
          assert Runs(cs, e) == Runs(cs, e + 1);
        }
        assert Runs(cs, i) == [(i, e)] + Runs(cs, e);
      }
    }
  }

  /** Runs come in increasing order and do not touch. */
  lemma {:induction false} RunsAreOrdered(cs: seq<char>, i: nat)
    requires i <= |cs|
    ensures forall k :: 0 <= k < |Runs(cs, i)| - 1 ==> Runs(cs, i)[k].1 < Runs(cs, i)[k + 1].0
    decreases |cs| - i
  {
    if i < |cs| {
      if cs[i] == ' ' {
        RunsAreOrdered(cs, i + 1);
      } else {
        var e := RunEnd(cs, i);
        RunsAreOrdered(cs, e);
        var rest := Runs(cs, e);
        if |rest| > 0 && e < |cs| {
          assert Runs(cs, e) == Runs(cs, e + 1);
        }
        assert Runs(cs, i) == [(i, e)] + rest;
      }
    }
  }

  /** Every non-space character at or after `i` lies in some run. */
  lemma {:induction false} RunsCover(cs: seq<char>, i: nat, j: nat)
    requires i <= j < |cs| && cs[j] != ' '
    ensures exists k :: 0 <= k < |Runs(cs, i)| && Runs(cs, i)[k].0 <= j < Runs(cs, i)[k].1
    decreases |cs| - i
  {
    var rs := Runs(cs, i);
    if cs[i] == ' ' {
      RunsCover(cs, i + 1, j);
    } else {
      var e := RunEnd(cs, i);
      assert rs == [(i, e)] + Runs(cs, e);
      if j < e {
        assert rs[0].0 <= j < rs[0].1;
      } else {
        RunsCover(cs, e, j);
        var k :| 0 <= k < |Runs(cs, e)| && Runs(cs, e)[k].0 <= j < Runs(cs, e)[k].1;
        assert rs[k + 1] == Runs(cs, e)[k];
      }
    }
  }

  /** The word a run denotes: its characters, the first character's start
      time and the last character's end time. */
  function WordOf(a: CharAlignment, lo: nat, hi: nat): WordAlignment
    requires WellFormed(a) && lo < hi <= |a.characters|
  {
    WordAlignment(a.characters[lo..hi], a.starts[lo], a.ends[hi - 1])
  }

  function WordsOf(a: CharAlignment, rs: seq<(nat, nat)>): (ws: seq<WordAlignment>)
    requires WellFormed(a)
    requires forall k :: 0 <= k < |rs| ==> rs[k].0 < rs[k].1 <= |a.characters|
    ensures |ws| == |rs|
    ensures forall k :: 0 <= k < |rs| ==> ws[k] == WordOf(a, rs[k].0, rs[k].1)
  {
    seq(|rs|, k requires 0 <= k < |rs| => WordOf(a, rs[k].0, rs[k].1))
  }

  /** All non-space characters from `lo` up to `i` share one run. */
  lemma {:induction false} RunEndSkips(cs: seq<char>, lo: nat, i: nat)
    requires lo <= i <= |cs|
    requires forall j :: lo <= j < i ==> cs[j] != ' '
    ensures RunEnd(cs, lo) == RunEnd(cs, i)
    decreases i - lo
  {
    if lo < i {
      RunEndSkips(cs, lo + 1, i);
    }
  }

  lemma WordsOfCons(a: CharAlignment, lo: nat, hi: nat, rs: seq<(nat, nat)>)
    requires WellFormed(a) && lo < hi <= |a.characters|
    requires forall k :: 0 <= k < |rs| ==> rs[k].0 < rs[k].1 <= |a.characters|
    ensures WordsOf(a, [(lo, hi)] + rs) == [WordOf(a, lo, hi)] + WordsOf(a, rs)
  {
  }

  /** The words of `characters[i..]`, read off directly: the run-by-run
      reading the scan keeps as its invariant. */
  function WordsFrom(a: CharAlignment, i: nat): seq<WordAlignment>
    requires WellFormed(a) && i <= |a.characters|
    decreases |a.characters| - i
  {
    if i == |a.characters| then []
    else if a.characters[i] == ' ' then WordsFrom(a, i + 1)
    else
      var e := RunEnd(a.characters, i);
      [WordOf(a, i, e)] + WordsFrom(a, e)
  }

  /** Reading word by word gives the words of the maximal runs. */
  lemma {:induction false} WordsFromRuns(a: CharAlignment, i: nat)
    requires WellFormed(a) && i <= |a.characters|
    ensures WordsFrom(a, i) == WordsOf(a, Runs(a.characters, i))
    decreases |a.characters| - i
  {
    if i < |a.characters| {
      if a.characters[i] == ' ' {
        WordsFromRuns(a, i + 1);
      } else {
        var e := RunEnd(a.characters, i);
        WordsFromRuns(a, e);
        WordsOfCons(a, i, e, Runs(a.characters, e));
      }
    }
  }

  /** A space closes the pending run `[lo, i)`, if any, and the scan
      resumes after it. */
  lemma SpaceStep(a: CharAlignment, lo: nat, i: nat)
    requires WellFormed(a) && lo <= i < |a.characters| && a.characters[i] == ' '
    requires forall j :: lo <= j < i ==> a.characters[j] != ' '
    ensures lo < i ==> WordsFrom(a, lo) == [WordOf(a, lo, i)] + WordsFrom(a, i + 1)
    ensures lo == i ==> WordsFrom(a, lo) == WordsFrom(a, i + 1)
  {
    if lo < i {
      RunEndSkips(a.characters, lo, i);
    }
  }

  /** The last run, ending with the characters. */
  lemma LastRun(a: CharAlignment, lo: nat)
    requires WellFormed(a) && lo <= |a.characters|
    requires forall j :: lo <= j < |a.characters| ==> a.characters[j] != ' '
    ensures lo < |a.characters| ==> WordsFrom(a, lo) == [WordOf(a, lo, |a.characters|)]
    ensures lo == |a.characters| ==> WordsFrom(a, lo) == []
  {
    if lo < |a.characters| {
      RunEndSkips(a.characters, lo, |a.characters|);
    }
  }

  /** The scan state after the first `i` characters: `words` holds the runs
      closed so far and `current` the pending run `[lo, i)`, stamped in
      `wordStart` with its first character's start. */
  predicate Scanned(a: CharAlignment, words: seq<WordAlignment>, current: string, wordStart: Option<real>, lo: nat, i: nat)
    requires WellFormed(a) && i <= |a.characters|
  {
    lo <= i && current == a.characters[lo..i]
    && wordStart == (if lo < i then Some(a.starts[lo]) else None)
    && (forall j :: lo <= j < i ==> a.characters[j] != ' ')
    && WordsFrom(a, 0) == words + WordsFrom(a, lo)
  }

  /** One iteration of the scan: a space emits the pending word, any other
      character extends it. */
  method ScanStep(a: CharAlignment, words: seq<WordAlignment>, current: string, wordStart: Option<real>,
                  ghost lo: nat, i: nat)
    returns (words': seq<WordAlignment>, current': string, wordStart': Option<real>, ghost lo': nat)
    requires WellFormed(a) && i < |a.characters| && Scanned(a, words, current, wordStart, lo, i)
    ensures Scanned(a, words', current', wordStart', lo', i + 1)
  {
    var chars := a.characters;
    words', current', wordStart', lo' := words, current, wordStart, lo;
    if chars[i] == ' ' {
      SpaceStep(a, lo, i);
      if current != "" {
        assert WordAlignment(current, wordStart.value, a.ends[i - 1]) == WordOf(a, lo, i);
        words' := words + [WordAlignment(current, wordStart.value, a.ends[i - 1])];
      }
      current' := "";
      wordStart' := None;
      lo' := i + 1;
    } else {
      if wordStart.None? {
        wordStart' := Some(a.starts[i]);
      }
      assert chars[lo..i + 1] == chars[lo..i] + [chars[i]];
      current' := current + [chars[i]];
    }
  }

  /** The loop of `_extract_word_alignments`: after the scan, `words`
      holds every run closed by a space and `current` the pending last run,
      stamped in `wordStart` with its first character's start. */
  method ScanWords(a: CharAlignment) returns (words: seq<WordAlignment>, current: string,
                                              wordStart: Option<real>, ghost lo: nat)
    requires WellFormed(a)
    ensures lo <= |a.characters| && current == a.characters[lo..]
    ensures wordStart == if lo < |a.characters| then Some(a.starts[lo]) else None
    ensures forall j :: lo <= j < |a.characters| ==> a.characters[j] != ' '
    ensures WordsFrom(a, 0) == words + WordsFrom(a, lo)
  {
    words := [];
    current := "";
    wordStart := None;
    lo := 0;
    var i := 0;
    while i < |a.characters|
      invariant i <= |a.characters| && Scanned(a, words, current, wordStart, lo, i)
    {
      words, current, wordStart, lo := ScanStep(a, words, current, wordStart, lo, i);
      i := i + 1;
    }
    assert a.characters[lo..i] == a.characters[lo..];
  }

  /** `_extract_word_alignments`: scans the characters once, emitting the
      accumulated word at every space and once more at the end. The words are
      exactly the maximal runs of non-space characters, each stamped with its
      first character's start and its last character's end. */
  method ExtractWordAlignments(alignment: Option<CharAlignment>) returns (words: seq<WordAlignment>)
    requires alignment.Some? ==> WellFormed(alignment.value)
    ensures alignment.None? ==> words == []
    ensures alignment.Some? ==> words == WordsOf(alignment.value, Runs(alignment.value.characters, 0))
  {
    if alignment.None? || |alignment.value.characters| == 0 {
      return [];
    }
    var a := alignment.value;
    var current, wordStart;
    ghost var lo;
    words, current, wordStart, lo := ScanWords(a);
    LastRun(a, lo);
    WordsFromRuns(a, 0);
    if current != "" && wordStart.Some? {
      assert WordAlignment(current, wordStart.value, a.ends[|a.characters| - 1]) == WordOf(a, lo, |a.characters|);
      words := words + [WordAlignment(current, wordStart.value, a.ends[|a.characters| - 1])];
    }
  }

  // ---------------------------------------------------------------------
  // Transcript and character-to-word map
  // ---------------------------------------------------------------------

  function WordTexts(ws: seq<WordAlignment>): (r: seq<string>)
    ensures |r| == |ws|
    ensures forall k :: 0 <= k < |ws| ==> r[k] == ws[k].word
  {
    seq(|ws|, k requires 0 <= k < |ws| => ws[k].word)
  }

  /** `" ".join(w.word for w in words)`. */
  function FullText(ws: seq<WordAlignment>): string {
    Join(" ", WordTexts(ws))
  }

  /** Where word `j` starts in the transcript of words `k..`: the lengths
      of the words before it, each followed by its separating space. */
  function WordStart(ws: seq<WordAlignment>, k: nat, j: nat): nat
    requires k <= j <= |ws|
    decreases j - k
  {
    if k == j then 0 else |ws[k].word| + 1 + WordStart(ws, k + 1, j)
  }

  /** The transcript position of character `c` of word `j` (for `c` the
      word's length, the space after it), counting from word `k`. */
  function CharPos(ws: seq<WordAlignment>, k: nat, j: nat, c: nat): nat
    requires k <= j <= |ws|
  {
    WordStart(ws, k, j) + c
  }

  /** `char_to_word` from word `k` on: each word's index repeated once per
      character, plus once for the separating space after every word but the
      last. */
  function CharToWordFrom(ws: seq<WordAlignment>, k: nat): (m: seq<nat>)
    requires k <= |ws|
    ensures |m| == |Join(" ", WordTexts(ws)[k..])|
    ensures forall i :: 0 <= i < |m| ==> k <= m[i] < |ws|
    ensures forall i, j :: 0 <= i <= j < |m| ==> m[i] <= m[j]
    ensures forall j, c :: k <= j < |ws| && 0 <= c < |ws[j].word| ==>
      CharPos(ws, k, j, c) < |m| && m[CharPos(ws, k, j, c)] == j
    ensures forall j :: k <= j < |ws| - 1 ==>
      CharPos(ws, k, j, |ws[j].word|) < |m| && m[CharPos(ws, k, j, |ws[j].word|)] == j
    decreases |ws| - k
  {
    if k == |ws| then []
    else
      var block := seq(|ws[k].word|, _ => k);
      var sep: seq<nat> := if k < |ws| - 1 then [k] else [];
      var rest := CharToWordFrom(ws, k + 1);
      var texts := WordTexts(ws)[k..];
      assert texts[1..] == WordTexts(ws)[k + 1..];
      assert forall j, c :: k < j <= |ws| ==> CharPos(ws, k, j, c) == |ws[k].word| + 1 + CharPos(ws, k + 1, j, c);
      if k < |ws| - 1 then
        assert Join(" ", texts) == texts[0] + " " + Join(" ", texts[1..]);
        block + sep + rest
      else
        block + sep + rest
  }

  /** `char_to_word`: one entry per transcript character, non-decreasing,
      each a valid word index; every character of word `j`, and the space
      after it, maps to `j`. */
  function CharToWord(ws: seq<WordAlignment>): (m: seq<nat>)
    ensures |m| == |FullText(ws)|
    ensures forall i :: 0 <= i < |m| ==> m[i] < |ws|
    ensures forall i, j :: 0 <= i <= j < |m| ==> m[i] <= m[j]
    ensures forall j, c :: 0 <= j < |ws| && 0 <= c < |ws[j].word| ==>
      CharPos(ws, 0, j, c) < |m| && m[CharPos(ws, 0, j, c)] == j
    ensures forall j :: 0 <= j < |ws| - 1 ==>
      CharPos(ws, 0, j, |ws[j].word|) < |m| && m[CharPos(ws, 0, j, |ws[j].word|)] == j
  {
    assert WordTexts(ws)[0..] == WordTexts(ws);
    CharToWordFrom(ws, 0)
  }

  /** `text` holds, from word `k` on, character `c` of word `j` at
      `CharPos(ws, k, j, c)` and a space right after every word but the
      last. */
  predicate LaidOut(ws: seq<WordAlignment>, k: nat, text: string)
    requires k <= |ws|
  {
    (forall j, c :: k <= j < |ws| && 0 <= c < |ws[j].word| ==>
       CharPos(ws, k, j, c) < |text| && text[CharPos(ws, k, j, c)] == ws[j].word[c])
    && (forall j :: k <= j < |ws| - 1 ==>
       CharPos(ws, k, j, |ws[j].word|) < |text| && text[CharPos(ws, k, j, |ws[j].word|)] == ' ')
  }

  /** The transcript of the words from `k` on is laid out word by word. */
  lemma {:induction false} TranscriptLayoutFrom(ws: seq<WordAlignment>, k: nat)
    requires k <= |ws|
    ensures LaidOut(ws, k, Join(" ", WordTexts(ws)[k..]))
    decreases |ws| - k
  {
    if k < |ws| {
      var texts := WordTexts(ws)[k..];
      var text := Join(" ", texts);
      var a := ws[k].word;
      assert texts[0] == a;
      assert texts[1..] == WordTexts(ws)[k + 1..];
      TranscriptLayoutFrom(ws, k + 1);
      var rest := Join(" ", texts[1..]);
      assert LaidOut(ws, k + 1, rest);
      if k < |ws| - 1 {
        assert text == a + " " + rest;
        LayoutCons(ws, k, rest);
      } else {
        assert text == a;
        forall j, c | k <= j < |ws| && 0 <= c < |ws[j].word|
          ensures CharPos(ws, k, j, c) < |text| && text[CharPos(ws, k, j, c)] == ws[j].word[c]
        {
          assert j == k && CharPos(ws, k, j, c) == c;
        }
      }
    }
  }

  /** Word `k` and a space in front of a laid-out rest give a laid-out
      whole. */
  lemma LayoutCons(ws: seq<WordAlignment>, k: nat, rest: string)
    requires k < |ws| - 1 && LaidOut(ws, k + 1, rest)
    ensures LaidOut(ws, k, ws[k].word + " " + rest)
  {
    var a := ws[k].word;
    var text := a + " " + rest;
    forall j, c | k <= j < |ws| && 0 <= c < |ws[j].word|
      ensures CharPos(ws, k, j, c) < |text| && text[CharPos(ws, k, j, c)] == ws[j].word[c]
    {
      if j == k {
        assert CharPos(ws, k, j, c) == c;
      } else {
        var q := CharPos(ws, k + 1, j, c);
        assert CharPos(ws, k, j, c) == |a| + 1 + q;
        assert q < |rest| && rest[q] == ws[j].word[c];
        assert text[|a| + 1 + q] == rest[q];
      }
    }
    forall j | k <= j < |ws| - 1
      ensures CharPos(ws, k, j, |ws[j].word|) < |text| && text[CharPos(ws, k, j, |ws[j].word|)] == ' '
    {
      if j == k {
        assert CharPos(ws, k, j, |a|) == |a|;
      } else {
        var q := CharPos(ws, k + 1, j, |ws[j].word|);
        assert CharPos(ws, k, j, |ws[j].word|) == |a| + 1 + q;
        assert q < |rest| && rest[q] == ' ';
        assert text[|a| + 1 + q] == rest[q];
      }
    }
  }

  /** Character `c` of word `j` sits in the transcript at
      `CharPos(ws, 0, j, c)`, and `char_to_word` sends that position back to
      `j`: every character of the transcript is mapped to the word it
      belongs to, and each separating space to the word before it. */
  lemma CharToWordNamesItsWord(ws: seq<WordAlignment>)
    ensures var text := FullText(ws);
      var m := CharToWord(ws);
      (forall j, c :: 0 <= j < |ws| && 0 <= c < |ws[j].word| ==>
         CharPos(ws, 0, j, c) < |text| && text[CharPos(ws, 0, j, c)] == ws[j].word[c]
         && m[CharPos(ws, 0, j, c)] == j)
      && (forall j :: 0 <= j < |ws| - 1 ==>
         CharPos(ws, 0, j, |ws[j].word|) < |text| && text[CharPos(ws, 0, j, |ws[j].word|)] == ' '
         && m[CharPos(ws, 0, j, |ws[j].word|)] == j)
  {
    TranscriptLayoutFrom(ws, 0);
    assert WordTexts(ws)[0..] == WordTexts(ws);
    assert LaidOut(ws, 0, FullText(ws));
  }

  // ---------------------------------------------------------------------
  // Fuzzy search
  // ---------------------------------------------------------------------

  /** A similarity score between two strings: difflib's ratio of the two
      after each is lower-cased with `str.lower`. Both steps are left to the
      parameter, so no character table is assumed. */
  type Ratio = (string, string) -> real

  /** Python's `range(lo, hi, step)` for a positive step. */
  function PyRange(lo: int, hi: int, step: nat): (r: seq<int>)
    requires step > 0
    ensures forall k :: 0 <= k < |r| ==> lo <= r[k] < hi
    ensures forall k :: 0 <= k < |r| ==> r[k] == lo + k * step
    decreases hi - lo
  {
    if lo >= hi then [] else [lo] + PyRange(lo + step, hi, step)
  }

  /** The window offsets the fuzzy search visits in `area`. */
  function Windows(area: string, needle: string): seq<int>
  {
    PyRange(0, |area| - |needle| + 1, Max(1, |needle| / 4))
  }

  /** Score of each visited window: the case-insensitive similarity of the
      needle and the needle-sized window at that offset. */
  function Scores(ratio: Ratio, area: string, needle: string): (sc: seq<real>)
    ensures |sc| == |Windows(area, needle)|
    ensures forall k :: 0 <= k < |sc| ==>
      var w := Windows(area, needle)[k];
      0 <= w && w + |needle| <= |area| && sc[k] == ratio(needle, area[w..w + |needle|])
  {
    var ws := Windows(area, needle);
    seq(|ws|, k requires 0 <= k < |ws| => ratio(needle, area[ws[k]..ws[k] + |needle|]))
  }

  /** The best-so-far loop over `scores[k..]`: the result is the first index
      of a strictly greatest score above the starting best, or -1 when none
      beats it. */
  function ScanBest(scores: seq<real>, k: nat, best: real, bestIdx: int): (r: (real, int))
    requires k <= |scores|
    requires bestIdx == -1 || (0 <= bestIdx < k && scores[bestIdx] == best)
    requires forall j :: 0 <= j < k ==> scores[j] <= best
    requires forall j :: 0 <= j < bestIdx ==> scores[j] < best
    ensures best <= r.0
    ensures r.1 == -1 ==> r.0 == best && bestIdx == -1
    ensures r.1 != -1 ==> 0 <= r.1 < |scores| && scores[r.1] == r.0
    ensures forall j :: 0 <= j < |scores| ==> scores[j] <= r.0
    ensures forall j :: 0 <= j < r.1 ==> scores[j] < r.0
    decreases |scores| - k
  {
    if k == |scores| then (best, bestIdx)
    else if scores[k] > best then ScanBest(scores, k + 1, scores[k], k)
    else ScanBest(scores, k + 1, best, bestIdx)
  }

  /** The acceptance threshold of the fuzzy match. */
  const FuzzyThreshold: real := 0.6

  /** `_fuzzy_find`: slides a needle-sized window over `haystack[start:]` in
      steps of a quarter of the needle (at least 1) and returns the absolute
      position of the first best-scoring window when that score reaches the
      threshold, else -1. */
  function FuzzyFind(ratio: Ratio, haystack: string, needle: string, start: nat): (r: int)
    ensures r == -1 || (start <= r && r + |needle| <= |haystack|)
    ensures (start >= |haystack| || needle == "") ==> r == -1
    ensures start < |haystack| && needle != "" ==>
      var area := haystack[start..];
      var ws := Windows(area, needle);
      var sc := Scores(ratio, area, needle);
      (r == -1 <==> forall j :: 0 <= j < |sc| ==> sc[j] < FuzzyThreshold)
      && (r != -1 ==> exists k :: (0 <= k < |ws| && r == start + ws[k] && FuzzyThreshold <= sc[k]
            && (forall j :: 0 <= j < |sc| ==> sc[j] <= sc[k])
            && (forall j :: 0 <= j < k ==> sc[j] < sc[k])))
  {
    var area := if start < |haystack| then haystack[start..] else "";
    if area == "" || needle == "" then -1
    else
      var ws := Windows(area, needle);
      var res := ScanBest(Scores(ratio, area, needle), 0, 0.0, -1);
      if res.0 >= FuzzyThreshold then
        start + ws[res.1]
      else -1
  }

  // ---------------------------------------------------------------------
  // Segments to times
  // ---------------------------------------------------------------------

  /** Where the segment is placed: the first exact occurrence at or after the
      cursor, else the fuzzy match, else -1. */
  function Locate(ratio: Ratio, text: string, seg: string, cursor: nat): (idx: int)
    ensures idx == -1 || (cursor <= idx && idx + |seg| <= |text|)
    ensures Find(text, seg, cursor) != -1 ==> idx == Find(text, seg, cursor)
    ensures (exists j :: cursor <= j && MatchAt(text, seg, j)) ==> MatchAt(text, seg, idx)
  {
    var e := Find(text, seg, cursor);
    if e != -1 then e else FuzzyFind(ratio, text, seg, cursor)
  }

  /** Alignment state: timings emitted so far and the search cursor. */
  datatype AlignState = AlignState(results: seq<SegmentTiming>, cursor: nat)

  /** End of the previous timing, or 0.0 before the first. */
  function LastEnd(results: seq<SegmentTiming>): real {
    if |results| == 0 then 0.0 else results[|results| - 1].endTime
  }

  /** The share of the remaining audio a fallback segment receives: its
      length over the untouched transcript length (at least 1). When
      `clamped`, the share is capped at the whole remainder. */
  function FallbackShare(segLen: nat, textLen: nat, cursor: nat, clamped: bool): (p: real)
    ensures p >= 0.0
    ensures clamped ==> p <= 1.0
  {
    var share := segLen as real / Max(textLen - cursor, 1) as real;
    if clamped && share > 1.0 then 1.0 else share
  }

  /** The timing of a segment found at `idx`: from the start of the word
      holding its first character to the end of the word holding its last
      character, plus the silence before the next word up to 0.3 s, with a
      duration of at least 0.1 s. */
  function MatchedTiming(ws: seq<WordAlignment>, c2w: seq<nat>, idx: nat, segLen: nat): (t: SegmentTiming)
    requires |c2w| > 0 && forall i :: 0 <= i < |c2w| ==> c2w[i] < |ws|
    requires segLen > 0
    ensures var s := c2w[Min(idx, |c2w| - 1)];
      var e := c2w[Min(idx + segLen - 1, |c2w| - 1)];
      t.startTime == ws[s].startTime
      && t.endTime == ws[e].endTime + (if e + 1 < |ws| then MinR(ws[e + 1].startTime - ws[e].endTime, 0.3) else 0.0)
      && (e + 1 < |ws| ==> t.endTime <= ws[e + 1].startTime && t.endTime <= ws[e].endTime + 0.3)
    ensures t.duration == MaxR(t.endTime - t.startTime, 0.1)
    ensures t.duration >= 0.1 && t.duration >= t.endTime - t.startTime
  {
    var startWord := c2w[Min(idx, |c2w| - 1)];
    var endWord := c2w[Min(idx + segLen - 1, |c2w| - 1)];
    var startTime := ws[startWord].startTime;
    var endTime0 := ws[endWord].endTime;
    var endTime := if endWord + 1 < |ws| then endTime0 + MinR(ws[endWord + 1].startTime - endTime0, 0.3) else endTime0;
    SegmentTiming(startTime, endTime, MaxR(endTime - startTime, 0.1))
  }

  /** One iteration of the segment loop. Blank segments are skipped; every
      other segment appends exactly one timing and moves the cursor strictly
      forward; an unplaceable segment starts where the previous timing ended. */
  function AlignOne(ratio: Ratio, ws: seq<WordAlignment>, clamped: bool, st: AlignState, segment: string)
    : (st': AlignState)
    requires |ws| > 0
    ensures Strip(segment) == "" ==> st' == st
    ensures Strip(segment) != "" ==>
      |st'.results| == |st.results| + 1 && st'.results[..|st.results|] == st.results
      && st'.cursor > st.cursor
    ensures Strip(segment) != "" ==>
      var seg := Strip(segment);
      var idx := Locate(ratio, FullText(ws), seg, st.cursor);
      var t := st'.results[|st.results|];
      (idx != -1 ==> t == MatchedTiming(ws, CharToWord(ws), idx, |seg|) && st'.cursor == idx + |seg|)
      && (idx == -1 ==>
            t.startTime == LastEnd(st.results) && st'.cursor == st.cursor + |seg|
            && t.endTime == t.startTime + t.duration
            && t.duration == (ws[|ws| - 1].endTime - LastEnd(st.results))
                             * FallbackShare(|seg|, |FullText(ws)|, st.cursor, clamped))
  {
    var seg := Strip(segment);
    if seg == "" then st
    else
      var text := FullText(ws);
      var idx := Locate(ratio, text, seg, st.cursor);
      if idx == -1 then
        var lastEnd := LastEnd(st.results);
        var remaining := ws[|ws| - 1].endTime - lastEnd;
        var dur := remaining * FallbackShare(|seg|, |text|, st.cursor, clamped);
        AlignState(st.results + [SegmentTiming(lastEnd, lastEnd + dur, dur)], st.cursor + |seg|)
      else
        var c2w := CharToWord(ws);
        var t := MatchedTiming(ws, c2w, idx, |seg|);
        AlignState(st.results + [t], idx + |seg|)
  }

  function AlignFrom(ratio: Ratio, ws: seq<WordAlignment>, clamped: bool, st: AlignState, segments: seq<string>)
    : AlignState
    requires |ws| > 0
    decreases |segments|
  {
    if |segments| == 0 then st
    else AlignFrom(ratio, ws, clamped, AlignOne(ratio, ws, clamped, st, segments[0]), segments[1..])
  }

  /** Number of segments that are not blank after stripping. */
  function NonBlank(segments: seq<string>): nat
  {
    if |segments| == 0 then 0
    else (if Strip(segments[0]) != "" then 1 else 0) + NonBlank(segments[1..])
  }

  /** The loop emits one timing per non-blank segment, keeps what was
      emitted before, and never moves the cursor backwards. */
  lemma {:induction false} AlignFromCount(ratio: Ratio, ws: seq<WordAlignment>, clamped: bool, st: AlignState, segments: seq<string>)
    requires |ws| > 0
    decreases |segments|
    ensures var st' := AlignFrom(ratio, ws, clamped, st, segments);
      |st'.results| == |st.results| + NonBlank(segments)
      && st'.results[..|st.results|] == st.results
      && st'.cursor >= st.cursor
  {
    if |segments| > 0 {
      var mid := AlignOne(ratio, ws, clamped, st, segments[0]);
      AlignFromCount(ratio, ws, clamped, mid, segments[1..]);
      var st' := AlignFrom(ratio, ws, clamped, mid, segments[1..]);
      assert st'.results[..|st.results|] == st'.results[..|mid.results|][..|st.results|];
    }
  }

  /** `align_segments_to_words` with the proportional fallback as written
      (`clamped` false) or with its share capped at the remainder. */
  function AlignSegmentsWith(ratio: Ratio, segments: seq<string>, ws: seq<WordAlignment>, clamped: bool)
    : (r: seq<SegmentTiming>)
    ensures ws == [] ==> r == []
    ensures ws != [] ==> |r| == NonBlank(segments)
    ensures |r| <= |segments|
  {
    if |ws| == 0 then []
    else
      AlignFromCount(ratio, ws, clamped, AlignState([], 0), segments);
      NonBlankBound(segments);
      AlignFrom(ratio, ws, clamped, AlignState([], 0), segments).results
  }

  lemma {:induction false} NonBlankBound(segments: seq<string>)
    ensures NonBlank(segments) <= |segments|
  {
    if |segments| > 0 {
      NonBlankBound(segments[1..]);
    }
  }

  /** `align_segments_to_words`: no words give no timings; otherwise one
      timing per non-blank segment, in segment order. */
  function AlignSegments(ratio: Ratio, segments: seq<string>, ws: seq<WordAlignment>)
    : (r: seq<SegmentTiming>)
    ensures ws == [] ==> r == []
    ensures ws != [] ==> |r| == NonBlank(segments)
    ensures |r| <= |segments|
  {
    AlignSegmentsWith(ratio, segments, ws, false)
  }

  /** `align_segments_to_words` with the fallback share capped at 1: the
      corrected rule, which keeps a fallback timing inside the audio. */
  function AlignSegmentsCapped(ratio: Ratio, segments: seq<string>, ws: seq<WordAlignment>)
    : (r: seq<SegmentTiming>)
    ensures ws == [] ==> r == []
    ensures ws != [] ==> |r| == NonBlank(segments)
  {
    AlignSegmentsWith(ratio, segments, ws, true)
  }

  /** As written, a fallback segment longer than the untouched transcript
      runs past the end of the audio: one word "hi" ending at 1.0 s and a
      segment "zzzzzz" that neither occurs nor fits a fuzzy window is given
      the span 0.0 .. 3.0. */
  lemma FallbackOvershoots(ratio: Ratio)
    ensures var ws := [WordAlignment("hi", 0.0, 1.0)];
      AlignSegments(ratio, ["zzzzzz"], ws) == [SegmentTiming(0.0, 3.0, 3.0)]
      && 3.0 > ws[|ws| - 1].endTime
  {
    var ws := [WordAlignment("hi", 0.0, 1.0)];
    assert WordTexts(ws) == ["hi"];
    assert FullText(ws) == "hi";
    assert Strip("zzzzzz") == "zzzzzz" by {
      assert SkipSpaces("zzzzzz", 0) == 0;
      assert BackSpaces("zzzzzz", 0, 6) == 6;
    }
    assert Find("hi", "zzzzzz", 0) == -1;
    assert FuzzyFind(ratio, "hi", "zzzzzz", 0) == -1;
    var st := AlignOne(ratio, ws, false, AlignState([], 0), "zzzzzz");
    assert st.results == [SegmentTiming(0.0, 3.0, 3.0)];
    assert ["zzzzzz"][1..] == [];
  }

  /** With the share capped, a fallback timing that starts inside the audio
      ends inside it too. */
  lemma FallbackStaysInsideAudio(ratio: Ratio, ws: seq<WordAlignment>, st: AlignState, segment: string)
    requires |ws| > 0 && Strip(segment) != ""
    requires Locate(ratio, FullText(ws), Strip(segment), st.cursor) == -1
    requires LastEnd(st.results) <= ws[|ws| - 1].endTime
    ensures var t := AlignOne(ratio, ws, true, st, segment).results[|st.results|];
      LastEnd(st.results) <= t.startTime && t.endTime <= ws[|ws| - 1].endTime
  {
    var seg := Strip(segment);
    var p := FallbackShare(|seg|, |FullText(ws)|, st.cursor, true);
    var remaining := ws[|ws| - 1].endTime - LastEnd(st.results);
    var st' := AlignOne(ratio, ws, true, st, segment);
    var t := st'.results[|st.results|];
    assert t.duration == remaining * p;
    ShareOfRemainder(remaining, p);
    assert t.endTime == LastEnd(st.results) + remaining * p;
  }

  lemma ShareOfRemainder(remaining: real, p: real)
    requires remaining >= 0.0 && 0.0 <= p <= 1.0
    ensures 0.0 <= remaining * p <= remaining
  {
  }
}

/** The handful of Python `str` operations the pipelines rely on, with the
    semantics CPython gives them on the characters modelled here. */
module PyText {

  /** Characters `str.isspace()` accepts among ASCII, plus NEL and NBSP. */
  predicate IsSpace(c: char) {
    c == ' ' || c == '\t' || c == '\n' || c == '\r' || c == '\U{000B}' || c == '\U{000C}'
    || ('\U{001C}' <= c <= '\U{001F}') || c == '\U{0085}' || c == '\U{00A0}'
  }

  predicate NoSpace(s: string) {
    forall i :: 0 <= i < |s| ==> !IsSpace(s[i])
  }

  predicate AllSpace(s: string) {
    forall i :: 0 <= i < |s| ==> IsSpace(s[i])
  }

  /** Index of the first non-whitespace character at or after `i`, or `|s|`. */
  function SkipSpaces(s: string, i: nat): (n: nat)
    requires i <= |s|
    ensures i <= n <= |s|
    ensures forall j :: i <= j < n ==> IsSpace(s[j])
    ensures n < |s| ==> !IsSpace(s[n])
    decreases |s| - i
  {
    if i < |s| && IsSpace(s[i]) then SkipSpaces(s, i + 1) else i
  }

  /** Index just past the last non-whitespace character of `s[lo..hi]`, or
      `lo` when that slice is blank. */
  function BackSpaces(s: string, lo: nat, hi: nat): (n: nat)
    requires lo <= hi <= |s|
    ensures lo <= n <= hi
    ensures forall j :: n <= j < hi ==> IsSpace(s[j])
    ensures n > lo ==> !IsSpace(s[n - 1])
    decreases hi - lo
  {
    if lo < hi && IsSpace(s[hi - 1]) then BackSpaces(s, lo, hi - 1) else hi
  }

  /** Number of leading whitespace characters `s.lstrip()` removes. */
  function Lead(s: string): (a: nat)
    ensures a <= |s|
  {
    SkipSpaces(s, 0)
  }

  /** `s.lstrip()`: drops the leading whitespace run. */
  function LStrip(s: string): (r: string)
    ensures |r| <= |s| && r == s[Lead(s)..]
    ensures forall j :: 0 <= j < Lead(s) ==> IsSpace(s[j])
    ensures |r| > 0 ==> !IsSpace(r[0])
  {
    s[SkipSpaces(s, 0)..]
  }

  /** `s.strip()`: the longest slice of `s` that neither starts nor ends with
      whitespace, everything outside it being whitespace. */
  function Strip(s: string): (r: string)
    ensures |r| <= |s|
    ensures |r| > 0 ==> !IsSpace(r[0]) && !IsSpace(r[|r| - 1])
    ensures r == "" <==> AllSpace(s)
    ensures var a := Lead(s);
      (a + |r| <= |s| && r == s[a..a + |r|]
      && (forall j :: 0 <= j < a ==> IsSpace(s[j]))
      && (forall j :: a + |r| <= j < |s| ==> IsSpace(s[j])))
  {
    var a := SkipSpaces(s, 0);
    var b := BackSpaces(s, a, |s|);
    assert b > a ==> s[a..b][0] == s[a];
    s[a..b]
  }

  /** Stripping is idempotent. */
  lemma StripIdempotent(s: string)
    ensures Strip(Strip(s)) == Strip(s)
  {
    var t := Strip(s);
    if |t| > 0 {
      assert SkipSpaces(t, 0) == 0;
      assert BackSpaces(t, 0, |t|) == |t|;
    }
  }

  /** `sep.join(parts)`. */
  function Join(sep: string, parts: seq<string>): string
  {
    if |parts| == 0 then ""
    else if |parts| == 1 then parts[0]
    else parts[0] + sep + Join(sep, parts[1..])
  }

  function TotalLen(parts: seq<string>): nat
  {
    if |parts| == 0 then 0 else |parts[0]| + TotalLen(parts[1..])
  }

  /** The joined text is every part plus one separator between neighbours. */
  lemma {:induction false} JoinLength(sep: string, parts: seq<string>)
    requires |parts| > 0
    ensures |Join(sep, parts)| == TotalLen(parts) + (|parts| - 1) * |sep|
  {
    if |parts| > 1 {
      JoinLength(sep, parts[1..]);
    }
  }

  /** Appending a part appends the separator and the part. */
  lemma {:induction false} JoinSnoc(sep: string, parts: seq<string>, x: string)
    requires |parts| > 0
    ensures Join(sep, parts + [x]) == Join(sep, parts) + sep + x
    decreases |parts|
  {
    var ys := parts + [x];
    assert ys[1..] == parts[1..] + [x];
    if |parts| > 1 {
      JoinSnoc(sep, parts[1..], x);
    }
  }

  /** Concatenation without separator grows by the appended part. */
  lemma ConcatSnoc(parts: seq<string>, x: string)
    ensures Join("", parts + [x]) == Join("", parts) + x
  {
    if |parts| == 0 {
      assert parts + [x] == [x];
    } else {
      JoinSnoc("", parts, x);
    }
  }

  /** Position `i` of `h` starts an occurrence of `n`. */
  predicate MatchAt(h: string, n: string, i: int) {
    0 <= i && i + |n| <= |h| && h[i..i + |n|] == n
  }

  /** `h.find(n, start)`: the lowest index at or after `start` where `n`
      occurs, or -1. */
  function Find(h: string, n: string, start: nat): (r: int)
    ensures r == -1 || (start <= r && MatchAt(h, n, r))
    ensures r == -1 ==> forall i :: start <= i ==> !MatchAt(h, n, i)
    ensures r != -1 ==> forall i :: start <= i < r ==> !MatchAt(h, n, i)
    decreases |h| - start
  {
    if start + |n| > |h| then -1
    else if h[start..start + |n|] == n then start
    else Find(h, n, start + 1)
  }

  ghost predicate Contains(h: string, n: string) {
    exists i :: MatchAt(h, n, i)
  }

  /** `s.split(sep)` for a non-empty separator: pieces between the
      left-to-right, non-overlapping occurrences of `sep`. Joining the pieces
      back with `sep` restores `s`, and no piece contains `sep`. */
  function SplitOn(s: string, sep: string): (parts: seq<string>)
    requires |sep| > 0
    ensures |parts| >= 1
    ensures Join(sep, parts) == s
    ensures forall k :: 0 <= k < |parts| ==> !Contains(parts[k], sep)
    decreases |s|
  {
    var i := Find(s, sep, 0);
    if i == -1 then
      [s]
    else
      var head := s[..i];
      var rest := SplitOn(s[i + |sep|..], sep);
      assert !Contains(head, sep) by {
        forall j | MatchAt(head, sep, j) ensures false {
          assert head[j..j + |sep|] == s[j..j + |sep|];
          assert MatchAt(s, sep, j);
        }
      }
      assert s == head + sep + s[i + |sep|..];
      [head] + rest
  }

  /** `s.split()`: the maximal runs of non-whitespace characters. */
  function SplitWs(s: string): (ws: seq<string>)
    ensures forall k :: 0 <= k < |ws| ==> |ws[k]| > 0 && NoSpace(ws[k])
    ensures |ws| == 0 <==> AllSpace(s)
    decreases |s|
  {
    var t := LStrip(s);
    if t == "" then []
    else
      var n := WordLen(t);
      assert !AllSpace(s) by {
        assert s[|s| - |t|] == t[0];
      }
      [t[..n]] + SplitWs(t[n..])
  }

  /** Length of the leading non-whitespace run of `t`. */
  function WordLen(t: string): (n: nat)
    ensures n <= |t|
    ensures NoSpace(t[..n])
    ensures n < |t| ==> IsSpace(t[n])
    ensures |t| > 0 && !IsSpace(t[0]) ==> n > 0
  {
    if |t| == 0 || IsSpace(t[0]) then 0
    else
      var m := WordLen(t[1..]);
      assert t[..1 + m] == [t[0]] + t[1..][..m];
      1 + m
  }

  /** `" ".join(s.split())`: whitespace runs collapsed to one space. The
      result has no whitespace except single separating spaces, and is empty
      exactly when `s` is blank. */
  function CollapseSpaces(s: string): (r: string)
    ensures r == "" <==> AllSpace(s)
    ensures |r| > 0 ==> !IsSpace(r[0]) && !IsSpace(r[|r| - 1])
    ensures forall i :: 0 <= i < |r| && IsSpace(r[i]) ==> r[i] == ' ' && 0 < i < |r| - 1 && !IsSpace(r[i + 1])
  {
    JoinSingleSpaced(SplitWs(s))
  }

  /** Joining space-free non-empty words with " " yields text whose only
      whitespace is single interior spaces. */
  function JoinSingleSpaced(ws: seq<string>): (r: string)
    requires forall k :: 0 <= k < |ws| ==> |ws[k]| > 0 && NoSpace(ws[k])
    ensures r == Join(" ", ws)
    ensures r == "" <==> |ws| == 0
    ensures |r| > 0 ==> !IsSpace(r[0]) && !IsSpace(r[|r| - 1])
    ensures forall i :: 0 <= i < |r| && IsSpace(r[i]) ==> r[i] == ' ' && 0 < i < |r| - 1 && !IsSpace(r[i + 1])
  {
    if |ws| == 0 then ""
    else if |ws| == 1 then
      assert NoSpace(ws[0]);
      assert !IsSpace(ws[0][0]);
      ws[0]
    else
      var w := ws[0];
      assert NoSpace(w);
      var rest := JoinSingleSpaced(ws[1..]);
      assert NoSpace(ws[1..][0]);
      var r := w + " " + rest;
      assert forall i :: 0 <= i < |w| ==> r[i] == w[i];
      forall i | 0 <= i < |r| && IsSpace(r[i])
        ensures r[i] == ' ' && 0 < i < |r| - 1 && !IsSpace(r[i + 1])
      {
        if i > |w| {
          assert r[i] == rest[i - |w| - 1];
          assert r[i + 1] == rest[i - |w|];
        } else if i == |w| {
          assert r[i + 1] == rest[0];
        }
      }
      assert r[0] == w[0];
      assert r[|r| - 1] == rest[|rest| - 1];
      r
  }

  /** ASCII `str.lower()`. */
  function LowerChar(c: char): char {
    if 'A' <= c <= 'Z' then (c as int - 'A' as int + 'a' as int) as char else c
  }

  function Lower(s: string): (r: string)
    ensures |r| == |s|
    ensures forall i :: 0 <= i < |s| ==> r[i] == LowerChar(s[i])
  {
    seq(|s|, i requires 0 <= i < |s| => LowerChar(s[i]))
  }

  /** `s.replace(a, b)` for single characters. */
  function ReplaceChar(s: string, a: char, b: char): (r: string)
    ensures |r| == |s|
    ensures forall i :: 0 <= i < |s| ==> r[i] == (if s[i] == a then b else s[i])
  {
    seq(|s|, i requires 0 <= i < |s| => if s[i] == a then b else s[i])
  }

  /** `s[:n]` for a non-negative `n`. */
  function Take<T>(s: seq<T>, n: nat): (r: seq<T>)
    ensures |r| == if n < |s| then n else |s|
    ensures r == s[..|r|]
  {
    if n < |s| then s[..n] else s
  }
}

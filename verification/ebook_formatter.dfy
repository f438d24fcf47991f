/** The ebook renderers' selection logic (`ebook_formatter`): which
    chapters are rendered and under which number, which image a chapter
    shows, the image data URIs (the `data:` URL form of section 2 of
    RFC 2397, with base64 of section 4 of RFC 4648 as an abstract encoder),
    the file-name-safe title and the DOCX paragraph split. The HTML, PDF and
    DOCX emission itself is not modelled. */
module EbookFormatter {
  import opened Wrappers
  import opened PyText
  import opened Media
  import opened Ebook

  // ---------------------------------------------------------------------
  // Safe title
  // ---------------------------------------------------------------------

  /** `str.isalnum`: Unicode letters and digits. Which characters count is
      Python's own table, so the model takes it as a parameter. */
  type AlnumTable = char -> bool

  /** The characters a file-name title keeps. */
  predicate TitleChar(isAlnum: AlnumTable, c: char) {
    isAlnum(c) || c == ' ' || c == '_' || c == '-'
  }

  predicate SafeText(isAlnum: AlnumTable, s: string) {
    forall i :: 0 <= i < |s| ==> TitleChar(isAlnum, s[i])
  }

  /** The kept characters of `s`, in order. */
  function KeepTitleChars(isAlnum: AlnumTable, s: string): (r: string)
    ensures SafeText(isAlnum, r) && |r| <= |s|
    ensures SafeText(isAlnum, s) ==> r == s
    ensures forall c :: c in r <==> c in s && TitleChar(isAlnum, c)
  {
    if |s| == 0 then ""
    else
      var rest := KeepTitleChars(isAlnum, s[1..]);
      assert s == [s[0]] + s[1..];
      if TitleChar(isAlnum, s[0]) then [s[0]] + rest else rest
  }

  /** `safe_title`: the kept characters, cut to 50. */
  function SafeTitle(isAlnum: AlnumTable, title: string): (r: string)
    ensures SafeText(isAlnum, r) && |r| <= 50 && |r| <= |KeepTitleChars(isAlnum, title)|
    ensures r == KeepTitleChars(isAlnum, title)[..|r|]
    ensures |KeepTitleChars(isAlnum, title)| <= 50 ==> r == KeepTitleChars(isAlnum, title)
  {
    Take(KeepTitleChars(isAlnum, title), 50)
  }

  /** A safe title is its own safe title: the filter only ever removes
      what it must, and a title already within the rules is kept whole. */
  lemma SafeTitleIdempotent(isAlnum: AlnumTable, title: string)
    ensures SafeTitle(isAlnum, SafeTitle(isAlnum, title)) == SafeTitle(isAlnum, title)
    ensures SafeText(isAlnum, title) && |title| <= 50 ==> SafeTitle(isAlnum, title) == title
  {
  }

  /** The rendered file's name: safe title, timestamp, extension. */
  function OutputName(isAlnum: AlnumTable, title: string, timestamp: string, extension: string): Path {
    SafeTitle(isAlnum, title) + "_" + timestamp + "." + extension
  }

  // ---------------------------------------------------------------------
  // Image data URIs
  // ---------------------------------------------------------------------

  /** The text after the last '/' of a path (all of it when there is none). */
  function LastComponent(p: Path): (r: string)
    ensures '/' !in r
    ensures |r| <= |p| && r == p[|p| - |r|..]
    ensures |r| < |p| ==> p[|p| - |r| - 1] == '/'
    decreases |p|
  {
    if |p| == 0 then ""
    else if p[|p| - 1] == '/' then ""
    else
      var r := LastComponent(p[..|p| - 1]);
      assert p[..|p| - 1][|p| - 1 - |r|..] == p[|p| - 1 - |r|..|p| - 1];
      r + [p[|p| - 1]]
  }

  /** `r` is a whole '/'-separated component of `p`, starting at `k`. */
  predicate ComponentAt(p: Path, k: nat, r: string) {
    k + |r| <= |p| && p[k..k + |r|] == r
    && (k == 0 || p[k - 1] == '/') && (k + |r| == |p| || p[k + |r|] == '/')
  }

  /** `PurePath.name`: the last component once pathlib has dropped the
      empty and "." components that repeated or trailing slashes and "./"
      leave; "" when nothing is left. */
  function BaseName(p: Path): (r: string)
    ensures '/' !in r && r != "."
    ensures r != "" ==> exists k :: ComponentAt(p, k, r)
    decreases |p|
  {
    var tail := LastComponent(p);
    if tail != "" && tail != "." then
      assert ComponentAt(p, |p| - |tail|, tail);
      tail
    else if |tail| == |p| then ""
    else
      var r := BaseName(p[..|p| - |tail| - 1]);
      SliceOfPrefix(p, |p| - |tail| - 1, r);
      r
  }

  /** A component of the part before a '/' is a component of the whole. */
  lemma SliceOfPrefix(p: Path, n: nat, r: string)
    requires n < |p| && p[n] == '/'
    requires r != "" ==> exists k :: ComponentAt(p[..n], k, r)
    ensures r != "" ==> exists k :: ComponentAt(p, k, r)
  {
    if r != "" {
      var k: nat :| ComponentAt(p[..n], k, r);
      assert p[k..k + |r|] == p[..n][k..k + |r|];
      assert ComponentAt(p, k, r);
    }
  }

  /** A trailing slash, or a trailing "/.", does not change the name. */
  lemma BaseNameIgnoresTrailing(p: Path)
    ensures BaseName(p + "/") == BaseName(p)
    ensures BaseName(p + "/.") == BaseName(p)
  {
    assert LastComponent(p + "/") == "";
    assert (p + "/")[..|p|] == p;
    var q := p + "/.";
    assert LastComponent(q) == LastComponent(q[..|q| - 1]) + ".";
    assert q[..|q| - 1] == p + "/";
    assert q[..|p|] == p;
  }

  /** A last component that is neither empty nor "." is the name. */
  lemma BaseNameOfComponent(dir: Path, c: string)
    requires c != "" && c != "." && '/' !in c
    ensures BaseName(dir + "/" + c) == c
  {
    LastComponentOf(dir + "/", c);
  }

  lemma {:induction false} LastComponentOf(dir: Path, c: string)
    requires '/' !in c && (dir == "" || dir[|dir| - 1] == '/')
    ensures LastComponent(dir + c) == c
    decreases |c|
  {
    if |c| == 0 {
      assert dir + c == dir;
    } else {
      var q := dir + c;
      assert q[|q| - 1] == c[|c| - 1] && c[|c| - 1] != '/';
      assert q[..|q| - 1] == dir + c[..|c| - 1];
      LastComponentOf(dir, c[..|c| - 1]);
      assert c[..|c| - 1] + [c[|c| - 1]] == c;
    }
  }

  /** The last index of `c` in `s`, or -1. */
  function RFind(s: string, c: char): (i: int)
    ensures -1 <= i < |s|
    ensures i >= 0 ==> s[i] == c && forall j :: i < j < |s| ==> s[j] != c
    ensures i == -1 ==> c !in s
  {
    if |s| == 0 then -1
    else if s[|s| - 1] == c then |s| - 1
    else RFind(s[..|s| - 1], c)
  }

  /** `Path.suffix`: from the last dot of the file name on, unless that dot
      is the name's first or last character. */
  function Suffix(p: Path): (r: string)
    ensures r == "" || (r[0] == '.' && |r| >= 2 && '.' !in r[1..] && '/' !in r)
  {
    NameSuffix(BaseName(p))
  }

  /** The suffix of a file name. */
  function NameSuffix(name: string): (r: string)
    requires '/' !in name
    ensures r == "" || (r[0] == '.' && |r| >= 2 && '.' !in r[1..] && '/' !in r)
  {
    var i := RFind(name, '.');
    if 0 < i < |name| - 1 then
      name[i..]
    else ""
  }

  /** A directory-style path keeps its file's suffix, as pathlib reads
      it: "dir/x.jpg/" is typed like "dir/x.jpg". */
  lemma SuffixIgnoresTrailingSlash(p: Path)
    ensures Suffix(p + "/") == Suffix(p)
    ensures Suffix(p + "/.") == Suffix(p)
  {
    BaseNameIgnoresTrailing(p);
    assert Suffix(p + "/") == NameSuffix(BaseName(p + "/"));
    assert Suffix(p + "/.") == NameSuffix(BaseName(p + "/."));
  }

  /** The MIME type of a lower-cased suffix, `image/png` for any other. */
  function MimeOf(suffix: string): (m: string)
    ensures m in {"image/png", "image/jpeg", "image/gif", "image/webp"}
    ensures suffix == ".jpg" || suffix == ".jpeg" ==> m == "image/jpeg"
    ensures suffix !in {".png", ".jpg", ".jpeg", ".gif", ".webp"} ==> m == "image/png"
  {
    if suffix == ".png" then "image/png"
    else if suffix == ".jpg" || suffix == ".jpeg" then "image/jpeg"
    else if suffix == ".gif" then "image/gif"
    else if suffix == ".webp" then "image/webp"
    else "image/png"
  }

  /** The URI text: `data:<mime>;base64,<payload>`. */
  function DataUriText(mime: string, payload: string): string {
    "data:" + mime + ";base64," + payload
  }

  /** The URI reads back: the MIME type sits between `data:` and
      `;base64,`, and the payload is everything after that. */
  lemma DataUriReadBack(mime: string, payload: string)
    ensures var u := DataUriText(mime, payload);
      u[..5] == "data:" && u[5..5 + |mime|] == mime
      && u[5 + |mime|..13 + |mime|] == ";base64," && u[13 + |mime|..] == payload
  {
  }

  /** `_image_to_data_uri`: `None` for no path or a file that is missing or
      cannot be read; otherwise the data URI of its bytes, typed by its
      lower-cased suffix. `read` gives a file's bytes, `None` when the file
      is missing or unreadable; `b64` is the base64 encoder. */
  function ImageToDataUri(path: Option<Path>, read: Path -> Option<seq<bv8>>, b64: seq<bv8> -> string)
    : (r: Option<string>)
    ensures path.None? ==> r.None?
    ensures path.Some? && read(path.value).None? ==> r.None?
    ensures path.Some? && read(path.value).Some? ==>
      r == Some(DataUriText(MimeOf(Lower(Suffix(path.value))), b64(read(path.value).value)))
  {
    match path
    case None => None
    case Some(p) =>
      match read(p)
      case None => None
      case Some(data) => Some(DataUriText(MimeOf(Lower(Suffix(p))), b64(data)))
  }

  /** The chapter image: the URI of the first path that yields one. */
  function FirstUri(paths: seq<Path>, uri: Path -> Option<string>): (r: Option<string>)
    ensures r.None? <==> forall k :: 0 <= k < |paths| ==> uri(paths[k]).None?
    ensures r.Some? ==> exists k :: 0 <= k < |paths| && r == uri(paths[k])
                                    && forall j :: 0 <= j < k ==> uri(paths[j]).None?
  {
    if |paths| == 0 then None
    else if uri(paths[0]).Some? then
      uri(paths[0])
    else
      var rest := FirstUri(paths[1..], uri);
      assert forall k :: 1 <= k < |paths| ==> paths[k] == paths[1..][k - 1];
      if rest.Some? then
        var k :| 0 <= k < |paths[1..]| && rest == uri(paths[1..][k])
                  && forall j :: 0 <= j < k ==> uri(paths[1..][j]).None?;
        assert rest == uri(paths[k + 1]) && forall j :: 0 <= j < k + 1 ==> uri(paths[j]).None?;
        rest
      else rest
  }

  // ---------------------------------------------------------------------
  // Chapter selection
  // ---------------------------------------------------------------------

  /** One rendered chapter: its 1-based number in the book, title, image
      and sections. */
  datatype ChapterView = ChapterView(number: nat, title: string, imageUri: Option<string>,
                                     sections: seq<SectionContent>)

  /** The positions of the chapters that have something to render. */
  function RenderedPositions(chs: seq<ChapterState>): (ps: seq<nat>)
    ensures forall m :: 0 <= m < |ps| ==> ps[m] < |chs| && |Sections(chs[ps[m]])| > 0
    ensures forall m, m' :: 0 <= m < m' < |ps| ==> ps[m] < ps[m']
    ensures forall c :: 0 <= c < |chs| && |Sections(chs[c])| > 0 ==> c in ps
  {
    IndicesWhere(|chs|, (c: nat) => c < |chs| && |Sections(chs[c])| > 0, 0)
  }

  /** The chapters both renderers walk: those with edited or raw sections,
      in book order, each numbered by its position among all chapters. */
  function ChapterViews(chs: seq<ChapterState>, uri: Path -> Option<string>): (vs: seq<ChapterView>)
    ensures var ps := RenderedPositions(chs);
      |vs| == |ps|
      && forall m :: 0 <= m < |vs| ==>
           vs[m].number == ps[m] + 1
           && vs[m].title == chs[ps[m]].outline.chapterTitle
           && vs[m].sections == Sections(chs[ps[m]])
           && |vs[m].sections| > 0
           && vs[m].imageUri == FirstUri(chs[ps[m]].sectionImagePaths, uri)
  {
    var ps := RenderedPositions(chs);
    seq(|ps|, m requires 0 <= m < |ps| =>
      var ch := chs[ps[m]];
      ChapterView(ps[m] + 1, ch.outline.chapterTitle, FirstUri(ch.sectionImagePaths, uri), Sections(ch)))
  }

  /** Numbering survives skipped chapters: a chapter is rendered exactly
      when it has sections, and then under its own position plus one. */
  lemma ChapterNumbering(chs: seq<ChapterState>, uri: Path -> Option<string>, c: nat)
    requires c < |chs|
    ensures var vs := ChapterViews(chs, uri);
      (|Sections(chs[c])| > 0 <==> exists m :: 0 <= m < |vs| && vs[m].number == c + 1)
  {
    var vs := ChapterViews(chs, uri);
    var ps := RenderedPositions(chs);
    if |Sections(chs[c])| > 0 {
      var m :| 0 <= m < |ps| && ps[m] == c;
      assert vs[m].number == c + 1;
    }
  }

  /** The positions of the chapter images whose file exists. */
  function ExistsAt(paths: seq<Path>, exists_: Path -> bool): nat -> bool {
    (j: nat) => j < |paths| && exists_(paths[j])
  }

  /** The DOCX renderer's image loop from position `i` on: each path whose
      file exists is embedded, in order. Its result is `paths` read at the
      positions `IndicesWhere` finds for `ExistsAt`. */
  function DocxImagesFrom(paths: seq<Path>, exists_: Path -> bool, i: nat): (r: seq<Path>)
    requires i <= |paths|
    ensures var ps := IndicesWhere(|paths|, ExistsAt(paths, exists_), i);
      |r| == |ps| && forall m :: 0 <= m < |r| ==> r[m] == paths[ps[m]]
    decreases |paths| - i
  {
    if i == |paths| then []
    else
      var rest := DocxImagesFrom(paths, exists_, i + 1);
      if exists_(paths[i]) then
        assert ExistsAt(paths, exists_)(i);
        [paths[i]] + rest
      else
        assert !ExistsAt(paths, exists_)(i);
        rest
  }

  /** The DOCX renderer instead embeds every chapter image whose file
      exists, in order and as often as it is listed. */
  function DocxImages(paths: seq<Path>, exists_: Path -> bool): (r: seq<Path>)
    ensures var ps := IndicesWhere(|paths|, ExistsAt(paths, exists_), 0);
      |r| == |ps| && forall m :: 0 <= m < |r| ==> r[m] == paths[ps[m]]
    ensures forall p :: p in r <==> p in paths && exists_(p)
    ensures |r| <= |paths|
  {
    var r := DocxImagesFrom(paths, exists_, 0);
    DocxImagesMembers(paths, exists_, r);
    r
  }

  /** Reading `paths` at the existing positions yields exactly the listed
      paths whose file exists. */
  lemma DocxImagesMembers(paths: seq<Path>, exists_: Path -> bool, r: seq<Path>)
    requires var ps := IndicesWhere(|paths|, ExistsAt(paths, exists_), 0);
      |r| == |ps| && forall m :: 0 <= m < |r| ==> r[m] == paths[ps[m]]
    ensures forall p :: p in r <==> p in paths && exists_(p)
  {
    var ps := IndicesWhere(|paths|, ExistsAt(paths, exists_), 0);
    forall p | p in paths && exists_(p)
      ensures p in r
    {
      var c :| 0 <= c < |paths| && paths[c] == p;
      assert ExistsAt(paths, exists_)(c);
      var m :| 0 <= m < |ps| && ps[m] == c;
      assert r[m] == p;
    }
    forall p | p in r
      ensures p in paths && exists_(p)
    {
      var m :| 0 <= m < |r| && r[m] == p;
      assert ExistsAt(paths, exists_)(ps[m]);
    }
  }

  // ---------------------------------------------------------------------
  // Titles and paragraphs
  // ---------------------------------------------------------------------

  /** The cover title: the outline's when there is an outline, else the
      configured one; likewise the subtitle. */
  function BookTitle(s: EbookState): (t: string)
    ensures s.outline.None? ==> t == s.config.title
    ensures s.outline.Some? ==> t == s.outline.value.ebookTitle
  {
    match s.outline
    case Some(o) => o.ebookTitle
    case None => s.config.title
  }

  function BookSubtitle(s: EbookState): (t: string)
    ensures s.outline.None? ==> t == s.config.subtitle
    ensures s.outline.Some? ==> t == s.outline.value.ebookSubtitle
  {
    match s.outline
    case Some(o) => o.ebookSubtitle
    case None => s.config.subtitle
  }

  /** The positions of the pieces that are not blank once collapsed. */
  function NonBlankAt(parts: seq<string>): nat -> bool {
    (j: nat) => j < |parts| && CollapseSpaces(parts[j]) != ""
  }

  /** The paragraph loop from piece `i` on: each piece is whitespace-
      collapsed and kept when something is left, in order. Its result is
      the collapsed pieces at the positions `IndicesWhere` finds for
      `NonBlankAt`. */
  function CollapsedNonBlankFrom(parts: seq<string>, i: nat): (ps: seq<string>)
    requires i <= |parts|
    ensures var at := IndicesWhere(|parts|, NonBlankAt(parts), i);
      |ps| == |at| && forall m :: 0 <= m < |ps| ==> ps[m] == CollapseSpaces(parts[at[m]])
    decreases |parts| - i
  {
    if i == |parts| then []
    else
      var c := CollapseSpaces(parts[i]);
      var rest := CollapsedNonBlankFrom(parts, i + 1);
      if c == "" then
        assert !NonBlankAt(parts)(i);
        rest
      else
        assert NonBlankAt(parts)(i);
        [c] + rest
  }

  /** The non-blank pieces of `parts`, whitespace-collapsed, in order. */
  function CollapsedNonBlank(parts: seq<string>): (ps: seq<string>)
    ensures var at := IndicesWhere(|parts|, NonBlankAt(parts), 0);
      |ps| == |at| && forall m :: 0 <= m < |ps| ==> ps[m] == CollapseSpaces(parts[at[m]])
    ensures |ps| <= |parts|
    ensures forall k :: 0 <= k < |ps| ==> ps[k] != "" && ps[k] == CollapseSpaces(ps[k])
  {
    var ps := CollapsedNonBlankFrom(parts, 0);
    var at := IndicesWhere(|parts|, NonBlankAt(parts), 0);
    forall k | 0 <= k < |ps|
      ensures ps[k] != "" && ps[k] == CollapseSpaces(ps[k])
    {
      assert NonBlankAt(parts)(at[k]);
      CollapseIdempotent(parts[at[k]]);
    }
    ps
  }

  /** The DOCX paragraphs of a (markdown-stripped) text: split on blank
      lines, whitespace collapsed, empty results dropped. */
  function Paragraphs(text: string): (ps: seq<string>)
    ensures var parts := SplitOn(text, "\n\n");
      var at := IndicesWhere(|parts|, NonBlankAt(parts), 0);
      |ps| == |at| && forall m :: 0 <= m < |ps| ==> ps[m] == CollapseSpaces(parts[at[m]])
    ensures forall k :: 0 <= k < |ps| ==>
      ps[k] != "" && ps[k] == CollapseSpaces(ps[k]) && !IsSpace(ps[k][0]) && !IsSpace(ps[k][|ps[k]| - 1])
    ensures AllSpace(text) ==> ps == []
  {
    var parts := SplitOn(text, "\n\n");
    if AllSpace(text) then
      BlankJoinParts("\n\n", parts);
      BlankPieces(parts, 0);
      CollapsedNonBlank(parts)
    else CollapsedNonBlank(parts)
  }

  /** Collapsing twice is collapsing once. */
  lemma CollapseIdempotent(s: string)
    ensures CollapseSpaces(CollapseSpaces(s)) == CollapseSpaces(s)
  {
    var ws := SplitWs(s);
    SplitWsOfJoin(ws);
  }

  /** Splitting single-spaced words on whitespace gives the words back. */
  lemma {:induction false} SplitWsOfJoin(ws: seq<string>)
    requires forall k :: 0 <= k < |ws| ==> |ws[k]| > 0 && NoSpace(ws[k])
    ensures SplitWs(JoinSingleSpaced(ws)) == ws
  {
    if |ws| > 0 {
      var w := ws[0];
      assert |w| > 0 && NoSpace(w);
      var r := JoinSingleSpaced(ws);
      if |ws| == 1 {
        assert r == w;
        SplitWsOfOneWord(w);
      } else {
        var tl := ws[1..];
        assert forall k :: 0 <= k < |tl| ==> tl[k] == ws[k + 1];
        var rest := JoinSingleSpaced(tl);
        SplitWsOfJoin(tl);
        assert r == w + " " + rest;
        SplitWsCons(w, rest);
        assert [w] + tl == ws;
      }
    }
  }

  /** A word, one space and more text split into the word and the split
      of the rest. */
  lemma SplitWsCons(w: string, rest: string)
    requires |w| > 0 && NoSpace(w) && rest != "" && !IsSpace(rest[0])
    ensures SplitWs(w + " " + rest) == [w] + SplitWs(rest)
  {
    assert w + " " + rest == w + (" " + rest);
    WordLenPrefix(w, " " + rest);
    SplitWsOfWord(w, " " + rest);
    LStripOneSpace(rest);
    LStripNoLead(rest);
    SplitWsSame(" " + rest, rest);
  }

  /** A single word splits into itself. */
  lemma SplitWsOfOneWord(w: string)
    requires |w| > 0 && NoSpace(w)
    ensures SplitWs(w) == [w]
  {
    WordLenAll(w);
    assert w + "" == w;
    SplitWsOfWord(w, "");
  }

  /** A word that does not start with whitespace is split off first. */
  lemma SplitWsOfWord(w: string, tail: string)
    requires |w| > 0 && NoSpace(w) && WordLen(w + tail) == |w|
    ensures SplitWs(w + tail) == [w] + SplitWs(tail)
  {
    var s := w + tail;
    assert s[0] == w[0];
    LStripNoLead(s);
    assert s[..|w|] == w && s[|w|..] == tail;
  }

  /** Splitting depends only on the text after the leading whitespace. */
  lemma SplitWsSame(a: string, b: string)
    requires LStrip(a) == LStrip(b)
    ensures SplitWs(a) == SplitWs(b)
  {
  }

  /** Whitespace-free words are a whole word. */
  lemma {:induction false} WordLenAll(w: string)
    requires NoSpace(w)
    ensures WordLen(w) == |w|
    decreases |w|
  {
    if |w| > 0 {
      WordLenAll(w[1..]);
    }
  }

  /** A whitespace-free word followed by whitespace ends at the whitespace. */
  lemma {:induction false} WordLenPrefix(w: string, tail: string)
    requires NoSpace(w) && |tail| > 0 && IsSpace(tail[0])
    ensures WordLen(w + tail) == |w|
    decreases |w|
  {
    if |w| > 0 {
      assert (w + tail)[1..] == w[1..] + tail;
      WordLenPrefix(w[1..], tail);
    }
  }

  /** Text that does not start with whitespace is its own left strip. */
  lemma LStripNoLead(s: string)
    requires |s| > 0 && !IsSpace(s[0])
    ensures LStrip(s) == s
  {
  }

  /** One space before text that does not start with whitespace strips
      away exactly. */
  lemma LStripOneSpace(rest: string)
    requires rest == "" || !IsSpace(rest[0])
    ensures LStrip(" " + rest) == rest
  {
    var s := " " + rest;
    assert IsSpace(s[0]);
    assert SkipSpaces(s, 1) == 1 by {
      assert |s| == 1 || s[1] == rest[0];
    }
    assert s[1..] == rest;
  }

  /** The parts of blank joined text are blank. */
  lemma {:induction false} BlankJoinParts(sep: string, parts: seq<string>)
    requires AllSpace(Join(sep, parts))
    ensures forall k :: 0 <= k < |parts| ==> AllSpace(parts[k])
  {
    if |parts| > 1 {
      var j := Join(sep, parts);
      var tail := Join(sep, parts[1..]);
      assert j == parts[0] + sep + tail;
      assert forall i :: 0 <= i < |parts[0]| ==> parts[0][i] == j[i];
      assert forall i :: 0 <= i < |tail| ==> tail[i] == j[|parts[0]| + |sep| + i];
      BlankJoinParts(sep, parts[1..]);
      assert forall k :: 1 <= k < |parts| ==> parts[k] == parts[1..][k - 1];
    }
  }

  /** Blank pieces give no paragraph. */
  lemma {:induction false} BlankPieces(parts: seq<string>, i: nat)
    requires i <= |parts|
    requires forall k :: 0 <= k < |parts| ==> AllSpace(parts[k])
    ensures CollapsedNonBlankFrom(parts, i) == []
    decreases |parts| - i
  {
    if i < |parts| {
      BlankPieces(parts, i + 1);
    }
  }
}

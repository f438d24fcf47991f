/** The ebook pipeline (`EbookPipeline`) and its records (`ebook_models`):
    outline, introduction, chapters written one after another with the
    previous chapter's summary as context, conclusion, an editing pass that
    sees each chapter's neighbours, optional section images, a cover and
    the rendered files. */
module Ebook {
  import opened Wrappers
  import opened PyText
  import opened PyFormat
  import opened Media
  import opened Steps

  // ---------------------------------------------------------------------
  // Records
  // ---------------------------------------------------------------------

  /** The number of body chapters the settings form accepts. */
  type ChapterCount = x: int | 3 <= x <= 20 witness 8

  /** The settings the run reads. */
  datatype EbookConfig = EbookConfig(
    title: string, topic: string, targetAudience: string,
    subtitle: string, authorName: string, tone: string, writingStyle: string,
    numChapters: ChapterCount, imageStyle: string, includeImages: bool, allowFaces: bool,
    outputFormats: seq<string>, additionalInstructions: string)

  /** A configuration with the defaults of every optional field. */
  function NewConfig(title: string, topic: string, audience: string): EbookConfig {
    EbookConfig(title, topic, audience, "", "MoceanAI", "Professional", "Practical Guide",
                8, "Cinematic", true, false, ["pdf"], "")
  }

  datatype SectionOutline = SectionOutline(sectionTitle: string, sectionBrief: string)

  datatype ChapterOutline = ChapterOutline(
    chapterNumber: int, chapterTitle: string, chapterPurpose: string,
    sections: seq<SectionOutline>, keyTakeaway: string)

  /** The outline the planner returns; its subtitle defaults to empty. */
  datatype EbookOutline = EbookOutline(ebookTitle: string, ebookSubtitle: string, chapters: seq<ChapterOutline>)

  function NewOutline(title: string, chapters: seq<ChapterOutline>): EbookOutline {
    EbookOutline(title, "", chapters)
  }

  datatype SectionContent = SectionContent(sectionTitle: string, sectionText: string)

  /** What the chapter writer returns. */
  datatype ChapterContent = ChapterContent(chapterTitle: string, sections: seq<SectionContent>, summary: string)

  /** Everything generated for one chapter. */
  datatype ChapterState = ChapterState(
    outline: ChapterOutline, rawSections: seq<SectionContent>, rawSummary: string,
    editedSections: seq<SectionContent>, sectionImagePaths: seq<Path>)

  function NewChapter(outline: ChapterOutline): ChapterState {
    ChapterState(outline, [], "", [], [])
  }

  datatype EbookState = EbookState(
    config: EbookConfig, outline: Option<EbookOutline>,
    introduction: Option<string>, conclusion: Option<string>,
    chapters: seq<ChapterState>, coverDescription: Option<string>, coverImage: Option<Path>,
    pdfPath: Option<Path>, docxPath: Option<Path>)

  function NewState(config: EbookConfig): EbookState {
    EbookState(config, None, None, None, [], None, None, None, None)
  }

  /** The defaults respect the declared bounds, and nothing is generated
      before the run starts. */
  lemma EbookDefaults(title: string, topic: string, audience: string, o: ChapterOutline)
    ensures var c := NewConfig(title, topic, audience);
      3 <= c.numChapters <= 20 && c.numChapters == 8 && c.outputFormats == ["pdf"] && c.subtitle == ""
    ensures NewOutline(title, []).ebookSubtitle == ""
    ensures var ch := NewChapter(o);
      ch.rawSections == [] && ch.editedSections == [] && ch.rawSummary == "" && ch.sectionImagePaths == []
    ensures var s := NewState(NewConfig(title, topic, audience));
      s.outline.None? && s.introduction.None? && s.conclusion.None? && s.coverImage.None?
      && s.pdfPath.None? && s.docxPath.None? && s.chapters == []
  {
  }

  // ---------------------------------------------------------------------
  // Requests
  // ---------------------------------------------------------------------

  /** What the chapter writer sees: the chapter's outline, the summary
      handed on by the chapter before, and every chapter title. */
  datatype ChapterRequest = ChapterRequest(outline: ChapterOutline, previousSummary: string, allTitles: seq<string>)

  /** What the editor sees: the chapter's title and raw sections and the
      summaries of the chapters on either side. */
  datatype EditRequest = EditRequest(
    chapterTitle: string, sections: seq<SectionContent>, prevSummary: string, nextSummary: string)

  /** What the image describer sees: the first section's title and the
      first 200 characters of its text. */
  datatype ImagePayload = ImagePayload(sectionTitle: string, excerpt: string)

  datatype EbookServices = EbookServices(
    outline: EbookState -> Result<EbookOutline, string>,
    introduction: (EbookState, seq<string>) -> Result<string, string>,
    writeChapter: ChapterRequest -> Result<ChapterContent, string>,
    conclusion: (EbookState, seq<string>) -> Result<string, string>,
    edit: EditRequest -> Result<seq<SectionContent>, string>,
    describeImage: ImagePayload -> Result<string, string>,
    images: (seq<string>, string) -> Result<seq<Path>, string>,
    coverDescription: EbookState -> Result<string, string>,
    renderPdf: EbookState -> Result<Path, string>,
    renderDocx: EbookState -> Result<Path, string>)

  function Titles(chs: seq<ChapterState>): (ts: seq<string>)
    ensures |ts| == |chs|
    ensures forall i :: 0 <= i < |chs| ==> ts[i] == chs[i].outline.chapterTitle
  {
    seq(|chs|, i requires 0 <= i < |chs| => chs[i].outline.chapterTitle)
  }

  function Summaries(chs: seq<ChapterState>): (ss: seq<string>)
    ensures |ss| == |chs|
    ensures forall i :: 0 <= i < |chs| ==> ss[i] == chs[i].rawSummary
  {
    seq(|chs|, i requires 0 <= i < |chs| => chs[i].rawSummary)
  }

  // ---------------------------------------------------------------------
  // Outline and introduction
  // ---------------------------------------------------------------------

  /** Step 1: the outline, and one fresh chapter state per outline
      chapter, in outline order. */
  function OutlineBody(svc: EbookServices, s: EbookState): (o: Outcome<EbookState>)
    ensures match svc.outline(s)
      case Failure(m) => o == Threw(s, m)
      case Success(ol) =>
        o.Ok? && o.state.outline == Some(ol)
        && |o.state.chapters| == |ol.chapters|
        && (forall i :: 0 <= i < |ol.chapters| ==> o.state.chapters[i] == NewChapter(ol.chapters[i]))
        && o.state == s.(outline := Some(ol), chapters := o.state.chapters)
  {
    match svc.outline(s)
    case Failure(m) => Threw(s, m)
    case Success(ol) =>
      Ok(s.(outline := Some(ol),
            chapters := seq(|ol.chapters|, i requires 0 <= i < |ol.chapters| => NewChapter(ol.chapters[i]))))
  }

  function OutlineSteps(svc: EbookServices): seq<Step<EbookState>> {
    [ Step("generate_outline", Some("after_outline"), s => OutlineBody(svc, s)),
      Step("write_introduction", Some("after_introduction"),
           Store((s: EbookState) => svc.introduction(s, Titles(s.chapters)),
                 (s: EbookState, v: string) => s.(introduction := Some(v)))) ]
  }

  // ---------------------------------------------------------------------
  // Chapters, one after another
  // ---------------------------------------------------------------------

  /** The summary handed to chapter `k`: chapter `k - 1`'s, or none for the
      first. The source keeps it in a local that is assigned together with
      the previous chapter's `raw_summary`, so the two are always equal. */
  function PreviousSummary(chs: seq<ChapterState>, k: nat): string {
    if 0 < k <= |chs| then chs[k - 1].rawSummary else ""
  }

  function ChapterRequestFor(s: EbookState, k: nat): ChapterRequest
    requires k < |s.chapters|
  {
    ChapterRequest(s.chapters[k].outline, PreviousSummary(s.chapters, k), Titles(s.chapters))
  }

  /** Writing chapter `k`: its raw sections and summary come from the
      writer; nothing else changes. */
  function ChapterBody(svc: EbookServices, k: nat, s: EbookState): (o: Outcome<EbookState>)
    ensures !o.Propagated? && |o.state.chapters| == |s.chapters|
    ensures o.Threw? ==> o.state == s
    ensures k < |s.chapters| ==>
      match svc.writeChapter(ChapterRequestFor(s, k))
      case Failure(m) => o == Threw(s, m)
      case Success(c) =>
        o == Ok(s.(chapters := s.chapters[k := s.chapters[k].(rawSections := c.sections, rawSummary := c.summary)]))
  {
    if k < |s.chapters| then
      match svc.writeChapter(ChapterRequestFor(s, k))
      case Failure(m) => Threw(s, m)
      case Success(c) =>
        Ok(s.(chapters := s.chapters[k := s.chapters[k].(rawSections := c.sections, rawSummary := c.summary)]))
    else Ok(s)
  }

  /** `write_chapter_{k+1}`, checkpointing `after_chapter_{k+1}`, for each
      of the `n` chapters in order. */
  function ChapterSteps(svc: EbookServices, n: nat): (steps: seq<Step<EbookState>>)
    ensures |steps| == n
    ensures forall k :: 0 <= k < n ==>
      steps[k].name == "write_chapter_" + NatToString(k + 1)
      && steps[k].checkpoint == Some("after_chapter_" + NatToString(k + 1))
  {
    seq(n, k requires 0 <= k < n =>
      Step("write_chapter_" + NatToString(k + 1), Some("after_chapter_" + NatToString(k + 1)),
           (s: EbookState) => ChapterBody(svc, k, s)))
  }

  /** The baton pass: when chapter `k - 1` has just been written, the
      request for chapter `k` carries exactly the summary the writer
      returned for it; the first chapter gets the empty summary. */
  lemma BatonPass(svc: EbookServices, s: EbookState, k: nat)
    requires 0 < k < |s.chapters|
    requires ChapterBody(svc, k - 1, s).Ok?
    ensures var t := ChapterBody(svc, k - 1, s).state;
      svc.writeChapter(ChapterRequestFor(s, k - 1)).Success?
      && ChapterRequestFor(t, k).previousSummary == svc.writeChapter(ChapterRequestFor(s, k - 1)).value.summary
    ensures ChapterRequestFor(s, 0).previousSummary == ""
  {
  }

  // ---------------------------------------------------------------------
  // Editing, with neighbour context
  // ---------------------------------------------------------------------

  /** The editor request of chapter `i`: the previous chapter's summary
      (empty for the first) and the next one's (empty for the last). */
  function EditRequestFor(chs: seq<ChapterState>, i: nat): (q: EditRequest)
    requires i < |chs|
    ensures q.chapterTitle == chs[i].outline.chapterTitle && q.sections == chs[i].rawSections
    ensures q.prevSummary == (if i > 0 then chs[i - 1].rawSummary else "")
    ensures q.nextSummary == (if i + 1 < |chs| then chs[i + 1].rawSummary else "")
  {
    EditRequest(chs[i].outline.chapterTitle, chs[i].rawSections,
                if i > 0 then chs[i - 1].rawSummary else "",
                if i < |chs| - 1 then chs[i + 1].rawSummary else "")
  }

  function EditRequests(chs: seq<ChapterState>): (qs: seq<EditRequest>)
    ensures |qs| == |chs|
    ensures forall i :: 0 <= i < |chs| ==> qs[i] == EditRequestFor(chs, i)
  {
    seq(|chs|, i requires 0 <= i < |chs| => EditRequestFor(chs, i))
  }

  /** Stores edited section list `i` on chapter `i`. */
  function WithEdits(chs: seq<ChapterState>, edits: seq<seq<SectionContent>>): (r: seq<ChapterState>)
    requires |edits| == |chs|
    ensures |r| == |chs|
    ensures forall i :: 0 <= i < |chs| ==> r[i] == chs[i].(editedSections := edits[i])
  {
    seq(|chs|, i requires 0 <= i < |chs| => chs[i].(editedSections := edits[i]))
  }

  /** Step 5: every chapter is edited; the results are stored only once
      all edits have returned, each on the chapter it was asked for. */
  function EditBody(svc: EbookServices, s: EbookState): (o: Outcome<EbookState>)
    ensures var qs := EditRequests(s.chapters);
      (o.Ok? <==> forall i :: 0 <= i < |qs| ==> svc.edit(qs[i]).Success?)
      && (o.Ok? ==> o.state.(chapters := s.chapters) == s && |o.state.chapters| == |s.chapters|
                    && forall i :: 0 <= i < |s.chapters| ==>
                         o.state.chapters[i] == s.chapters[i].(editedSections := svc.edit(qs[i]).value))
      && (o.Threw? ==> o.state == s) && !o.Propagated?
  {
    match CallAll(EditRequests(s.chapters), svc.edit)
    case Success(es) => Ok(s.(chapters := WithEdits(s.chapters, es)))
    case Failure(m) => Threw(s, m)
  }

  // ---------------------------------------------------------------------
  // Section images
  // ---------------------------------------------------------------------

  /** The sections a chapter is rendered from: the edited ones when there
      are any, else the raw ones. */
  function Sections(ch: ChapterState): seq<SectionContent> {
    if |ch.editedSections| > 0 then ch.editedSections else ch.rawSections
  }

  /** The positions in `[i, n)` where `P` holds, in increasing order. */
  function IndicesWhere(n: nat, P: nat -> bool, i: nat): (r: seq<nat>)
    requires i <= n
    ensures forall m :: 0 <= m < |r| ==> i <= r[m] < n && P(r[m])
    ensures forall m, m' :: 0 <= m < m' < |r| ==> r[m] < r[m']
    ensures forall c :: i <= c < n && P(c) ==> c in r
    ensures |r| <= n - i
    decreases n - i
  {
    if i == n then []
    else if P(i) then [i] + IndicesWhere(n, P, i + 1)
    else IndicesWhere(n, P, i + 1)
  }

  /** The chapters that get an image request: those with sections. */
  function Candidates(chs: seq<ChapterState>): seq<nat> {
    IndicesWhere(|chs|, (c: nat) => c < |chs| && |Sections(chs[c])| > 0, 0)
  }

  function PayloadOf(ch: ChapterState): ImagePayload
    requires |Sections(ch)| > 0
  {
    ImagePayload(Sections(ch)[0].sectionTitle, Take(Sections(ch)[0].sectionText, 200))
  }

  function Payloads(chs: seq<ChapterState>, cands: seq<nat>): (ps: seq<ImagePayload>)
    requires forall m :: 0 <= m < |cands| ==> cands[m] < |chs| && |Sections(chs[cands[m]])| > 0
    ensures |ps| == |cands|
    ensures forall m :: 0 <= m < |cands| ==> ps[m] == PayloadOf(chs[cands[m]])
  {
    seq(|cands|, m requires 0 <= m < |cands| => PayloadOf(chs[cands[m]]))
  }

  /** The position of chapter `c` in `kept`, or `|kept|` when absent. */
  function PositionOf(kept: seq<nat>, c: nat): (m: nat)
    ensures m <= |kept|
    ensures m < |kept| ==> kept[m] == c
    ensures forall j :: 0 <= j < m ==> kept[j] != c
  {
    if |kept| == 0 then 0
    else if kept[0] == c then 0
    else 1 + PositionOf(kept[1..], c)
  }

  /** The assignment as stated: chapter `c` takes the image at its position
      among the kept chapters, when that many images came back. */
  function AssignByPosition(chs: seq<ChapterState>, kept: seq<nat>, paths: seq<Path>): (r: seq<ChapterState>)
    ensures |r| == |chs|
  {
    seq(|chs|, c requires 0 <= c < |chs| =>
      var m := PositionOf(kept, c);
      if m < |kept| && m < |paths| then chs[c].(sectionImagePaths := [paths[m]]) else chs[c])
  }

  /** The assignment as the source loops: for the `m`-th kept chapter, image
      `m` when `m` is below the number of images. */
  function AssignLoop(chs: seq<ChapterState>, kept: seq<nat>, paths: seq<Path>, m: nat): (r: seq<ChapterState>)
    requires forall j :: 0 <= j < |kept| ==> kept[j] < |chs|
    ensures |r| == |chs|
    decreases |kept| - m
  {
    if m >= |kept| then chs
    else
      var next := if m < |paths| then chs[kept[m] := chs[kept[m]].(sectionImagePaths := [paths[m]])] else chs;
      AssignLoop(next, kept, paths, m + 1)
  }

  /** What the loop leaves at chapter `c` once it has handled the kept
      chapters from position `m` on. */
  function AssignedFrom(chs: seq<ChapterState>, kept: seq<nat>, paths: seq<Path>, m: nat, c: nat): ChapterState
    requires c < |chs|
  {
    var p := PositionOf(kept, c);
    if m <= p < |kept| && p < |paths| then chs[c].(sectionImagePaths := [paths[p]]) else chs[c]
  }

  /** One turn of the loop, seen from chapter `c`: handling position `m`
      first and the rest after is handling everything from `m`. */
  lemma AssignTurn(chs: seq<ChapterState>, kept: seq<nat>, paths: seq<Path>, m: nat, c: nat)
    requires forall j :: 0 <= j < |kept| ==> kept[j] < |chs|
    requires forall j, j' :: 0 <= j < j' < |kept| ==> kept[j] < kept[j']
    requires m < |kept| && c < |chs|
    ensures var next := if m < |paths| then chs[kept[m] := chs[kept[m]].(sectionImagePaths := [paths[m]])] else chs;
      AssignedFrom(next, kept, paths, m + 1, c) == AssignedFrom(chs, kept, paths, m, c)
  {
    var p := PositionOf(kept, c);
    if c == kept[m] {
      assert p == m;
    }
  }

  /** For kept chapters in increasing order, the loop gives every chapter
      the image at its own position (and leaves the others alone). */
  lemma {:induction false} AssignLoopByPosition(chs: seq<ChapterState>, kept: seq<nat>, paths: seq<Path>, m: nat)
    requires forall j :: 0 <= j < |kept| ==> kept[j] < |chs|
    requires forall j, j' :: 0 <= j < j' < |kept| ==> kept[j] < kept[j']
    requires m <= |kept|
    ensures forall c :: 0 <= c < |chs| ==> AssignLoop(chs, kept, paths, m)[c] == AssignedFrom(chs, kept, paths, m, c)
    decreases |kept| - m
  {
    if m < |kept| {
      var next := if m < |paths| then chs[kept[m] := chs[kept[m]].(sectionImagePaths := [paths[m]])] else chs;
      AssignLoopByPosition(next, kept, paths, m + 1);
      forall c | 0 <= c < |chs|
        ensures AssignLoop(chs, kept, paths, m)[c] == AssignedFrom(chs, kept, paths, m, c)
      {
        AssignTurn(chs, kept, paths, m, c);
      }
    }
  }

  lemma AssignLoopMatches(chs: seq<ChapterState>, kept: seq<nat>, paths: seq<Path>)
    requires forall j :: 0 <= j < |kept| ==> kept[j] < |chs|
    requires forall j, j' :: 0 <= j < j' < |kept| ==> kept[j] < kept[j']
    ensures AssignLoop(chs, kept, paths, 0) == AssignByPosition(chs, kept, paths)
  {
    AssignLoopByPosition(chs, kept, paths, 0);
    forall c | 0 <= c < |chs|
      ensures AssignLoop(chs, kept, paths, 0)[c] == AssignByPosition(chs, kept, paths)[c]
    {
    }
  }

  /** The positions of the non-empty descriptions, in order. */
  function KeptPositions(descs: seq<string>): (pos: seq<nat>)
    ensures forall m :: 0 <= m < |pos| ==> pos[m] < |descs| && descs[pos[m]] != ""
    ensures forall m, m' :: 0 <= m < m' < |pos| ==> pos[m] < pos[m']
    ensures forall j :: 0 <= j < |descs| && descs[j] != "" ==> j in pos
  {
    IndicesWhere(|descs|, (j: nat) => j < |descs| && descs[j] != "", 0)
  }

  /** The chapters that keep their request: those whose description came
      back non-empty, in chapter order. */
  function Kept(cands: seq<nat>, descs: seq<string>): (kept: seq<nat>)
    requires |descs| == |cands|
    requires forall j, j' :: 0 <= j < j' < |cands| ==> cands[j] < cands[j']
    ensures |kept| == |KeptPositions(descs)|
    ensures forall m :: 0 <= m < |kept| ==> kept[m] == cands[KeptPositions(descs)[m]]
    ensures forall m, m' :: 0 <= m < m' < |kept| ==> kept[m] < kept[m']
    ensures forall j :: 0 <= j < |cands| && descs[j] != "" ==> cands[j] in kept
  {
    var pos := KeptPositions(descs);
    var kept := seq(|pos|, m requires 0 <= m < |pos| => cands[pos[m]]);
    forall j | 0 <= j < |cands| && descs[j] != ""
      ensures cands[j] in kept
    {
      assert j in pos;
      var m :| 0 <= m < |pos| && pos[m] == j;
      assert kept[m] == cands[j];
    }
    kept
  }

  /** The descriptions sent for images: the non-empty ones, in order, so
      the `m`-th belongs to the `m`-th kept chapter. */
  function KeptDescriptions(descs: seq<string>): (ds: seq<string>)
    ensures |ds| == |KeptPositions(descs)|
    ensures forall m :: 0 <= m < |ds| ==> ds[m] == descs[KeptPositions(descs)[m]] && ds[m] != ""
  {
    var pos := KeptPositions(descs);
    seq(|pos|, m requires 0 <= m < |pos| => descs[pos[m]])
  }

  /** Step 6 (`_generate_section_images`). One description per chapter with
      sections; empty descriptions are dropped; the rest go to the image
      service in one batch, and the `m`-th remaining chapter takes image `m`
      when there is one. Chapters without sections are never touched. */
  function SectionImagesBody(svc: EbookServices, s: EbookState): (o: Outcome<EbookState>)
    ensures o.Threw? ==> o.state == s
    ensures !o.Propagated? && o.state.(chapters := s.chapters) == s && |o.state.chapters| == |s.chapters|
    ensures var cands := Candidates(s.chapters);
      var call := CallAll(Payloads(s.chapters, cands), svc.describeImage);
      (call.Failure? ==> o == Threw(s, call.error))
      && (call.Success? ==>
            var kept := Kept(cands, call.value);
            var ds := KeptDescriptions(call.value);
            (|ds| == 0 ==> o == Ok(s))
            && (|ds| > 0 && svc.images(ds, "landscape").Success? ==>
                  o == Ok(s.(chapters := AssignByPosition(s.chapters, kept, svc.images(ds, "landscape").value))))
            && (|ds| > 0 && svc.images(ds, "landscape").Failure? ==> o == Threw(s, svc.images(ds, "landscape").error)))
  {
    var cands := Candidates(s.chapters);
    match CallAll(Payloads(s.chapters, cands), svc.describeImage)
    case Failure(m) => Threw(s, m)
    case Success(descs) =>
      var kept := Kept(cands, descs);
      var ds := KeptDescriptions(descs);
      if |ds| == 0 then Ok(s)
      else
        match svc.images(ds, "landscape")
        case Failure(m) => Threw(s, m)
        case Success(paths) =>
          AssignLoopMatches(s.chapters, kept, paths);
          Ok(s.(chapters := AssignLoop(s.chapters, kept, paths, 0)))
  }

  /** The assignment only ever gives a chapter image `m` when it is the
      `m`-th kept chapter and `m` images came back; every other chapter,
      including those without sections, is unchanged. */
  lemma AssignmentByRank(chs: seq<ChapterState>, kept: seq<nat>, paths: seq<Path>, c: nat)
    requires c < |chs|
    requires forall j, j' :: 0 <= j < j' < |kept| ==> kept[j] < kept[j']
    ensures forall m :: 0 <= m < |kept| && kept[m] == c && m < |paths| ==>
      AssignByPosition(chs, kept, paths)[c] == chs[c].(sectionImagePaths := [paths[m]])
    ensures c !in kept ==> AssignByPosition(chs, kept, paths)[c] == chs[c]
  {
    var p := PositionOf(kept, c);
    forall m | 0 <= m < |kept| && kept[m] == c && m < |paths|
      ensures AssignByPosition(chs, kept, paths)[c] == chs[c].(sectionImagePaths := [paths[m]])
    {
      assert p == m;
    }
  }

  /** The step runs only when section images are enabled. */
  function ImageSteps(svc: EbookServices, includeImages: bool): seq<Step<EbookState>> {
    if includeImages then [Step("generate_section_images", Some("after_section_images"), s => SectionImagesBody(svc, s))]
    else []
  }

  // ---------------------------------------------------------------------
  // Cover and rendering
  // ---------------------------------------------------------------------

  /** Step 7, second call: the cover is the first path returned, if any. */
  function CoverImageBody(svc: EbookServices, s: EbookState): (o: Outcome<EbookState>)
    ensures var call := svc.images([s.coverDescription.GetOr("")], "portrait");
      (call.Failure? ==> o == Threw(s, call.error))
      && (call.Success? && |call.value| > 0 ==> o == Ok(s.(coverImage := Some(call.value[0]))))
      && (call.Success? && |call.value| == 0 ==> o == Ok(s))
  {
    match svc.images([s.coverDescription.GetOr("")], "portrait")
    case Failure(m) => Threw(s, m)
    case Success(paths) => if |paths| > 0 then Ok(s.(coverImage := Some(paths[0]))) else Ok(s)
  }

  /** Step 8: one render call per requested format; a format not listed is
      never rendered. */
  function RenderBody(format: string, render: EbookState -> Result<Path, string>,
                      assign: (EbookState, Path) -> EbookState, s: EbookState): (o: Outcome<EbookState>)
    ensures format !in s.config.outputFormats ==> o == Ok(s)
    ensures format in s.config.outputFormats ==>
      match render(s)
      case Success(p) => o == Ok(assign(s, p))
      case Failure(m) => o == Threw(s, m)
  {
    if format in s.config.outputFormats then
      match render(s)
      case Success(p) => Ok(assign(s, p))
      case Failure(m) => Threw(s, m)
    else Ok(s)
  }

  /** Everything after the chapters. The cover and the render phases each
      make two calls, so each is two steps under one name: a failure of the
      second keeps what the first stored. */
  function LaterSteps(svc: EbookServices, includeImages: bool): seq<Step<EbookState>> {
    [ Step("write_conclusion", Some("after_conclusion"),
           Store((s: EbookState) => svc.conclusion(s, Summaries(s.chapters)),
                 (s: EbookState, v: string) => s.(conclusion := Some(v)))),
      Step("edit_chapters", Some("after_editing"), s => EditBody(svc, s)) ]
    + ImageSteps(svc, includeImages)
    + [ Step("generate_cover", None,
             Store(svc.coverDescription, (s: EbookState, v: string) => s.(coverDescription := Some(v)))),
        Step("generate_cover", Some("after_cover"), s => CoverImageBody(svc, s)),
        Step("render_output", None,
             s => RenderBody("pdf", svc.renderPdf, (t: EbookState, p: Path) => t.(pdfPath := Some(p)), s)),
        Step("render_output", Some("complete"),
             s => RenderBody("docx", svc.renderDocx, (t: EbookState, p: Path) => t.(docxPath := Some(p)), s)) ]
  }

  /** The steps after the outline phase, for a book of `n` chapters. */
  function BodySteps(svc: EbookServices, n: nat, includeImages: bool): seq<Step<EbookState>> {
    ChapterSteps(svc, n) + LaterSteps(svc, includeImages)
  }

  /** `EbookPipeline.run`: the number of chapter steps is the number of
      chapters the outline produced. */
  function RunEbook(svc: EbookServices, s: EbookState): Run<EbookState> {
    RunThen(OutlineSteps(svc), s, (t: EbookState) => BodySteps(svc, |t.chapters|, t.config.includeImages))
  }

  /** The phase order, with the image phase exactly when images are on. */
  lemma EbookOrder(svc: EbookServices, n: nat, includeImages: bool)
    ensures Names(OutlineSteps(svc)) == ["generate_outline", "write_introduction"]
    ensures var later := Names(LaterSteps(svc, includeImages));
      later == ["write_conclusion", "edit_chapters"]
               + (if includeImages then ["generate_section_images"] else [])
               + ["generate_cover", "generate_cover", "render_output", "render_output"]
    ensures forall k :: 0 <= k < n ==> Names(BodySteps(svc, n, includeImages))[k] == "write_chapter_" + NatToString(k + 1)
  {
    assert forall k :: 0 <= k < n ==> BodySteps(svc, n, includeImages)[k] == ChapterSteps(svc, n)[k];
  }

  /** After the outline phase no step changes how many chapters there are,
      and none raises a pipeline error of its own. */
  lemma BodyKeepsChapterCount(svc: EbookServices, n: nat, includeImages: bool)
    ensures var steps := BodySteps(svc, n, includeImages);
      forall k, t :: 0 <= k < |steps| ==>
        !steps[k].body(t).Propagated? && |steps[k].body(t).state.chapters| == |t.chapters|
  {
    var steps := BodySteps(svc, n, includeImages);
    forall k, t | 0 <= k < |steps|
      ensures !steps[k].body(t).Propagated? && |steps[k].body(t).state.chapters| == |t.chapters|
    {
      if k < n {
        assert steps[k] == ChapterSteps(svc, n)[k];
      } else {
        assert steps[k] == LaterSteps(svc, includeImages)[k - n];
      }
    }
  }

  /** No DOCX file yet, and none requested. */
  predicate NoDocx(t: EbookState) {
    t.docxPath.None? && "docx" !in t.config.outputFormats
  }

  lemma BodyKeepsNoDocx(svc: EbookServices, n: nat, includeImages: bool)
    ensures var steps := BodySteps(svc, n, includeImages);
      forall j, u :: 0 <= j < |steps| && NoDocx(u) && steps[j].body(u).Ok? ==> NoDocx(steps[j].body(u).state)
  {
    var steps := BodySteps(svc, n, includeImages);
    forall j, u | 0 <= j < |steps| && NoDocx(u) && steps[j].body(u).Ok?
      ensures NoDocx(steps[j].body(u).state)
    {
      if j < n {
        assert steps[j] == ChapterSteps(svc, n)[j];
      } else {
        assert steps[j] == LaterSteps(svc, includeImages)[j - n];
      }
    }
  }

  /** A completed run renders no DOCX unless DOCX was requested. */
  lemma UnrequestedFormatNotRendered(svc: EbookServices, s: EbookState)
    requires NoDocx(s)
    requires RunEbook(svc, s).Completed?
    ensures RunEbook(svc, s).state.docxPath.None?
  {
    var first := OutlineSteps(svc);
    forall j, u | 0 <= j < |first| && NoDocx(u) && first[j].body(u).Ok?
      ensures NoDocx(first[j].body(u).state)
    {
    }
    KeptToEnd(first, s, 0, NoDocx);
    var t := RunSteps(first, s).state;
    BodyKeepsNoDocx(svc, |t.chapters|, t.config.includeImages);
    KeptToEnd(BodySteps(svc, |t.chapters|, t.config.includeImages), t, 0, NoDocx);
  }
}

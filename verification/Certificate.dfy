/** The page-breaking cursor of the Certificate of Completion (packages/crypto/src/certificate.ts).
    Lengths are hundredths of a point. */
module Certificate {
  import opened JsText

  const MARGIN := 5_600
  const PAGE_H := 84_189

  /** The first baseline of a page. */
  const TOP := PAGE_H - MARGIN

  /** What is put on a page: a section's title, the line under it, a line of text, or one printed
      piece of a long value. */
  datatype What = Heading | Rule | Line | Piece(text: JsString)

  datatype Mark = Mark(page: nat, y: int, what: What)

  datatype Cursor = Cursor(page: nat, y: int, drawn: seq<Mark>)

  // ----- breaking a long value into lines

  const DASH: JsString := [0x2014]

  function Pieces(value: JsString, perLine: nat): seq<JsString>
    requires perLine > 0
    decreases |value|
  {
    if value == [] then []
    else if |value| <= perLine then [value]
    else [value[..perLine]] + Pieces(value[perLine..], perLine)
  }

  function Chunk(value: JsString, perLine: nat): (lines: seq<JsString>)
    requires perLine > 0
    ensures lines != []
  {
    if value == [] then [DASH] else Pieces(value, perLine)
  }

  function Joined(lines: seq<JsString>): JsString {
    if lines == [] then [] else lines[0] + Joined(lines[1..])
  }

  function Least(a: nat, b: nat): nat { if a <= b then a else b }

  lemma FirstPiece(value: JsString, perLine: nat)
    requires perLine > 0 && value != []
    ensures var n := Least(perLine, |value|);
            Pieces(value, perLine) == [value[..n]] + Pieces(value[n..], perLine)
  {
    if |value| <= perLine {
      assert value[..|value|] == value && value[|value|..] == [];
    }
  }

  lemma {:induction false} PiecesJoin(value: JsString, perLine: nat)
    requires perLine > 0
    ensures Joined(Pieces(value, perLine)) == value
    ensures forall i :: 0 <= i < |Pieces(value, perLine)| ==> 1 <= |Pieces(value, perLine)[i]| <= perLine
    decreases |value|
  {
    hide Pieces;
    if value == [] {
      NoPieces(perLine);
    } else {
      var n := Least(perLine, |value|);
      FirstPiece(value, perLine);
      PiecesJoin(value[n..], perLine);
      assert ([value[..n]] + Pieces(value[n..], perLine))[1..] == Pieces(value[n..], perLine);
      assert value == value[..n] + value[n..];
    }
  }

  /** The printed lines put together are the value, and none is longer than the line. */
  lemma ChunksJoin(value: JsString, perLine: nat)
    requires perLine > 0 && value != []
    ensures Joined(Chunk(value, perLine)) == value
    ensures forall i :: 0 <= i < |Chunk(value, perLine)| ==> 1 <= |Chunk(value, perLine)[i]| <= perLine
  {
    PiecesJoin(value, perLine);
  }

  /** There are no more lines than the value needs. */
  lemma {:induction false} ChunkCount(value: JsString, perLine: nat)
    requires perLine > 0 && value != []
    ensures (|Chunk(value, perLine)| - 1) * perLine < |value| <= |Chunk(value, perLine)| * perLine
    decreases |value|
  {
    if |value| > perLine {
      var rest := value[perLine..];
      ChunkCount(rest, perLine);
      var n := |Chunk(rest, perLine)|;
      assert |Chunk(value, perLine)| == n + 1;
      assert (n + 1) * perLine == n * perLine + perLine && (n - 1) * perLine == n * perLine - perLine;
    }
  }

  /** The loop of `chunk`. */
  method ChunkText(value: JsString, perLine: nat) returns (out: seq<JsString>)
    requires perLine > 0
    ensures out == Chunk(value, perLine)
  {
    hide Pieces;
    out := [];
    var i := 0;
    assert value[0..] == value;
    while i < |value|
      invariant out + Pieces(value[Least(i, |value|)..], perLine) == Pieces(value, perLine)
      decreases |value| - i
    {
      var rest, end := value[i..], Least(i + perLine, |value|);
      FirstPiece(rest, perLine);
      assert rest[..end - i] == value[i..end] && rest[end - i..] == value[end..];
      out := out + [value[i..end]];
      i := i + perLine;
    }
    assert value[|value|..] == [];
    NoPieces(perLine);
    if value != [] {
      FirstPiece(value, perLine);
    }
    if out == [] {
      out := [DASH];
    }
  }

  lemma NoPieces(perLine: nat)
    requires perLine > 0
    ensures Pieces([], perLine) == []
  {
  }

  // ----- the drawing steps

  function Ensured(c: Cursor, needed: int): Cursor {
    if c.y - needed >= MARGIN then c else c.(page := c.page + 1, y := TOP)
  }

  function Drawn(c: Cursor, what: What): Cursor {
    c.(drawn := c.drawn + [Mark(c.page, c.y, what)])
  }

  function Down(c: Cursor, points: int): Cursor {
    c.(y := c.y - points)
  }

  function Row(c: Cursor): Cursor {
    Down(Drawn(Drawn(Ensured(c, 1_800), Line), Line), 1_800)
  }

  function Rows(c: Cursor, n: nat): Cursor {
    if n == 0 then c else Row(Rows(c, n - 1))
  }

  function Section(c: Cursor): Cursor {
    Down(Drawn(Down(Drawn(Down(Ensured(c, 6_400), 1_000), Heading), 600), Rule), 1_600)
  }

  /** Pieces one under another, with nothing after the last. */
  function Stack(c: Cursor, lines: seq<JsString>): Cursor {
    if lines == [] then c
    else
      var n := |lines| - 1;
      var above := Stack(c, lines[..n]);
      Drawn(if n == 0 then above else Down(above, 1_100), Piece(lines[n]))
  }

  /** The browser of one signer, kept on one page. */
  function Browser(c: Cursor, userAgent: JsString): Cursor {
    var ua := Chunk(userAgent, 62);
    Down(Stack(Drawn(Ensured(c, 1_100 * |ua| + 900), Line), ua), 2_000)
  }

  function Signer(c: Cursor, userAgent: JsString): Cursor {
    Rows(Browser(Rows(Section(c), 4), userAgent), 4)
  }

  function Signers(c: Cursor, agents: seq<JsString>): Cursor {
    if agents == [] then c else Signer(Signers(c, agents[..|agents| - 1]), agents[|agents| - 1])
  }

  function Column(c: Cursor, lines: seq<JsString>): Cursor {
    if lines == [] then c
    else
      var n := |lines| - 1;
      Down(Drawn(Column(c, lines[..n]), Piece(lines[n])), 1_100)
  }

  /** The title lines and the document's own section. */
  function Opening(): Cursor {
    Rows(Section(Down(Drawn(Down(Drawn(Down(Drawn(
      Cursor(0, TOP, []), Line), 3_200), Line), 2_200), Line), 2_600)), 5)
  }

  function EvidenceHeight(hash: JsString, signature: JsString): int {
    1_400 + |Chunk(hash, 72)| * 1_100 + 2_000 + |Chunk(signature, 72)| * 1_100
  }

  /** The fingerprint and the seal. */
  function Evidence(c: Cursor, hash: JsString, signature: JsString): Cursor {
    var caption := Down(Drawn(Ensured(c, EvidenceHeight(hash, signature)), Line), 1_400);
    var sealLabel := Down(Drawn(Down(Column(caption, Chunk(hash, 72)), 600), Line), 1_400);
    Column(sealLabel, Chunk(signature, 72))
  }

  function Notes(c: Cursor, n: nat): Cursor {
    if n == 0 then c else Down(Drawn(Ensured(Notes(c, n - 1), 1_100), Line), 1_100)
  }

  function Closing(c: Cursor, hash: JsString, signature: JsString): Cursor {
    Notes(Down(Evidence(Section(c), hash, signature), 1_600), 6)
  }

  /** The whole certificate; `agents` has one user agent per signer. */
  function Certificate(agents: seq<JsString>, hash: JsString, signature: JsString): Cursor {
    Closing(Signers(Opening(), agents), hash, signature)
  }

  // ----- nothing is drawn off the page

  ghost predicate IsOnPaper(c: Cursor) {
    c.y <= TOP && forall k :: 0 <= k < |c.drawn| ==> MARGIN <= c.drawn[k].y <= TOP
  }

  ghost predicate RunsOffPaper(c: Cursor) {
    exists k :: 0 <= k < |c.drawn| && c.drawn[k].y < MARGIN
  }

  /** Each mark is on a later page than the one before, or further down the same page. */
  ghost predicate IsInReadingOrder(c: Cursor) {
    && (forall k :: 0 < k < |c.drawn| ==>
          c.drawn[k - 1].page < c.drawn[k].page
          || (c.drawn[k - 1].page == c.drawn[k].page && c.drawn[k].y <= c.drawn[k - 1].y))
    && (c.drawn != [] ==>
          var last := c.drawn[|c.drawn| - 1];
          last.page < c.page || (last.page == c.page && c.y <= last.y))
  }

  ghost predicate IsTidy(c: Cursor) {
    IsOnPaper(c) && IsInReadingOrder(c)
  }

  lemma DrawnIsTidy(c: Cursor, what: What)
    requires IsTidy(c) && MARGIN <= c.y
    ensures IsTidy(Drawn(c, what))
  {
  }

  lemma DownIsTidy(c: Cursor, points: nat)
    requires IsTidy(c)
    ensures IsTidy(Down(c, points))
  {
  }

  lemma EnsuredIsTidy(c: Cursor, needed: nat)
    requires IsTidy(c)
    ensures IsTidy(Ensured(c, needed))
    ensures needed <= TOP - MARGIN ==> Ensured(c, needed).y - needed >= MARGIN
    ensures needed > TOP - MARGIN ==> Ensured(c, needed).y == TOP
  {
  }

  lemma {:induction false} RowsAreTidy(c: Cursor, n: nat)
    requires IsTidy(c)
    ensures IsTidy(Rows(c, n))
  {
    hide IsTidy, Ensured, Drawn, Down;
    if n > 0 {
      RowsAreTidy(c, n - 1);
      RowIsTidy(Rows(c, n - 1));
    }
  }

  lemma RowIsTidy(c: Cursor)
    requires IsTidy(c)
    ensures IsTidy(Row(c))
  {
    hide IsTidy, Ensured;
    EnsuredIsTidy(c, 1_800);
    var e := Ensured(c, 1_800);
    DrawnIsTidy(e, Line);
    DrawnIsTidy(Drawn(e, Line), Line);
    DownIsTidy(Drawn(Drawn(e, Line), Line), 1_800);
  }

  lemma SectionIsTidy(c: Cursor)
    requires IsTidy(c)
    ensures IsTidy(Section(c)) && Section(c).y >= MARGIN + 3_200
  {
    hide IsTidy, Ensured;
    EnsuredIsTidy(c, 6_400);
    var e := Down(Ensured(c, 6_400), 1_000);
    DownIsTidy(Ensured(c, 6_400), 1_000);
    DrawnIsTidy(e, Heading);
    DownIsTidy(Drawn(e, Heading), 600);
    DrawnIsTidy(Down(Drawn(e, Heading), 600), Rule);
    DownIsTidy(Drawn(Down(Drawn(e, Heading), 600), Rule), 1_600);
  }

  /** A stack stays on the page exactly when its last line does. */
  lemma {:induction false} StackIsTidy(c: Cursor, lines: seq<JsString>)
    requires IsTidy(c) && c.y >= MARGIN && lines != []
    ensures Stack(c, lines).y == c.y - 1_100 * (|lines| - 1) && Stack(c, lines).page == c.page
    ensures Stack(c, lines).y >= MARGIN ==> IsTidy(Stack(c, lines))
    ensures Stack(c, lines).y < MARGIN ==> RunsOffPaper(Stack(c, lines))
  {
    hide IsTidy, IsOnPaper;
    var n := |lines| - 1;
    if n == 0 {
      assert Stack(c, lines[..0]) == c;
      DrawnIsTidy(c, Piece(lines[0]));
    } else {
      StackIsTidy(c, lines[..n]);
      var above := Stack(c, lines[..n]);
      if above.y - 1_100 >= MARGIN {
        DownIsTidy(above, 1_100);
        DrawnIsTidy(Down(above, 1_100), Piece(lines[n]));
      }
    }
    if Stack(c, lines).y < MARGIN {
      LastIsOff(c, lines);
    }
  }

  lemma LastIsOff(c: Cursor, lines: seq<JsString>)
    requires lines != [] && Stack(c, lines).y < MARGIN
    ensures RunsOffPaper(Stack(c, lines))
  {
    var s := Stack(c, lines);
    assert s.drawn[|s.drawn| - 1].y < MARGIN;
  }

  /** A user agent of at most 67 printed lines is kept on the page; a longer one runs off it. */
  lemma BrowserFits(c: Cursor, userAgent: JsString)
    requires IsTidy(c)
    ensures |Chunk(userAgent, 62)| <= 67 ==> IsTidy(Browser(c, userAgent))
    ensures |Chunk(userAgent, 62)| > 67 ==> RunsOffPaper(Browser(c, userAgent))
  {
    hide IsTidy, Ensured, Drawn, Chunk, Stack;
    var ua := Chunk(userAgent, 62);
    var needed := 1_100 * |ua| + 900;
    var e := Ensured(c, needed);
    EnsuredIsTidy(c, needed);
    DrawnIsTidy(e, Line);
    MovedDown(e, Line, 0);
    DownNothing(Drawn(e, Line));
    StackIsTidy(Drawn(e, Line), ua);
    var s := Stack(Drawn(e, Line), ua);
    if |ua| <= 67 {
      DownIsTidy(s, 2_000);
    }
  }

  predicate FitsAPage(agents: seq<JsString>) {
    forall i :: 0 <= i < |agents| ==> |Chunk(agents[i], 62)| <= 67
  }

  // Marks are only ever added.

  ghost predicate Follows(c: Cursor, c': Cursor) {
    c.drawn <= c'.drawn
  }

  lemma SignerFollows(c: Cursor, userAgent: JsString)
    ensures Follows(c, Signer(c, userAgent))
    ensures Follows(Browser(Rows(Section(c), 4), userAgent), Signer(c, userAgent))
  {
    hide Browser, Rows;
    RowsAddText(Section(c), 4);
    BrowserAddsText(Rows(Section(c), 4), userAgent);
    RowsAddText(Browser(Rows(Section(c), 4), userAgent), 4);
  }

  lemma ClosingFollows(c: Cursor, hash: JsString, signature: JsString)
    ensures Follows(c, Closing(c, hash, signature))
  {
    hide Evidence, Notes;
    EvidenceAddsText(Section(c), hash, signature);
    NotesAddText(Down(Evidence(Section(c), hash, signature), 1_600), 6);
  }

  lemma OffPaperStays(c: Cursor, c': Cursor)
    requires Follows(c, c') && RunsOffPaper(c)
    ensures RunsOffPaper(c')
  {
    var k :| 0 <= k < |c.drawn| && c.drawn[k].y < MARGIN;
    assert c'.drawn[k] == c.drawn[k];
  }

  lemma OpeningIsTidy()
    ensures IsTidy(Opening())
  {
    hide IsTidy, Rows, Section, Drawn, Down;
    var start := Cursor(0, TOP, []);
    assert IsTidy(start) by {
      NothingIsTidy();
    }
    var logo := Drawn(start, Line);
    DrawnIsTidy(start, Line);
    MovedDown(start, Line, 3_200);
    DownIsTidy(logo, 3_200);
    var title := Drawn(Down(logo, 3_200), Line);
    DrawnIsTidy(Down(logo, 3_200), Line);
    MovedDown(Down(logo, 3_200), Line, 2_200);
    DownIsTidy(title, 2_200);
    var reference := Drawn(Down(title, 2_200), Line);
    DrawnIsTidy(Down(title, 2_200), Line);
    DownIsTidy(reference, 2_600);
    SectionIsTidy(Down(reference, 2_600));
    RowsAreTidy(Section(Down(reference, 2_600)), 5);
  }

  lemma NothingIsTidy()
    ensures IsTidy(Cursor(0, TOP, []))
  {
  }

  lemma SignerFits(c: Cursor, userAgent: JsString)
    requires IsTidy(c)
    ensures |Chunk(userAgent, 62)| <= 67 ==> IsTidy(Signer(c, userAgent))
    ensures |Chunk(userAgent, 62)| > 67 ==> RunsOffPaper(Signer(c, userAgent))
  {
    hide IsTidy, Rows, Section, Browser, Chunk;
    SectionIsTidy(c);
    RowsAreTidy(Section(c), 4);
    var before := Rows(Section(c), 4);
    BrowserFits(before, userAgent);
    if |Chunk(userAgent, 62)| <= 67 {
      RowsAreTidy(Browser(before, userAgent), 4);
    } else {
      SignerFollows(c, userAgent);
      OffPaperStays(Browser(before, userAgent), Signer(c, userAgent));
    }
  }

  lemma {:induction false} SignersFit(c: Cursor, agents: seq<JsString>)
    requires IsTidy(c)
    ensures FitsAPage(agents) ==> IsTidy(Signers(c, agents))
    ensures !FitsAPage(agents) ==> RunsOffPaper(Signers(c, agents))
  {
    hide IsTidy, Signer, Chunk;
    if agents != [] {
      var n := |agents| - 1;
      SignersFit(c, agents[..n]);
      var before := Signers(c, agents[..n]);
      assert FitsAPage(agents) <==> FitsAPage(agents[..n]) && |Chunk(agents[n], 62)| <= 67;
      if FitsAPage(agents[..n]) {
        SignerFits(before, agents[n]);
      } else {
        SignerFollows(before, agents[n]);
        OffPaperStays(before, Signer(before, agents[n]));
      }
    }
  }

  lemma {:induction false} ColumnIsTidy(c: Cursor, lines: seq<JsString>)
    requires IsTidy(c) && c.y - 1_100 * |lines| >= MARGIN
    ensures IsTidy(Column(c, lines)) && Column(c, lines).y == c.y - 1_100 * |lines| && Column(c, lines).page == c.page
  {
    hide IsTidy;
    if lines != [] {
      var n := |lines| - 1;
      ColumnIsTidy(c, lines[..n]);
      DrawnIsTidy(Column(c, lines[..n]), Piece(lines[n]));
      DownIsTidy(Drawn(Column(c, lines[..n]), Piece(lines[n])), 1_100);
    }
  }

  /** The fingerprint and the seal, kept together on one page. */
  lemma EvidenceIsTidy(c: Cursor, hash: JsString, signature: JsString)
    requires IsTidy(c) && EvidenceHeight(hash, signature) <= TOP - MARGIN
    ensures IsTidy(Evidence(c, hash, signature))
    ensures Evidence(c, hash, signature).page == Ensured(c, EvidenceHeight(hash, signature)).page
  {
    hide IsTidy, Ensured, Drawn, Down, Chunk, Column;
    var needed := EvidenceHeight(hash, signature);
    var e := Ensured(c, needed);
    EnsuredIsTidy(c, needed);
    DrawnIsTidy(e, Line);
    MovedDown(e, Line, 1_400);
    DownIsTidy(Drawn(e, Line), 1_400);
    var caption := Down(Drawn(e, Line), 1_400);
    ColumnIsTidy(caption, Chunk(hash, 72));
    var prints := Column(caption, Chunk(hash, 72));
    DownBy(prints, 600);
    DownIsTidy(prints, 600);
    DrawnIsTidy(Down(prints, 600), Line);
    MovedDown(Down(prints, 600), Line, 1_400);
    DownIsTidy(Drawn(Down(prints, 600), Line), 1_400);
    ColumnIsTidy(Down(Drawn(Down(prints, 600), Line), 1_400), Chunk(signature, 72));
  }

  lemma DownBy(c: Cursor, points: int)
    ensures Down(c, points).y == c.y - points && Down(c, points).page == c.page && Down(c, points).drawn == c.drawn
  {
  }

  lemma MovedDown(c: Cursor, what: What, points: int)
    ensures Down(Drawn(c, what), points).y == c.y - points && Down(Drawn(c, what), points).page == c.page
  {
  }

  lemma {:induction false} NotesAreTidy(c: Cursor, n: nat)
    requires IsTidy(c)
    ensures IsTidy(Notes(c, n))
  {
    hide IsTidy, Ensured, Drawn, Down;
    if n > 0 {
      NotesAreTidy(c, n - 1);
      var e := Ensured(Notes(c, n - 1), 1_100);
      EnsuredIsTidy(Notes(c, n - 1), 1_100);
      DrawnIsTidy(e, Line);
      DownIsTidy(Drawn(e, Line), 1_100);
    }
  }

  /** Every mark of the certificate is drawn between the margins and in reading order (a label and
      its value share a line) exactly when no user agent takes more than 67 lines. */
  lemma CertificateIsTidy(agents: seq<JsString>, hash: JsString, signature: JsString)
    requires EvidenceHeight(hash, signature) <= TOP - MARGIN
    ensures IsTidy(Certificate(agents, hash, signature)) <==> FitsAPage(agents)
    ensures RunsOffPaper(Certificate(agents, hash, signature)) <==> !FitsAPage(agents)
  {
    hide IsInReadingOrder, Opening, Signers, Section, Evidence, Notes, Chunk, EvidenceHeight, FitsAPage;
    OpeningIsTidy();
    SignersFit(Opening(), agents);
    var before := Signers(Opening(), agents);
    if FitsAPage(agents) {
      SectionIsTidy(before);
      EvidenceIsTidy(Section(before), hash, signature);
      DownIsTidy(Evidence(Section(before), hash, signature), 1_600);
      NotesAreTidy(Down(Evidence(Section(before), hash, signature), 1_600), 6);
    } else {
      ClosingFollows(before, hash, signature);
      OffPaperStays(before, Certificate(agents, hash, signature));
    }
  }

  // ----- headings

  /** A section's title with no line of text under it on its page. */
  predicate IsOrphan(c: Cursor, k: nat)
    requires k < |c.drawn|
  {
    && c.drawn[k].what == Heading
    && forall l :: k < l < |c.drawn| && c.drawn[l].page == c.drawn[k].page ==> c.drawn[l].what == Rule
  }

  ghost predicate HasOrphan(c: Cursor) {
    exists k :: 0 <= k < |c.drawn| && IsOrphan(c, k)
  }

  /** What a section's title and its line come to. */
  lemma SectionMarks(c: Cursor)
    ensures var s, e := Section(c), Ensured(c, 6_400);
            && s.page == e.page && s.y == e.y - 3_200
            && s.drawn == c.drawn + [Mark(e.page, e.y - 1_000, Heading), Mark(e.page, e.y - 1_600, Rule)]
  {
  }

  /** A line on the page of the title just drawn keeps it company. */
  lemma TextUnderHeading(c: Cursor, c': Cursor)
    requires !HasOrphan(c) && Follows(Section(c), c')
    requires |c'.drawn| > |Section(c).drawn| && c'.drawn[|Section(c).drawn|].page == Section(c).page
    requires forall k :: |Section(c).drawn| <= k < |c'.drawn| ==>
               c'.drawn[k].what != Heading && c'.drawn[k].what != Rule
    ensures !HasOrphan(c')
  {
    hide Section;
    SectionMarks(c);
    var s := Section(c);
    var h := |c.drawn|;
    assert s.drawn[h].what == Heading && s.drawn[h].page == s.page;
    forall k | 0 <= k < |c'.drawn| ensures !IsOrphan(c', k) {
      if k < h {
        assert !IsOrphan(c, k) && c'.drawn[k] == s.drawn[k] == c.drawn[k];
        if c.drawn[k].what == Heading {
          var l :| k < l < h && c.drawn[l].page == c.drawn[k].page && c.drawn[l].what != Rule;
          assert c'.drawn[l] == s.drawn[l];
        }
      } else if k == h {
        assert c'.drawn[h] == s.drawn[h];
        assert c'.drawn[|s.drawn|].page == c'.drawn[h].page && c'.drawn[|s.drawn|].what != Rule;
      } else if k == h + 1 {
        assert c'.drawn[k] == s.drawn[k];
      }
    }
  }

  /** No text on the title's page: it is left alone at the foot of it. */
  lemma HeadingLeftAlone(c: Cursor, c': Cursor)
    requires Follows(Section(c), c')
    requires forall k :: |Section(c).drawn| <= k < |c'.drawn| ==> c'.drawn[k].page > Section(c).page
    ensures HasOrphan(c')
  {
    hide Section;
    SectionMarks(c);
    var h := |c.drawn|;
    assert Section(c).drawn[h].what == Heading && Section(c).drawn[h + 1].what == Rule;
    assert c'.drawn[h] == Section(c).drawn[h] && c'.drawn[h + 1] == Section(c).drawn[h + 1];
    assert IsOrphan(c', h);
  }

  // What the steps after a title add: text only.

  ghost predicate AddsText(c: Cursor, c': Cursor) {
    && Follows(c, c')
    && (forall k :: |c.drawn| <= k < |c'.drawn| ==> c'.drawn[k].what != Heading && c'.drawn[k].what != Rule)
    && (forall k :: |c.drawn| <= k < |c'.drawn| ==> c.page <= c'.drawn[k].page)
    && c.page <= c'.page
  }

  lemma AddsTextOn(a: Cursor, b: Cursor, c: Cursor)
    requires AddsText(a, b) && AddsText(b, c)
    ensures AddsText(a, c)
  {
    forall k | |a.drawn| <= k < |c.drawn|
      ensures c.drawn[k].what != Heading && c.drawn[k].what != Rule && a.page <= c.drawn[k].page
    {
      if k < |b.drawn| {
        assert c.drawn[k] == b.drawn[k];
      }
    }
  }

  lemma LineAddsText(c: Cursor, needed: int, points: int)
    ensures AddsText(c, Down(Drawn(Ensured(c, needed), Line), points))
  {
  }

  lemma {:induction false} RowsAddText(c: Cursor, n: nat)
    ensures AddsText(c, Rows(c, n))
  {
    if n > 0 {
      RowsAddText(c, n - 1);
      assert AddsText(Rows(c, n - 1), Row(Rows(c, n - 1)));
      AddsTextOn(c, Rows(c, n - 1), Rows(c, n));
    }
  }

  lemma {:induction false} StackAddsText(c: Cursor, lines: seq<JsString>)
    ensures AddsText(c, Stack(c, lines))
  {
    if lines != [] {
      var n := |lines| - 1;
      StackAddsText(c, lines[..n]);
      assert AddsText(Stack(c, lines[..n]), Stack(c, lines));
      AddsTextOn(c, Stack(c, lines[..n]), Stack(c, lines));
    }
  }

  lemma {:induction false} ColumnAddsText(c: Cursor, lines: seq<JsString>)
    ensures AddsText(c, Column(c, lines))
  {
    if lines != [] {
      var n := |lines| - 1;
      ColumnAddsText(c, lines[..n]);
      assert AddsText(Column(c, lines[..n]), Column(c, lines));
      AddsTextOn(c, Column(c, lines[..n]), Column(c, lines));
    }
  }

  lemma {:induction false} NotesAddText(c: Cursor, n: nat)
    ensures AddsText(c, Notes(c, n))
  {
    hide Ensured, Drawn, Down, AddsText;
    if n > 0 {
      NotesAddText(c, n - 1);
      LineAddsText(Notes(c, n - 1), 1_100, 1_100);
      AddsTextOn(c, Notes(c, n - 1), Notes(c, n));
    } else {
      NothingAdded(c, 0);
    }
  }

  lemma NothingAdded(c: Cursor, points: int)
    ensures AddsText(c, c) && AddsText(c, Down(c, points))
  {
  }

  lemma BrowserAddsText(c: Cursor, userAgent: JsString)
    ensures AddsText(c, Browser(c, userAgent))
  {
    hide Chunk, Stack, AddsText, Ensured, Drawn, Down;
    var ua := Chunk(userAgent, 62);
    var caption := Drawn(Ensured(c, 1_100 * |ua| + 900), Line);
    LineAddsText(c, 1_100 * |ua| + 900, 0);
    DownNothing(caption);
    StackAddsText(caption, ua);
    AddsTextOn(c, caption, Stack(caption, ua));
    NothingAdded(Stack(caption, ua), 2_000);
    AddsTextOn(c, Stack(caption, ua), Browser(c, userAgent));
  }

  lemma DownNothing(c: Cursor)
    ensures Down(c, 0) == c
  {
  }

  lemma EvidenceAddsText(c: Cursor, hash: JsString, signature: JsString)
    ensures AddsText(c, Evidence(c, hash, signature))
  {
    hide Chunk, Column, AddsText, Ensured, Drawn, Down, EvidenceHeight;
    var caption := Down(Drawn(Ensured(c, EvidenceHeight(hash, signature)), Line), 1_400);
    LineAddsText(c, EvidenceHeight(hash, signature), 1_400);
    var prints := Column(caption, Chunk(hash, 72));
    ColumnAddsText(caption, Chunk(hash, 72));
    AddsTextOn(c, caption, prints);
    NothingAdded(prints, 600);
    AddsTextOn(c, prints, Down(prints, 600));
    var sealLabel := Down(Drawn(Down(prints, 600), Line), 1_400);
    DrawnAddsText(Down(prints, 600), 1_400);
    AddsTextOn(c, Down(prints, 600), sealLabel);
    ColumnAddsText(sealLabel, Chunk(signature, 72));
    AddsTextOn(c, sealLabel, Evidence(c, hash, signature));
  }

  lemma DrawnAddsText(c: Cursor, points: int)
    ensures AddsText(c, Down(Drawn(c, Line), points))
  {
  }

  /** A title followed by a row is never alone: the space asked for leaves room for the row. */
  lemma RowUnderHeading(c: Cursor, c': Cursor)
    requires !HasOrphan(c) && AddsText(Row(Section(c)), c')
    ensures !HasOrphan(c')
  {
    hide HasOrphan, Section;
    SectionMarks(c);
    RoomForARow(c);
    var s, r := Section(c), Row(Section(c));
    assert r.drawn[|s.drawn|] == c'.drawn[|s.drawn|];
    forall k | |s.drawn| <= k < |c'.drawn| ensures c'.drawn[k].what != Heading && c'.drawn[k].what != Rule {
      if k < |r.drawn| {
        assert c'.drawn[k] == r.drawn[k];
      }
    }
    TextUnderHeading(c, c');
  }

  lemma RoomForARow(c: Cursor)
    ensures Ensured(Section(c), 1_800) == Section(c)
  {
  }

  lemma {:induction false} RowsAfterFirst(c: Cursor, n: nat)
    requires n > 0
    ensures AddsText(Row(c), Rows(c, n))
  {
    hide AddsText, Row;
    if n > 1 {
      RowsAfterFirst(c, n - 1);
      RowAddsText(Rows(c, n - 1));
      AddsTextOn(Row(c), Rows(c, n - 1), Rows(c, n));
    } else {
      assert Rows(c, 0) == c;
      NothingAdded(Row(c), 0);
    }
  }

  lemma RowAddsText(c: Cursor)
    ensures AddsText(c, Row(c))
  {
  }

  lemma SignerLeavesNoOrphan(c: Cursor, userAgent: JsString)
    requires !HasOrphan(c)
    ensures !HasOrphan(Signer(c, userAgent))
  {
    hide HasOrphan, AddsText, Section, Row, Rows, Browser;
    var rows := Rows(Section(c), 4);
    RowsAfterFirst(Section(c), 4);
    BrowserAddsText(rows, userAgent);
    AddsTextOn(Row(Section(c)), rows, Browser(rows, userAgent));
    RowsAddText(Browser(rows, userAgent), 4);
    AddsTextOn(Row(Section(c)), Browser(rows, userAgent), Signer(c, userAgent));
    RowUnderHeading(c, Signer(c, userAgent));
  }

  lemma {:induction false} SignersLeaveNoOrphan(c: Cursor, agents: seq<JsString>)
    requires !HasOrphan(c)
    ensures !HasOrphan(Signers(c, agents))
  {
    hide HasOrphan, Signer;
    if agents != [] {
      SignersLeaveNoOrphan(c, agents[..|agents| - 1]);
      SignerLeavesNoOrphan(Signers(c, agents[..|agents| - 1]), agents[|agents| - 1]);
    }
  }

  lemma OpeningLeavesNoOrphan()
    ensures !HasOrphan(Opening())
  {
    hide HasOrphan, AddsText, Section, Row, Rows;
    var titles := Down(Drawn(Down(Drawn(Down(Drawn(Cursor(0, TOP, []), Line), 3_200), Line), 2_200), Line), 2_600);
    TitlesAreNoHeadings(titles);
    RowsAfterFirst(Section(titles), 5);
    RowUnderHeading(titles, Opening());
  }

  lemma TitlesAreNoHeadings(titles: Cursor)
    requires titles == Down(Drawn(Down(Drawn(Down(Drawn(Cursor(0, TOP, []), Line), 3_200), Line), 2_200), Line), 2_600)
    ensures !HasOrphan(titles)
  {
    forall k | 0 <= k < |titles.drawn| ensures titles.drawn[k].what == Line {
    }
  }

  /** The fingerprint and the seal no longer fit under their own title. */
  predicate EvidenceMovesOn(c: Cursor, hash: JsString, signature: JsString) {
    Section(c).y - EvidenceHeight(hash, signature) < MARGIN
  }

  /** A section's title is left alone at the foot of a page exactly when the fingerprint and the
      seal do not fit under theirs: the title's own check asks for less room than they take. */
  lemma OrphanIffEvidenceMovesOn(agents: seq<JsString>, hash: JsString, signature: JsString)
    ensures HasOrphan(Certificate(agents, hash, signature))
            <==> EvidenceMovesOn(Signers(Opening(), agents), hash, signature)
  {
    hide HasOrphan, AddsText, Section, Signers, Opening, Evidence, Notes, EvidenceHeight;
    var c := Signers(Opening(), agents);
    OpeningLeavesNoOrphan();
    SignersLeaveNoOrphan(Opening(), agents);
    var s := Section(c);
    var evidence := Evidence(s, hash, signature);
    EvidenceAddsText(s, hash, signature);
    NothingAdded(evidence, 1_600);
    AddsTextOn(s, evidence, Down(evidence, 1_600));
    NotesAddText(Down(evidence, 1_600), 6);
    AddsTextOn(s, Down(evidence, 1_600), Closing(c, hash, signature));
    ClosingAfterTitle(c, hash, signature);
  }

  /** The first mark under the title, and the page all the rest is on or after. */
  lemma EvidenceStarts(s: Cursor, hash: JsString, signature: JsString)
    ensures var e, v := Ensured(s, EvidenceHeight(hash, signature)), Evidence(s, hash, signature);
            && |v.drawn| > |s.drawn| && v.drawn[|s.drawn|] == Mark(e.page, e.y, Line)
            && AddsText(e, v)
  {
    hide Chunk, Column, Ensured, EvidenceHeight;
    var e := Ensured(s, EvidenceHeight(hash, signature));
    assert e.drawn == s.drawn by {
      EnsuredDrawsNothing(s, EvidenceHeight(hash, signature));
    }
    var caption := Down(Drawn(e, Line), 1_400);
    ColumnAddsText(caption, Chunk(hash, 72));
    var sealLabel := Down(Drawn(Down(Column(caption, Chunk(hash, 72)), 600), Line), 1_400);
    ColumnAddsText(sealLabel, Chunk(signature, 72));
    assert caption.drawn <= Evidence(s, hash, signature).drawn;
    assert Evidence(s, hash, signature).drawn[|s.drawn|] == caption.drawn[|s.drawn|];
    EvidenceAfterItsCheck(s, hash, signature);
  }

  lemma EnsuredDrawsNothing(c: Cursor, needed: int)
    ensures Ensured(c, needed).drawn == c.drawn
  {
  }

  lemma EvidenceAfterItsCheck(s: Cursor, hash: JsString, signature: JsString)
    ensures AddsText(Ensured(s, EvidenceHeight(hash, signature)), Evidence(s, hash, signature))
  {
    hide Chunk, Column, AddsText, Ensured, Drawn, Down, EvidenceHeight;
    var e := Ensured(s, EvidenceHeight(hash, signature));
    var caption := Down(Drawn(e, Line), 1_400);
    DrawnAddsText(e, 1_400);
    var prints := Column(caption, Chunk(hash, 72));
    ColumnAddsText(caption, Chunk(hash, 72));
    AddsTextOn(e, caption, prints);
    NothingAdded(prints, 600);
    AddsTextOn(e, prints, Down(prints, 600));
    var sealLabel := Down(Drawn(Down(prints, 600), Line), 1_400);
    DrawnAddsText(Down(prints, 600), 1_400);
    AddsTextOn(e, Down(prints, 600), sealLabel);
    ColumnAddsText(sealLabel, Chunk(signature, 72));
    AddsTextOn(e, sealLabel, Evidence(s, hash, signature));
  }

  lemma ClosingAfterTitle(c: Cursor, hash: JsString, signature: JsString)
    requires !HasOrphan(c)
    requires AddsText(Section(c), Closing(c, hash, signature))
    ensures HasOrphan(Closing(c, hash, signature)) <==> EvidenceMovesOn(c, hash, signature)
  {
    hide HasOrphan, Section, Evidence, Notes, EvidenceHeight, AddsText;
    var s := Section(c);
    var evidence, closing := Evidence(s, hash, signature), Closing(c, hash, signature);
    var e := Ensured(s, EvidenceHeight(hash, signature));
    EvidenceStarts(s, hash, signature);
    NothingAdded(evidence, 1_600);
    AddsTextOn(e, evidence, Down(evidence, 1_600));
    NotesAddText(Down(evidence, 1_600), 6);
    AddsTextOn(e, Down(evidence, 1_600), closing);
    EvidenceIsKept(evidence, Down(evidence, 1_600), closing, |s.drawn|);
    if EvidenceMovesOn(c, hash, signature) {
      AllOnLaterPages(s, e, closing);
      HeadingLeftAlone(c, closing);
    } else {
      TextOnly(s, closing);
      TextUnderHeading(c, closing);
    }
  }

  lemma EvidenceIsKept(evidence: Cursor, below: Cursor, closing: Cursor, k: nat)
    requires k < |evidence.drawn| && below.drawn == evidence.drawn && AddsText(below, closing)
    ensures k < |closing.drawn| && closing.drawn[k] == evidence.drawn[k]
  {
  }

  lemma AllOnLaterPages(s: Cursor, e: Cursor, closing: Cursor)
    requires e == s.(page := s.page + 1, y := TOP) && AddsText(e, closing)
    ensures Follows(s, closing) && forall k :: |s.drawn| <= k < |closing.drawn| ==> closing.drawn[k].page > s.page
  {
  }

  lemma TextOnly(s: Cursor, closing: Cursor)
    requires AddsText(s, closing)
    ensures Follows(s, closing)
    ensures forall k :: |s.drawn| <= k < |closing.drawn| ==>
              closing.drawn[k].what != Heading && closing.drawn[k].what != Rule
  {
  }

  /** In figures, for a SHA-256 fingerprint and an Ed25519 seal: the title is left alone when the
      signers end between 120 and 155 points above the bottom edge. */
  lemma WhenEvidenceMovesOn(c: Cursor, hash: JsString, signature: JsString)
    requires |hash| == 64 && |signature| == 88 && c.y <= TOP
    ensures EvidenceHeight(hash, signature) == 6_700
    ensures EvidenceMovesOn(c, hash, signature) <==> 12_000 <= c.y < 15_500
  {
    hide Chunk;
    ChunkCount(hash, 72);
    ChunkCount(signature, 72);
  }

  lemma {:induction false} RowsDown(c: Cursor, n: nat)
    requires c.y - 1_800 * n >= MARGIN
    ensures Rows(c, n).y == c.y - 1_800 * n
  {
    if n > 0 {
      RowsDown(c, n - 1);
    }
  }

  lemma SignerDown(c: Cursor, userAgent: JsString)
    requires |Chunk(userAgent, 62)| == 3 && c.y - 21_800 >= MARGIN
    ensures Signer(c, userAgent).y == c.y - 21_800
  {
    hide Chunk, Rows, Stack;
    RowsDown(Section(c), 4);
    var before, ua := Rows(Section(c), 4), Chunk(userAgent, 62);
    StackDown(Drawn(Ensured(before, 4_200), Line), ua);
    RowsDown(Browser(before, userAgent), 4);
  }

  lemma {:induction false} StackDown(c: Cursor, lines: seq<JsString>)
    requires lines != []
    ensures Stack(c, lines).y == c.y - 1_100 * (|lines| - 1)
  {
    var n := |lines| - 1;
    if n > 0 {
      StackDown(c, lines[..n]);
    }
  }

  /** It happens with two signers whose browsers take three lines each. */
  lemma TwoSignersCanOrphanTheTitle(agents: seq<JsString>, hash: JsString, signature: JsString)
    requires |agents| == 2 && |Chunk(agents[0], 62)| == 3 && |Chunk(agents[1], 62)| == 3
    requires |hash| == 64 && |signature| == 88
    ensures HasOrphan(Certificate(agents, hash, signature))
  {
    hide HasOrphan, Certificate, Signer, Chunk, EvidenceMovesOn, Rows;
    var titles := Down(Drawn(Down(Drawn(Down(Drawn(Cursor(0, TOP, []), Line), 3_200), Line), 2_200), Line), 2_600);
    RowsDown(Section(titles), 5);
    var start := Opening();
    var one := [agents[0]];
    assert agents[..1] == one && one[..0] == [] && Signers(start, one[..0]) == start;
    var first := Signers(start, one);
    assert first == Signer(start, agents[0]);
    SignerDown(start, agents[0]);
    SignerDown(first, agents[1]);
    WhenEvidenceMovesOn(Signers(start, agents), hash, signature);
    OrphanIffEvidenceMovesOn(agents, hash, signature);
  }

  /** The printed fingerprint and seal, read back off the page, are the originals. */
  lemma EvidenceReadsBack(c: Cursor, hash: JsString, signature: JsString)
    requires hash != [] && signature != []
    ensures var v, n, h, s := Evidence(c, hash, signature), |c.drawn|, |Chunk(hash, 72)|, |Chunk(signature, 72)|;
            && |v.drawn| == n + 1 + h + 1 + s
            && (forall k :: 0 <= k < h ==> v.drawn[n + 1 + k].what == Piece(Chunk(hash, 72)[k]))
            && (forall k :: 0 <= k < s ==> v.drawn[n + 2 + h + k].what == Piece(Chunk(signature, 72)[k]))
            && Joined(Chunk(hash, 72)) == hash && Joined(Chunk(signature, 72)) == signature
  {
    hide Chunk, Column, Ensured, EvidenceHeight;
    EnsuredDrawsNothing(c, EvidenceHeight(hash, signature));
    var caption := Down(Drawn(Ensured(c, EvidenceHeight(hash, signature)), Line), 1_400);
    ColumnPieces(caption, Chunk(hash, 72));
    var sealCaption := Down(Drawn(Down(Column(caption, Chunk(hash, 72)), 600), Line), 1_400);
    ColumnPieces(sealCaption, Chunk(signature, 72));
    ChunksJoin(hash, 72);
    ChunksJoin(signature, 72);
  }

  lemma {:induction false} ColumnPieces(c: Cursor, lines: seq<JsString>)
    ensures var v := Column(c, lines);
            && |v.drawn| == |c.drawn| + |lines|
            && (forall k :: 0 <= k < |c.drawn| ==> v.drawn[k] == c.drawn[k])
            && (forall k :: 0 <= k < |lines| ==> v.drawn[|c.drawn| + k].what == Piece(lines[k]))
  {
    if lines != [] {
      ColumnPieces(c, lines[..|lines| - 1]);
    }
  }

  // ----- the cursor itself

  /** `buildCertificatePdf`'s two variables, and the page's content. */
  class Writer {
    var page: nat
    var y: int
    var drawn: seq<Mark>

    ghost function Value(): Cursor
      reads this
    {
      Cursor(page, y, drawn)
    }

    constructor ()
      ensures Value() == Cursor(0, TOP, [])
    {
      page := 0;
      y := TOP;
      drawn := [];
    }

    method EnsureRoom(needed: int)
      modifies this`page, this`y
      ensures Value() == Ensured(old(Value()), needed)
    {
      if y - needed >= MARGIN {
        return;
      }
      page := page + 1;
      y := TOP;
    }

    method DrawText(what: What)
      modifies this`drawn
      ensures Value() == Drawn(old(Value()), what)
    {
      drawn := drawn + [Mark(page, y, what)];
    }

    method DrawRow()
      modifies this
      ensures Value() == Row(old(Value()))
    {
      EnsureRoom(1_800);
      DrawText(Line);
      DrawText(Line);
      y := y - 1_800;
    }

    method DrawRows(n: nat)
      modifies this
      ensures Value() == Rows(old(Value()), n)
    {
      hide Row;
      for i := 0 to n
        invariant Value() == Rows(old(Value()), i)
      {
        DrawRow();
      }
    }

    method DrawSection()
      modifies this
      ensures Value() == Section(old(Value()))
    {
      EnsureRoom(6_400);
      y := y - 1_000;
      DrawText(Heading);
      y := y - 600;
      DrawText(Rule);
      y := y - 1_600;
    }

    method DrawBrowser(userAgent: JsString)
      modifies this
      ensures Value() == Browser(old(Value()), userAgent)
    {
      hide Chunk;
      var ua := ChunkText(userAgent, 62);
      EnsureRoom(1_100 * |ua| + 900);
      DrawText(Line);
      ghost var start := Value();
      for j := 0 to |ua|
        invariant Value() == (if 0 < j < |ua| then Down(Stack(start, ua[..j]), 1_100) else Stack(start, ua[..j]))
      {
        assert ua[..j + 1][..j] == ua[..j];
        DrawText(Piece(ua[j]));
        if j < |ua| - 1 {
          y := y - 1_100;
        }
      }
      assert ua[..|ua|] == ua;
      y := y - 2_000;
    }

    method DrawColumn(lines: seq<JsString>)
      modifies this
      ensures Value() == Column(old(Value()), lines)
    {
      for i := 0 to |lines|
        invariant Value() == Column(old(Value()), lines[..i])
      {
        assert lines[..i + 1][..i] == lines[..i];
        DrawText(Piece(lines[i]));
        y := y - 1_100;
      }
      assert lines[..|lines|] == lines;
    }

    /** `buildCertificatePdf`, from a fresh page. */
    method Build(agents: seq<JsString>, hash: JsString, signature: JsString)
      requires Value() == Cursor(0, TOP, [])
      modifies this
      ensures Value() == Certificate(agents, hash, signature)
    {
      hide Rows, Section, Browser, Column, Chunk, Ensured;
      DrawText(Line);
      y := y - 3_200;
      DrawText(Line);
      y := y - 2_200;
      DrawText(Line);
      y := y - 2_600;
      DrawSection();
      DrawRows(5);
      assert Value() == Opening();
      for i := 0 to |agents|
        invariant Value() == Signers(Opening(), agents[..i])
      {
        assert agents[..i + 1][..i] == agents[..i];
        DrawSection();
        DrawRows(4);
        DrawBrowser(agents[i]);
        DrawRows(4);
      }
      assert agents[..|agents|] == agents;
      DrawClosing(hash, signature);
    }

    method DrawClosing(hash: JsString, signature: JsString)
      modifies this
      ensures Value() == Closing(old(Value()), hash, signature)
    {
      hide Section, Column, Chunk, Ensured;
      var hashLines := ChunkText(hash, 72);
      var sealLines := ChunkText(signature, 72);
      DrawSection();
      EnsureRoom(1_400 + |hashLines| * 1_100 + 2_000 + |sealLines| * 1_100);
      DrawText(Line);
      y := y - 1_400;
      DrawColumn(hashLines);
      y := y - 600;
      DrawText(Line);
      y := y - 1_400;
      DrawColumn(sealLines);
      y := y - 1_600;
      ghost var below := Value();
      assert below == Down(Evidence(Section(old(Value())), hash, signature), 1_600);
      for i := 0 to 6
        invariant Value() == Notes(below, i)
      {
        EnsureRoom(1_100);
        DrawText(Line);
        y := y - 1_100;
      }
    }
  }
}

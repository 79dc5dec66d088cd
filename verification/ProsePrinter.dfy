/** A printer for prose files, and the proof that scripts/generate-docs.ts
    parses what it prints back to the same file. */
module ProsePrinter {
  import opened Wrappers
  import opened Texts
  import opened Prose

  // ---------- Well-formed files ----------

  /** A name, optionally followed by a parameter list without white space. */
  predicate KeyOk(key: string) {
    var n := WordRun(key);
    n > 0 && (n == |key| || IsTypeList(key[n..])) && forall i :: 0 <= i < |key| ==> !IsSpace(key[i])
  }

  /** Text that can be a body: trimmed, fences balanced, no unfenced heading. */
  ghost predicate TextOk(t: string) {
    Trimmed(t) && NoSplit(Split(t)) && !FenceAfter(Split(t))
  }

  /** An access line has something on it; without one the body must not start
      with the words of one. */
  ghost predicate BlockOk(b: Block) {
    && (if b.kind == ReceiveBlock then b.key == "receive" else KeyOk(b.key))
    && TextOk(b.body)
    && match b.access
       case None => !("access:" < b.body)
       case Some(a) => a != "" && Trimmed(a) && AllDots(a)
  }

  ghost predicate DocOk(d: Doc) {
    && d.summary != "" && TextOk(d.summary) && (d.concepts.Some? ==> TextOk(d.concepts.value))
    && forall i :: 0 <= i < |d.blocks| ==> BlockOk(d.blocks[i]) && d.blocks[i].order == i
  }

  // ---------- Printing ----------

  function BlockHeading(b: Block): string {
    if b.kind == ReceiveBlock then "receive" else KindWord(b.kind) + b.key
  }

  function BlockText(b: Block): string {
    match b.access
    case None => b.body
    case Some(a) => "access: " + a + if b.body == "" then "" else "\n" + b.body
  }

  /** A heading line with the segment it should become. */
  datatype Section = Section(headline: string, seg: Seg)

  function BlockSection(b: Block): Section {
    Section("## " + BlockHeading(b), Seg(2, BlockHeading(b), Split(BlockText(b))))
  }

  function TopSection(name: string, text: string): Section {
    Section("# " + name, Seg(1, name, Split(text)))
  }

  function HeadSections(d: Doc): seq<Section> {
    [TopSection("summary", d.summary)] +
    if d.concepts.Some? then [TopSection("concepts", d.concepts.value)] else []
  }

  function BlockSections(blocks: seq<Block>): seq<Section> {
    if blocks == [] then [] else BlockSections(blocks[..|blocks| - 1]) + [BlockSection(blocks[|blocks| - 1])]
  }

  function LinesOf(sections: seq<Section>): seq<string> {
    if sections == [] then []
    else
      var s := sections[|sections| - 1];
      LinesOf(sections[..|sections| - 1]) + ([s.headline] + s.seg.body)
  }

  function Print(d: Doc): string {
    Join(LinesOf(HeadSections(d) + BlockSections(d.blocks)))
  }

  // ---------- Segmentation of printed lines ----------

  ghost predicate SectionOk(s: Section) {
    && OneLine(s.headline) && (forall l :: l in s.seg.body ==> OneLine(l))
    && !IsFence(s.headline) && HeadingOf(s.headline) == Some((s.seg.level, s.seg.heading))
    && NoSplit(s.seg.body) && !FenceAfter(s.seg.body)
  }

  ghost predicate SectionsOk(sections: seq<Section>) {
    forall s :: s in sections ==> SectionOk(s)
  }

  function SegsOf(sections: seq<Section>): seq<Seg> {
    if sections == [] then [] else SegsOf(sections[..|sections| - 1]) + [sections[|sections| - 1].seg]
  }

  lemma ScanAppend(lines: seq<string>, line: string)
    requires ScanAll(lines).Ok?
    ensures ScanAll(lines + [line]) == ScanLine(ScanAll(lines).value, line)
  {
    hide ScanLine;
    assert (lines + [line])[..|lines|] == lines;
  }

  lemma NoSplitPrefix(body: seq<string>)
    requires body != [] && NoSplit(body)
    ensures NoSplit(body[..|body| - 1])
    ensures FenceAfter(body) || HeadingOf(body[|body| - 1]) == None
  {
    hide HeadingOf;
    var init := body[..|body| - 1];
    forall i: nat | i < |init|
      ensures !SplitsAt(init, i)
    {
      assert init[..i + 1] == body[..i + 1];
      assert !SplitsAt(body, i);
    }
    assert body[..|body|] == body;
    assert !SplitsAt(body, |body| - 1);
  }

  /** After a heading line, a body without unfenced headings becomes the body of
      the open segment. */
  lemma {:induction false} ScanBody(lines: seq<string>, segs: seq<Seg>, cur: Seg, body: seq<string>)
    requires ScanAll(lines) == Ok(Scan(segs, Some(cur), false)) && cur.body == [] && NoSplit(body)
    ensures ScanAll(lines + body) == Ok(Scan(segs, Some(cur.(body := body)), FenceAfter(body)))
    decreases |body|
  {
    hide HeadingOf, Trim, ScanAll, NoSplit, IsFence;
    if body == [] {
      assert lines + body == lines;
    } else {
      var init, line := body[..|body| - 1], body[|body| - 1];
      NoSplitPrefix(body);
      ScanBody(lines, segs, cur, init);
      ScanAppend(lines + init, line);
      assert lines + body == (lines + init) + [line] && body == init + [line];
    }
  }

  lemma {:induction false} ScanSections(sections: seq<Section>)
    requires SectionsOk(sections)
    ensures ScanAll(LinesOf(sections)).Ok? && !ScanAll(LinesOf(sections)).value.inFence
    ensures Closed(ScanAll(LinesOf(sections)).value) == SegsOf(sections)
    decreases |sections|
  {
    hide HeadingOf, Trim, NoSplit, IsFence, FenceAfter;
    if sections != [] {
      var init, s := sections[..|sections| - 1], sections[|sections| - 1];
      assert forall x :: x in init ==> x in sections;
      assert SectionOk(s);
      hide SectionOk;
      ScanSections(init);
      ScanSection(LinesOf(init), s);
    }
  }

  lemma ScanSection(lines: seq<string>, s: Section)
    requires ScanAll(lines).Ok? && !ScanAll(lines).value.inFence && SectionOk(s)
    ensures ScanAll(lines + ([s.headline] + s.seg.body)) == Ok(Scan(Closed(ScanAll(lines).value), Some(s.seg), false))
  {
    hide HeadingOf, Trim, NoSplit, IsFence, FenceAfter, ScanAll;
    ScanAppend(lines, s.headline);
    ScanBody(lines + [s.headline], Closed(ScanAll(lines).value), s.seg.(body := []), s.seg.body);
    assert lines + ([s.headline] + s.seg.body) == lines + [s.headline] + s.seg.body;
  }

  lemma {:induction false} LinesAreLines(sections: seq<Section>)
    requires SectionsOk(sections)
    ensures forall l :: l in LinesOf(sections) ==> OneLine(l)
    ensures sections != [] ==> LinesOf(sections) != []
    decreases |sections|
  {
    hide HeadingOf, NoSplit, IsFence, FenceAfter;
    if sections != [] {
      var init, s := sections[..|sections| - 1], sections[|sections| - 1];
      assert forall x :: x in init ==> x in sections;
      LinesAreLines(init);
      assert SectionOk(s);
    }
  }

  lemma PrintedSegments(sections: seq<Section>)
    requires SectionsOk(sections) && sections != []
    ensures Segments(Split(Join(LinesOf(sections)))) == Ok(SegsOf(sections))
  {
    hide SectionsOk, ScanAll;
    LinesAreLines(sections);
    SplitJoin(LinesOf(sections));
    ScanSections(sections);
  }

  // ---------- Printed sections are well formed ----------

  lemma TopSectionOk(name: string, text: string)
    requires name == "summary" || name == "concepts"
    requires TextOk(text)
    ensures SectionOk(TopSection(name, text))
  {
    hide NoSplit, FenceAfter, Trim, HeadingOf, IsFence, OneLine;
    assert AllDots(name) && Trimmed(name);
    TopLineReads(name);
  }

  lemma TopLineReads(h: string)
    requires h != "" && Trimmed(h) && AllDots(h)
    ensures HeadingOf("# " + h) == Some((1, h)) && !IsFence("# " + h) && OneLine("# " + h)
  {
    hide Trim, IsSpace;
    var line := "# " + h;
    assert line[0] == '#' && line[1] == ' ' && line[2..] == h;
    assert forall i :: 2 <= i < |line| ==> line[i] == h[i - 2];
  }

  lemma KeyShape(key: string)
    requires KeyOk(key)
    ensures ParseKey(key) == Some(key) && key != "" && Trimmed(key) && AllDots(key)
  {
    var n := WordRun(key);
    assert forall i :: 0 <= i < |key| && !IsSpace(key[i]) ==> IsDot(key[i]);
    if n < |key| {
      assert key[..n] + key[n..] == key;
    }
  }

  lemma HeadingShape(b: Block)
    requires BlockOk(b)
    ensures BlockHeading(b) != "" && Trimmed(BlockHeading(b)) && AllDots(BlockHeading(b))
  {
    hide TextOk, ParseKey, KeyOk;
    if b.kind != ReceiveBlock {
      KeyShape(b.key);
      var w, h := KindWord(b.kind), BlockHeading(b);
      assert h == w + b.key && h[|h| - 1] == b.key[|b.key| - 1] && h[0] == w[0];
      assert forall i :: 0 <= i < |h| ==> h[i] == if i < |w| then w[i] else b.key[i - |w|];
    }
  }

  lemma WordThenKey(w: string, key: string)
    ensures w <= w + key && (w + key)[|w|..] == key
  {
  }

  /** A heading that starts otherwise is not of this kind. */
  lemma OtherWord(w: string, h: string, i: nat)
    requires i < |w| && i < |h| && w[i] != h[i]
    ensures !(w <= h)
  {
  }

  lemma FunctionReads(key: string)
    requires ParseKey(key) == Some(key)
    ensures ParseBlockHeading("function " + key) == Some((FunctionBlock, key))
  {
    hide ParseKey;
    WordThenKey("function ", key);
    assert ("function " + key)[0] == 'f' && "receive"[0] == 'r';
  }

  lemma EventReads(key: string)
    requires ParseKey(key) == Some(key)
    ensures ParseBlockHeading("event " + key) == Some((EventBlock, key))
  {
    hide ParseKey;
    WordThenKey("event ", key);
    var h := "event " + key;
    assert h[0] == 'e' && "receive"[0] == 'r';
    OtherWord("function ", h, 0);
  }

  lemma ErrorReads(key: string)
    requires ParseKey(key) == Some(key)
    ensures ParseBlockHeading("error " + key) == Some((ErrorBlock, key))
  {
    hide ParseKey;
    WordThenKey("error ", key);
    var h := "error " + key;
    assert h[0] == 'e' && h[1] == 'r' && "receive"[0] == 'r';
    OtherWord("function ", h, 0);
    OtherWord("event ", h, 1);
  }

  /** The headings the printer writes are the ones the parser reads. */
  lemma HeadingReads(b: Block)
    requires BlockOk(b)
    ensures ParseBlockHeading(BlockHeading(b)) == Some((b.kind, b.key))
  {
    hide TextOk, ParseKey, KeyOk, AllDots, Trimmed, ParseBlockHeading;
    if b.kind == ReceiveBlock {
      ReceiveReads();
    } else {
      KeyShape(b.key);
      match b.kind
      case FunctionBlock => FunctionReads(b.key);
      case EventBlock => EventReads(b.key);
      case ErrorBlock => ErrorReads(b.key);
    }
  }

  lemma ReceiveReads()
    ensures ParseBlockHeading("receive") == Some((ReceiveBlock, "receive"))
  {
    hide ParseKey;
  }

  lemma HeadlineReads(h: string)
    requires h != "" && Trimmed(h) && AllDots(h)
    ensures HeadingOf("## " + h) == Some((2, h)) && !IsFence("## " + h) && OneLine("## " + h)
  {
    hide Trim, IsSpace;
    var line := "## " + h;
    assert line[0] == '#' && line[1] == '#' && line[2] == ' ' && line[3..] == h;
    assert forall i :: 3 <= i < |line| ==> line[i] == h[i - 3];
    assert !("# " <= line) by { assert "# "[1] != line[1]; }
  }

  lemma NoSplitCons(line: string, body: seq<string>)
    requires NoSplit(body) && HeadingOf(line) == None && !IsFence(line)
    ensures NoSplit([line] + body) && FenceAfter([line] + body) == FenceAfter(body)
  {
    hide HeadingOf, IsFence;
    var b := [line] + body;
    forall i: nat | i <= |body|
      ensures FenceAfter(b[..i + 1]) == FenceAfter(body[..i])
    {
      FenceCons(line, body[..i]);
      assert b[..i + 1] == [line] + body[..i];
    }
    forall i: nat | i < |b|
      ensures !SplitsAt(b, i)
    {
      if i > 0 {
        assert b[i] == body[i - 1] && !SplitsAt(body, i - 1);
      }
    }
    assert b[..|b|] == b && body[..|body|] == body;
  }

  lemma {:induction false} FenceCons(line: string, body: seq<string>)
    requires !IsFence(line)
    ensures FenceAfter([line] + body) == FenceAfter(body)
    decreases |body|
  {
    hide IsFence;
    if body == [] {
      assert [line] + body == [line] && [line][..0] == [];
    } else {
      FenceCons(line, body[..|body| - 1]);
      assert ([line] + body)[..|body|] == [line] + body[..|body| - 1];
    }
  }

  /** The text of a block is fit to be a body, and the access line can be taken
      off again. */
  lemma BlockTextReads(b: Block)
    requires BlockOk(b)
    ensures TextOk(BlockText(b)) && ExtractAccess(BlockText(b)) == (b.access, b.body)
  {
    hide NoSplit, FenceAfter, KeyOk, HeadingOf, IsFence;
    match b.access
    case None => NoAccessReads(b.body);
    case Some(a) =>
      var line := "access: " + a;
      AccessLine(a);
      if b.body == "" {
        SplitOneLine(line);
        NoSplitNothing();
        NoSplitCons(line, []);
        FenceNothing();
        assert [line] + [] == [line] && BlockText(b) == line;
      } else {
        SplitLine(line, b.body);
        NoSplitCons(line, Split(b.body));
        assert BlockText(b) == line + "\n" + b.body;
      }
      AccessReads(a, b.body);
  }

  lemma FenceNothing()
    ensures !FenceAfter([])
  {
  }

  lemma AccessLine(a: string)
    requires a != "" && Trimmed(a) && AllDots(a)
    ensures OneLine("access: " + a) && HeadingOf("access: " + a) == None && !IsFence("access: " + a)
  {
    var line := "access: " + a;
    assert line[0] == 'a';
  }

  lemma NoAccessReads(body: string)
    requires Trimmed(body) && !("access:" < body)
    ensures ExtractAccess(body) == (None, body)
  {
    if "access:" <= body { assert body == "access:" && body[7..] == ""; }
  }

  lemma {:induction false} DotRunAll(a: string, rest: string)
    requires AllDots(a) && (rest != "" ==> !IsDot(rest[0]))
    ensures DotRun(a + rest) == |a|
    decreases |a|
  {
    if a == "" {
      assert a + rest == rest;
    } else {
      assert (a + rest)[1..] == a[1..] + rest;
      DotRunAll(a[1..], rest);
    }
  }

  lemma AccessReads(a: string, body: string)
    requires a != "" && Trimmed(a) && AllDots(a) && Trimmed(body)
    ensures var text := "access: " + a + if body == "" then "" else "\n" + body;
      Trimmed(text) && ExtractAccess(text) == (Some(a), body)
  {
    hide AllDots, IsSpace, TrimStart, Trim;
    var tail := if body == "" then "" else "\n" + body;
    var text := "access: " + a + tail;
    AccessTrimmed(a, body);
    AccessTail(a, tail);
    DotRunAll(a, tail);
    assert (a + tail)[..|a|] == a;
    if body != "" {
      assert (a + tail)[|a|] == '\n' && (a + tail)[|a| + 1..] == body;
    } else {
      assert a + tail == a && a[|a|..] == "";
    }
  }

  lemma AccessTrimmed(a: string, body: string)
    requires a != "" && Trimmed(a) && Trimmed(body)
    ensures Trimmed("access: " + a + if body == "" then "" else "\n" + body)
  {
    var text := "access: " + a + if body == "" then "" else "\n" + body;
    assert text[0] == 'a' && text[|text| - 1] == if body == "" then a[|a| - 1] else body[|body| - 1];
  }

  lemma AccessTail(a: string, tail: string)
    requires a != "" && !IsSpace(a[0])
    ensures var text := "access: " + a + tail;
      "access:" <= text && AfterColon(text) == a + tail
  {
    hide IsSpace, TrimStart;
    var text := "access: " + a + tail;
    assert text == "access:" + (" " + (a + tail));
    assert text[7..] == " " + (a + tail);
    SkipSpace(a + tail);
  }

  lemma SkipSpace(s: string)
    requires s != "" && !IsSpace(s[0])
    ensures TrimStart(" " + s) == s
  {
    assert IsSpace(' ');
    hide IsSpace;
    assert (" " + s)[1..] == s;
  }

  lemma BlockSectionOk(b: Block)
    requires BlockOk(b)
    ensures SectionOk(BlockSection(b))
  {
    hide NoSplit, FenceAfter, KeyOk, HeadingOf, IsFence, OneLine, Trimmed, AllDots;
    HeadingShape(b);
    HeadlineReads(BlockHeading(b));
    BlockTextReads(b);
  }

  lemma {:induction false} BlockSectionsOk(blocks: seq<Block>)
    requires forall i :: 0 <= i < |blocks| ==> BlockOk(blocks[i])
    ensures SectionsOk(BlockSections(blocks))
    decreases |blocks|
  {
    hide BlockOk, SectionOk;
    if blocks != [] {
      BlockSectionsOk(blocks[..|blocks| - 1]);
      BlockSectionOk(blocks[|blocks| - 1]);
    }
  }

  lemma DocSectionsOk(d: Doc)
    requires DocOk(d)
    ensures SectionsOk(HeadSections(d) + BlockSections(d.blocks))
  {
    hide TextOk, SectionOk, BlockOk;
    TopSectionOk("summary", d.summary);
    if d.concepts.Some? { TopSectionOk("concepts", d.concepts.value); }
    BlockSectionsOk(d.blocks);
  }

  // ---------- The second loop on printed segments ----------

  lemma {:induction false} SegsOfAppend(a: seq<Section>, b: seq<Section>)
    ensures SegsOf(a + b) == SegsOf(a) + SegsOf(b)
    decreases |b|
  {
    if b == [] {
      assert a + b == a;
    } else {
      assert (a + b)[..|a + b| - 1] == a + b[..|b| - 1];
      SegsOfAppend(a, b[..|b| - 1]);
    }
  }

  lemma AddSegsAppend(segs: seq<Seg>, s: Seg)
    requires AddSegs(segs).Ok?
    ensures AddSegs(segs + [s]) == AddSeg(AddSegs(segs).value, s)
  {
    hide AddSeg;
    assert (segs + [s])[..|segs|] == segs;
  }

  lemma HeadReads(d: Doc)
    requires DocOk(d)
    ensures AddSegs(SegsOf(HeadSections(d))) == Ok(Doc(d.summary, d.concepts, []))
  {
    hide BlockOk, NoSplit, FenceAfter, Trim, Join, AddSegs;
    AddSegsEmpty();
    JoinSplit(d.summary);
    var s := TopSection("summary", d.summary);
    assert SegsOf([s]) == [] + [s.seg] == [s.seg];
    AddSegsAppend([], s.seg);
    if d.concepts.Some? {
      JoinSplit(d.concepts.value);
      var c := TopSection("concepts", d.concepts.value);
      assert HeadSections(d) == [s] + [c];
      SegsOfAppend([s], [c]);
      assert SegsOf([c]) == [] + [c.seg] == [c.seg];
      AddSegsAppend([s.seg], c.seg);
    } else {
      assert HeadSections(d) == [s];
    }
  }

  lemma AddSegsEmpty()
    ensures AddSegs([]) == Ok(Doc("", None, []))
  {
  }

  lemma BlockReads(d: Doc, b: Block)
    requires BlockOk(b) && b.order == |d.blocks|
    ensures AddSeg(d, BlockSection(b).seg) == Ok(d.(blocks := d.blocks + [b]))
  {
    hide NoSplit, FenceAfter, KeyOk, ParseBlockHeading, ExtractAccess, BlockText, BlockHeading;
    HeadingReads(b);
    BlockTextReads(b);
    JoinSplit(BlockText(b));
  }

  lemma {:induction false} BlocksRead(d: Doc, head: seq<Seg>, blocks: seq<Block>)
    requires AddSegs(head) == Ok(d) && d.blocks == []
    requires forall i :: 0 <= i < |blocks| ==> BlockOk(blocks[i]) && blocks[i].order == i
    ensures AddSegs(head + SegsOf(BlockSections(blocks))) == Ok(d.(blocks := blocks))
    decreases |blocks|
  {
    hide BlockOk, AddSeg, AddSegs, BlockSection;
    if blocks == [] {
      assert head + [] == head;
    } else {
      var init, b := blocks[..|blocks| - 1], blocks[|blocks| - 1];
      BlocksRead(d, head, init);
      var segs, s := head + SegsOf(BlockSections(init)), BlockSection(b).seg;
      SegsOfAppend(BlockSections(init), [BlockSection(b)]);
      assert SegsOf([BlockSection(b)]) == [] + [s];
      assert head + SegsOf(BlockSections(blocks)) == segs + [s];
      AddSegsAppend(segs, s);
      BlockReads(d.(blocks := init), b);
      assert init + [b] == blocks;
    }
  }

  /** Printing a well-formed prose file and parsing the text returns the file. */
  lemma RoundTrip(d: Doc)
    requires DocOk(d)
    ensures ParseProse(Print(d)) == Ok(d)
  {
    hide BlockOk, AddSegs, Segments, Split, Join, SectionsOk, HeadSections, BlockSections, TextOk;
    var sections := HeadSections(d) + BlockSections(d.blocks);
    DocSectionsOk(d);
    HeadNotEmpty(d);
    PrintedSegments(sections);
    SegsOfAppend(HeadSections(d), BlockSections(d.blocks));
    HeadReads(d);
    BlocksRead(Doc(d.summary, d.concepts, []), SegsOf(HeadSections(d)), d.blocks);
  }

  lemma HeadNotEmpty(d: Doc)
    ensures HeadSections(d) != []
  {
  }

  // ---------- Exactly when an access line is read as one ----------

  /** The text after `access:` on its own line. */
  function OwnLine(text: string): string
    requires "access:" <= text
  {
    text[7..][..DotRun(text[7..])]
  }

  /** The first line of `s`, and what follows it, both trimmed. */
  function FirstLine(s: string): (Option<string>, string) {
    var n := DotRun(s);
    (Some(Trim(s[..n])), Trim(if n < |s| && s[n] == '\n' then s[n + 1..] else s[n..]))
  }

  /** An access line read line by line: its own text, and the body after it. */
  function LineAccess(text: string): (Option<string>, string)
    requires "access:" <= text
  {
    FirstLine(text[7..])
  }

  lemma {:induction false} TrimStartAt(s: string, j: nat)
    requires j <= |s| && (forall i :: 0 <= i < j ==> IsSpace(s[i])) && (j < |s| ==> !IsSpace(s[j]))
    ensures TrimStart(s) == s[j..]
    decreases j
  {
    hide IsSpace;
    if j > 0 { TrimStartAt(s[1..], j - 1); }
  }

  lemma {:induction false} DotRunSkip(s: string, j: nat)
    requires j <= DotRun(s)
    ensures DotRun(s) == j + DotRun(s[j..])
    decreases j
  {
    hide IsDot;
    if j > 0 {
      DotRunSkip(s[1..], j - 1);
      assert s[1..][j - 1..] == s[j..];
    } else {
      assert s[0..] == s;
    }
  }

  /** Trimming leaves nothing exactly of white space. */
  lemma TrimEmpty(s: string)
    ensures Trim(s) == "" <==> forall i :: 0 <= i < |s| ==> IsSpace(s[i])
  {
    hide IsSpace;
    var r := TrimStart(s);
    if r != "" {
      assert s[|s| - |r|] == r[0] && !IsSpace(r[0]);
    }
  }

  /** A line break is white space, so what is not is matched by `.`. */
  lemma InkIsDot(c: char)
    requires !IsSpace(c)
    ensures IsDot(c)
  {
  }

  /** An access that is found is never empty. */
  lemma AccessHasInk(text: string)
    ensures ExtractAccess(text).0 != Some("")
  {
    hide IsSpace, IsDot, TrimStart, Trim;
    if "access:" <= text && AfterColon(text) != "" {
      var s := AfterColon(text);
      InkIsDot(s[0]);
      TrimEmpty(s[..DotRun(s)]);
      assert s[..DotRun(s)][0] == s[0];
    }
  }

  /** On any text starting with `access:`: what is taken is the trimmed rest of
      that line, leaving everything after the line, if and only if something other
      than white space follows the colon on it. */
  lemma AccessExactIff(text: string)
    requires "access:" <= text
    ensures ExtractAccess(text) == LineAccess(text) <==> Trim(OwnLine(text)) != ""
  {
    hide TrimStart, Trim, IsSpace, IsDot;
    AccessHasInk(text);
    TrimEmpty(OwnLine(text));
    if Trim(OwnLine(text)) != "" { InkedLineReads(text); }
  }

  lemma InkedLineReads(text: string)
    requires "access:" <= text && Trim(OwnLine(text)) != ""
    ensures ExtractAccess(text) == LineAccess(text)
  {
    hide TrimStart, Trim, FirstLine;
    var rest := text[7..];
    var j := InkStart(rest, DotRun(rest));
    LineFromInk(rest, j);
    assert ExtractAccess(text) == FirstLine(AfterColon(text)) by { TakesFirstLine(text); }
  }

  lemma TakesFirstLine(text: string)
    requires "access:" <= text && AfterColon(text) != ""
    ensures ExtractAccess(text) == FirstLine(AfterColon(text))
  {
  }

  lemma LineFromInk(rest: string, j: nat)
    requires j < DotRun(rest) && (forall i :: 0 <= i < j ==> IsSpace(rest[i])) && !IsSpace(rest[j])
    ensures FirstLine(rest[j..]) == FirstLine(rest)
  {
    var n := DotRun(rest);
    hide TrimStart, TrimEnd, Trim, IsSpace, IsDot, DotRun;
    DotRunSkip(rest, j);
    SkipTrimmed(rest[..n], j);
    Slices(rest, j, n);
  }

  lemma Slices(s: string, j: nat, n: nat)
    requires j <= n <= |s|
    ensures s[..n][j..] == s[j..][..n - j] && s[j..][n - j..] == s[n..]
    ensures n < |s| ==> s[j..][n - j] == s[n] && s[j..][n - j + 1..] == s[n + 1..]
  {
  }

  /** Where the ink of a line starts is where skipping white space ends. */
  lemma InkStart(rest: string, n: nat) returns (j: nat)
    requires n <= |rest| && Trim(rest[..n]) != ""
    ensures j < n && TrimStart(rest) == rest[j..]
    ensures (forall i :: 0 <= i < j ==> IsSpace(rest[i])) && !IsSpace(rest[j])
  {
    hide IsSpace;
    TrimEmpty(rest[..n]);
    var i :| 0 <= i < n && !IsSpace(rest[..n][i]);
    j := |rest| - |TrimStart(rest)|;
    assert rest[..n][i] == rest[i];
  }

  lemma SkipTrimmed(own: string, j: nat)
    requires j < |own| && (forall i :: 0 <= i < j ==> IsSpace(own[i])) && !IsSpace(own[j])
    ensures Trim(own) == Trim(own[j..])
  {
    hide IsSpace, TrimEnd, TrimStart;
    TrimStartAt(own, j);
    TrimStartAt(own[j..], 0);
  }

  /** For a block whose parts are trimmed: its printed text reads back as its
      access line and body if and only if the access line says something, or there
      is none and the body does not start like one. */
  lemma AccessReadsBackIff(b: Block)
    requires Trimmed(b.body) && (b.access.Some? ==> Trimmed(b.access.value) && AllDots(b.access.value))
    ensures ExtractAccess(Trim(BlockText(b))) == (b.access, b.body) <==>
      if b.access.Some? then b.access.value != "" else !("access:" < b.body)
  {
    hide Trim, IsSpace, TrimStart, AllDots;
    if b.access.Some? {
      AccessHasInk(Trim(BlockText(b)));
      if b.access.value != "" { AccessReads(b.access.value, b.body); }
    } else if "access:" < b.body {
      StartsLikeAccess(b.body);
    } else {
      NoAccessReads(b.body);
    }
  }

  lemma StartsLikeAccess(body: string)
    requires Trimmed(body) && "access:" < body
    ensures ExtractAccess(body).0.Some?
  {
    hide IsSpace, Trim;
    var rest := body[7..];
    assert rest[|rest| - 1] == body[|body| - 1];
  }

  /** When only white space follows the colon on its line, and the text goes on,
      the first line with anything else on it is taken instead. */
  lemma BlankAccessSwallows(text: string)
    requires Trimmed(text) && "access:" < text && Trim(OwnLine(text)) == ""
    ensures ExtractAccess(text) == LineAccess("access:" + AfterColon(text))
    ensures ExtractAccess(text) != LineAccess(text)
  {
    hide TrimStart, Trim, IsSpace, IsDot;
    AccessExactIff(text);
    StartsLikeAccess(text);
    var s := AfterColon(text);
    var joined := "access:" + s;
    assert joined[7..] == s && joined[..7] == "access:";
    TrimStartAt(s, 0);
    AccessExactIff(joined);
    InkIsDot(s[0]);
    TrimEmpty(OwnLine(joined));
    assert OwnLine(joined)[0] == s[0];
  }

  /** Why the access line must have something on it: left empty, it takes the
      first line of the body instead, and that line leaves the body. */
  lemma EmptyAccessSwallows(body: string)
    requires body != "" && Trimmed(body)
    ensures Trimmed("access:\n" + body)
    ensures ExtractAccess("access:\n" + body).0 == Some(Trim(body[..DotRun(body)]))
    ensures |ExtractAccess("access:\n" + body).1| < |body|
  {
    hide TrimStart;
    var text := "access:\n" + body;
    assert text[..7] == "access:" && text[7..] == "\n" + body;
    SkipBreak(body);
    assert IsDot(body[0]);
  }

  lemma SkipBreak(s: string)
    requires s != "" && !IsSpace(s[0])
    ensures TrimStart("\n" + s) == s
  {
    assert IsSpace('\n');
    hide IsSpace;
    assert ("\n" + s)[1..] == s;
  }
}

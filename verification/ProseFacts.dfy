/** What the prose parser of scripts/generate-docs.ts accepts and what it makes of
    it, apart from how it computes it. */
module ProseFacts {
  import opened Wrappers
  import opened Texts
  import opened Prose

  // ---------- Text ----------

  /** Trimming cuts white space off both ends and nothing else. */
  lemma TrimIs(s: string) returns (a: string, b: string)
    ensures s == a + Trim(s) + b && Trimmed(Trim(s))
    ensures (forall i :: 0 <= i < |a| ==> IsSpace(a[i])) && forall i :: 0 <= i < |b| ==> IsSpace(b[i])
  {
    hide IsSpace, TrimStart, TrimEnd;
    var r := TrimStart(s);
    var m := TrimEnd(r);
    a, b := s[..|s| - |r|], r[|m|..];
    assert s == a + r && r == m + b;
  }

  // ---------- Lines ----------

  /** Three backticks at the start of a line open or close a fence. */
  lemma FenceIs(line: string)
    ensures IsFence(line) <==> |line| >= 3 && line[0] == line[1] == line[2] == '`'
  {
  }

  function Fences(lines: seq<string>): nat {
    if lines == [] then 0
    else Fences(lines[..|lines| - 1]) + if IsFence(lines[|lines| - 1]) then 1 else 0
  }

  /** A text is inside a fence after an odd number of fence lines. */
  lemma {:induction false} FenceParity(lines: seq<string>)
    ensures FenceAfter(lines) <==> Fences(lines) % 2 == 1
    decreases |lines|
  {
    hide IsFence;
    if lines != [] { FenceParity(lines[..|lines| - 1]); }
  }

  function Marks(level: nat): string {
    if level == 1 then "# " else "## "
  }

  /** A heading is one or two marks, a blank, and something that is not a line break;
      what follows the blank, trimmed, is its text. */
  lemma HeadingIs(line: string, level: nat, heading: string)
    ensures HeadingOf(line) == Some((level, heading)) <==>
      && (level == 1 || level == 2) && Marks(level) < line
      && AllDots(line[|Marks(level)|..]) && heading == Trim(line[|Marks(level)|..])
  {
    hide Trim;
    if "# " <= line { assert line[1] == ' '; }
    if "## " <= line { assert line[1] == '#'; }
  }

  lemma HeadingHasInk(line: string)
    requires HeadingOf(line).Some? || IsFence(line)
    ensures Trim(line) != ""
  {
    StartsWithMark(line);
    if Trim(line) == "" { BlankIsSpace(line); }
  }

  lemma StartsWithMark(line: string)
    requires HeadingOf(line).Some? || IsFence(line)
    ensures line != "" && !IsSpace(line[0])
  {
    hide Trim;
  }

  lemma BlankIsSpace(line: string)
    requires Trim(line) == "" && line != ""
    ensures IsSpace(line[0])
  {
    hide IsSpace, Trim;
    var a, b := TrimIs(line);
    assert line == a + b;
    if a == "" { assert line == b; } else { assert line[0] == a[0]; }
  }

  // ---------- Which files are refused ----------

  ghost predicate Blank(lines: seq<string>) {
    forall i :: 0 <= i < |lines| ==> Trim(lines[i]) == ""
  }

  /** Line `i` is the first with anything on it, and no heading. */
  ghost predicate StrayAt(lines: seq<string>, i: nat) {
    i < |lines| && Blank(lines[..i]) && Trim(lines[i]) != "" && HeadingOf(lines[i]) == None
  }

  lemma {:induction false} ScanStarts(lines: seq<string>)
    ensures match ScanAll(lines)
      case Ok(s) =>
        (if s.cur == None then Blank(lines) && !s.inFence else !Blank(lines)) && forall i: nat :: !StrayAt(lines, i)
      case Err(e) => exists i: nat :: StrayAt(lines, i) && e == ContentBeforeHeading(lines[i])
    decreases |lines|
  {
    hide HeadingOf, Trim, IsFence;
    if lines != [] {
      var init, line := lines[..|lines| - 1], lines[|lines| - 1];
      assert lines == init + [line];
      ScanStarts(init);
      forall i: nat
        ensures i < |init| ==> (StrayAt(lines, i) <==> StrayAt(init, i))
        ensures i == |init| ==> lines[..i] == init
      {
        if i < |init| { assert lines[..i] == init[..i]; }
      }
      if IsFence(line) || HeadingOf(line).Some? { HeadingHasInk(line); }
      if IsFence(line) && HeadingOf(line).Some? { FenceNoHeading(line); }
      LastInk(init, line);
      if ScanAll(init).Err? {
        var i: nat :| StrayAt(init, i) && ScanAll(init).error == ContentBeforeHeading(init[i]);
        assert StrayAt(lines, i);
      } else if ScanAll(lines).Err? {
        assert StrayAt(lines, |init|);
      }
    }
  }

  lemma LastInk(init: seq<string>, line: string)
    ensures Blank(init + [line]) <==> Blank(init) && Trim(line) == ""
  {
    hide Trim;
    var lines := init + [line];
    assert lines[|init|] == line && forall i :: 0 <= i < |init| ==> lines[i] == init[i];
  }

  lemma FenceNoHeading(line: string)
    requires IsFence(line)
    ensures HeadingOf(line) == None
  {
    assert line[0] == '`';
  }

  /** Segmentation fails exactly when the first line with anything on it is not a
      heading, and names that line. */
  lemma StrayRefused(lines: seq<string>)
    ensures Segments(lines).Err? <==> exists i: nat :: StrayAt(lines, i)
    ensures Segments(lines).Err? ==>
      exists i: nat :: StrayAt(lines, i) && Segments(lines).error == ContentBeforeHeading(lines[i])
  {
    hide StrayAt;
    ScanStarts(lines);
  }

  // ---------- What the second loop makes of the segments ----------

  predicate SegOk(s: Seg) {
    if s.level == 1 then s.heading == "summary" || s.heading == "concepts" else ParseBlockHeading(s.heading).Some?
  }

  function Refusal(s: Seg): ProseError {
    if s.level == 1 then UnknownSection(s.heading) else MalformedHeading(s.heading)
  }

  /** The second loop fails exactly on a section it does not know or a block heading
      it can not read, and names the first. */
  lemma {:induction false} SegsRefused(segs: seq<Seg>)
    ensures AddSegs(segs).Ok? <==> forall i :: 0 <= i < |segs| ==> SegOk(segs[i])
    ensures AddSegs(segs).Err? ==> exists i ::
      0 <= i < |segs| && !SegOk(segs[i]) && AddSegs(segs).error == Refusal(segs[i])
      && forall j :: 0 <= j < i ==> SegOk(segs[j])
    decreases |segs|
  {
    hide ParseBlockHeading, ExtractAccess, Trim, Join;
    if segs != [] {
      var init := segs[..|segs| - 1];
      SegsRefused(init);
      assert forall i :: 0 <= i < |init| ==> init[i] == segs[i];
      if AddSegs(init).Err? {
        var i :| 0 <= i < |init| && !SegOk(init[i]) && AddSegs(init).error == Refusal(init[i])
          && forall j :: 0 <= j < i ==> SegOk(init[j]);
        assert !SegOk(segs[i]);
      } else if AddSegs(segs).Err? {
        assert !SegOk(segs[|segs| - 1]);
      }
    }
  }

  /** The block segments, in order. */
  function Items(segs: seq<Seg>): seq<Seg> {
    if segs == [] then []
    else Items(segs[..|segs| - 1]) + if segs[|segs| - 1].level == 1 then [] else [segs[|segs| - 1]]
  }

  /** The segments of one top-level section, in order. */
  function Sections(segs: seq<Seg>, name: string): seq<Seg> {
    if segs == [] then []
    else
      var s := segs[|segs| - 1];
      Sections(segs[..|segs| - 1], name) + if s.level == 1 && s.heading == name then [s] else []
  }

  function TextOf(s: Seg): string {
    Trim(Join(s.body))
  }

  ghost predicate BlockFrom(b: Block, s: Seg) {
    && ParseBlockHeading(s.heading) == Some((b.kind, b.key))
    && ExtractAccess(TextOf(s)) == (b.access, b.body)
  }

  /** One segment more. */
  lemma SegAdded(segs: seq<Seg>)
    requires segs != [] && AddSegs(segs).Ok?
    ensures AddSegs(segs[..|segs| - 1]).Ok?
    ensures var s, d, d' := segs[|segs| - 1], AddSegs(segs[..|segs| - 1]).value, AddSegs(segs).value;
      if s.level == 1 then
        && d'.blocks == d.blocks
        && d'.summary == (if s.heading == "summary" then TextOf(s) else d.summary)
        && d'.concepts == (if s.heading == "concepts" then Some(TextOf(s)) else d.concepts)
      else
        && d'.summary == d.summary && d'.concepts == d.concepts && |d'.blocks| == |d.blocks| + 1
        && d'.blocks[..|d.blocks|] == d.blocks && BlockFrom(d'.blocks[|d.blocks|], s)
  {
    hide ParseBlockHeading, ExtractAccess, Trim, Join;
    var s := segs[|segs| - 1];
    if s.level == 1 { assert "summary" != "concepts" by { assert "summary"[0] == 's' && "concepts"[0] == 'c'; } }
  }

  /** The file has one block for each block segment, in order, with what its heading
      and text say; */
  lemma {:induction false} SegsRead(segs: seq<Seg>)
    requires AddSegs(segs).Ok?
    ensures var blocks, items := AddSegs(segs).value.blocks, Items(segs);
      |blocks| == |items| && forall i :: 0 <= i < |items| ==> BlockFrom(blocks[i], items[i])
    decreases |segs|
  {
    hide BlockFrom, AddSegs;
    if segs == [] {
      NoSegs();
    } else {
      SegAdded(segs);
      SegsRead(segs[..|segs| - 1]);
      var blocks := AddSegs(segs).value.blocks;
      var init := AddSegs(segs[..|segs| - 1]).value.blocks;
      assert forall i :: 0 <= i < |init| ==> blocks[..|init|][i] == blocks[i];
    }
  }

  /** of several summaries or concepts the last counts. */
  lemma {:induction false} SectionsRead(segs: seq<Seg>)
    requires AddSegs(segs).Ok?
    ensures var s := Sections(segs, "summary");
      AddSegs(segs).value.summary == if s == [] then "" else TextOf(s[|s| - 1])
    ensures var s := Sections(segs, "concepts");
      AddSegs(segs).value.concepts == if s == [] then None else Some(TextOf(s[|s| - 1]))
    decreases |segs|
  {
    hide BlockFrom, AddSegs, TextOf;
    if segs == [] {
      NoSegs();
    } else {
      SegAdded(segs);
      SectionsRead(segs[..|segs| - 1]);
    }
  }

  lemma NoSegs()
    ensures AddSegs([]) == Ok(Doc("", None, []))
  {
  }

  /** A file parses exactly when it falls into segments, every section is
      known, every block heading reads, and the last summary has a text. */
  lemma ParsesIff(body: string)
    ensures ParseProse(body).Ok? <==>
      && Segments(Split(body)).Ok?
      && var segs := Segments(Split(body)).value;
         && (forall i :: 0 <= i < |segs| ==> SegOk(segs[i]))
         && var s := Sections(segs, "summary"); s != [] && TextOf(s[|s| - 1]) != ""
  {
    hide Segments, AddSegs, SegOk, Sections, TextOf;
    if Segments(Split(body)).Ok? {
      var segs := Segments(Split(body)).value;
      SegsRefused(segs);
      if AddSegs(segs).Ok? { SectionsRead(segs); }
    }
  }
}

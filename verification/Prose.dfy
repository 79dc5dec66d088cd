/** The prose parser of scripts/generate-docs.ts: `parseProse` below its
    frontmatter, and `extractAccess`. */
module Prose {
  import opened Wrappers
  import opened Texts

  datatype Kind = FunctionBlock | EventBlock | ErrorBlock | ReceiveBlock

  datatype Block = Block(kind: Kind, key: string, access: Option<string>, body: string, order: nat)

  datatype Doc = Doc(summary: string, concepts: Option<string>, blocks: seq<Block>)

  datatype Seg = Seg(level: nat, heading: string, body: seq<string>)

  datatype ProseError =
    | ContentBeforeHeading(line: string)
    | UnknownSection(heading: string)
    | MalformedHeading(heading: string)
    | MissingSummary

  // ---------- Lines and segments ----------

  /** /^```/ */
  predicate IsFence(line: string) {
    "```" <= line
  }

  predicate AllDots(s: string) {
    forall i :: 0 <= i < |s| ==> IsDot(s[i])
  }

  /** /^(#{1,2}) (.+)$/, with the second group trimmed. */
  function HeadingOf(line: string): Option<(nat, string)> {
    if "# " <= line && |line| > 2 && AllDots(line[2..]) then Some((1, Trim(line[2..])))
    else if "## " <= line && |line| > 3 && AllDots(line[3..]) then Some((2, Trim(line[3..])))
    else None
  }

  datatype Scan = Scan(segs: seq<Seg>, cur: Option<Seg>, inFence: bool)

  function Closed(s: Scan): seq<Seg> {
    if s.cur.Some? then s.segs + [s.cur.value] else s.segs
  }

  /** One line of the segmentation loop. */
  function ScanLine(s: Scan, line: string): Result<Scan, ProseError> {
    var inFence := if IsFence(line) then !s.inFence else s.inFence;
    var h := if inFence then None else HeadingOf(line);
    if h.Some? then Ok(Scan(Closed(s), Some(Seg(h.value.0, h.value.1, [])), inFence))
    else if s.cur.Some? then Ok(Scan(s.segs, Some(s.cur.value.(body := s.cur.value.body + [line])), inFence))
    else if Trim(line) != "" then Err(ContentBeforeHeading(line))
    else Ok(s.(inFence := inFence))
  }

  function ScanAll(lines: seq<string>): Result<Scan, ProseError> {
    if lines == [] then Ok(Scan([], None, false))
    else match ScanAll(lines[..|lines| - 1])
      case Err(e) => Err(e)
      case Ok(s) => ScanLine(s, lines[|lines| - 1])
  }

  function Segments(lines: seq<string>): Result<seq<Seg>, ProseError> {
    match ScanAll(lines)
    case Err(e) => Err(e)
    case Ok(s) => Ok(Closed(s))
  }

  lemma {:induction false} ScanStops(lines: seq<string>, n: nat)
    requires n <= |lines| && ScanAll(lines[..n]).Err?
    ensures ScanAll(lines) == ScanAll(lines[..n])
    decreases |lines|
  {
    if n == |lines| {
      assert lines[..n] == lines;
    } else {
      assert lines[..|lines| - 1][..n] == lines[..n];
      ScanStops(lines[..|lines| - 1], n);
    }
  }

  lemma ScanNone(lines: seq<string>)
    ensures ScanAll(lines[..0]) == Ok(Scan([], None, false))
  {
  }

  lemma ScanOne(lines: seq<string>, i: nat)
    requires i < |lines| && ScanAll(lines[..i]).Ok?
    ensures ScanAll(lines[..i + 1]) == ScanLine(ScanAll(lines[..i]).value, lines[i])
  {
    hide ScanLine;
    assert lines[..i + 1][..i] == lines[..i];
  }

  /** The segmentation loop. */
  method ParseSegments(lines: seq<string>) returns (r: Result<seq<Seg>, ProseError>)
    ensures r == Segments(lines)
  {
    hide HeadingOf, IsFence, Trim, ScanAll;
    var segs: seq<Seg>, cur: Option<Seg>, inFence := [], None, false;
    ScanNone(lines);
    for i := 0 to |lines|
      invariant ScanAll(lines[..i]) == Ok(Scan(segs, cur, inFence))
    {
      var line := lines[i];
      ScanOne(lines, i);
      if IsFence(line) { inFence := !inFence; }
      var h := if inFence then None else HeadingOf(line);
      if h.Some? {
        if cur.Some? { segs := segs + [cur.value]; }
        cur := Some(Seg(h.value.0, h.value.1, []));
      } else if cur.Some? {
        cur := Some(cur.value.(body := cur.value.body + [line]));
      } else if Trim(line) != "" {
        ScanStops(lines, i + 1);
        return Err(ContentBeforeHeading(line));
      }
    }
    assert lines[..|lines|] == lines;
    if cur.Some? { segs := segs + [cur.value]; }
    return Ok(segs);
  }

  // ---------- Segmentation is lossless and fence-aware ----------

  /** Is the text inside a fence after these lines? */
  function FenceAfter(lines: seq<string>): bool {
    if lines == [] then false
    else if IsFence(lines[|lines| - 1]) then !FenceAfter(lines[..|lines| - 1])
    else FenceAfter(lines[..|lines| - 1])
  }

  /** Line `i` is a heading outside every fence. */
  predicate SplitsAt(lines: seq<string>, i: nat)
    requires i < |lines|
  {
    !FenceAfter(lines[..i + 1]) && HeadingOf(lines[i]).Some?
  }

  ghost predicate NoSplit(lines: seq<string>) {
    forall i: nat :: i < |lines| ==> !SplitsAt(lines, i)
  }

  /** The lines are, in order and with nothing lost: blank lines, then each
      segment's heading line followed by its body; and no body contains a heading
      outside a fence. */
  ghost predicate Covers(segs: seq<Seg>, lines: seq<string>)
    decreases |segs|
  {
    if segs == [] then forall l :: l in lines ==> Trim(l) == ""
    else
      var s := segs[|segs| - 1];
      var n := |lines| - |s.body| - 1;
      && n >= 0 && lines[n + 1..] == s.body && HeadingOf(lines[n]) == Some((s.level, s.heading))
      && NoSplit(s.body) && Covers(segs[..|segs| - 1], lines[..n])
  }

  lemma NoSplitAppend(body: seq<string>, line: string)
    requires NoSplit(body) && (FenceAfter(body + [line]) || HeadingOf(line) == None)
    ensures NoSplit(body + [line])
  {
    var b := body + [line];
    forall i: nat | i < |b|
      ensures !SplitsAt(b, i)
    {
      if i < |body| {
        assert b[..i + 1] == body[..i + 1];
        assert !SplitsAt(body, i);
      } else {
        assert b[..i + 1] == b;
      }
    }
  }

  ghost predicate CurExact(s: Scan) {
    s.cur.Some? ==> s.inFence == FenceAfter(s.cur.value.body) && NoSplit(s.cur.value.body)
  }

  lemma {:induction false} ScanCovers(lines: seq<string>)
    requires ScanAll(lines).Ok?
    ensures Covers(Closed(ScanAll(lines).value), lines) && CurExact(ScanAll(lines).value)
    ensures ScanAll(lines).value.cur == None ==> ScanAll(lines).value.segs == []
    decreases |lines|
  {
    hide Covers, CurExact, ScanLine;
    if lines == [] {
      CoversNothing();
    } else {
      var init, line := lines[..|lines| - 1], lines[|lines| - 1];
      assert lines == init + [line];
      ScanCovers(init);
      LineCovers(ScanAll(init).value, init, line);
    }
  }

  lemma CoversNothing()
    ensures Covers([], []) && CurExact(Scan([], None, false))
  {
  }

  lemma LineCovers(s: Scan, init: seq<string>, line: string)
    requires Covers(Closed(s), init) && CurExact(s) && (s.cur == None ==> s.segs == []) && ScanLine(s, line).Ok?
    ensures var s' := ScanLine(s, line).value;
      Covers(Closed(s'), init + [line]) && CurExact(s') && (s'.cur == None ==> s'.segs == [])
  {
    hide Covers, HeadingOf, Trim, NoSplit, IsFence;
    var s' := ScanLine(s, line).value;
    if s'.cur == None {
      BlankCovers(init, line);
    } else if s'.cur.value.body == [] {
      NoSplitNothing();
      CoversNext(Closed(s), s'.cur.value, init, line);
    } else {
      var body := s.cur.value.body;
      assert (body + [line])[..|body|] == body;
      NoSplitAppend(body, line);
      CoversGrow(s.segs, s.cur.value, init, line);
    }
  }

  lemma NoSplitNothing()
    ensures NoSplit([])
  {
  }

  lemma BlankCovers(init: seq<string>, line: string)
    requires Covers([], init) && Trim(line) == ""
    ensures Covers([], init + [line])
  {
    hide Trim;
  }

  lemma CoversGrow(segs: seq<Seg>, cur: Seg, init: seq<string>, line: string)
    requires Covers(segs + [cur], init) && NoSplit(cur.body + [line])
    ensures Covers(segs + [cur.(body := cur.body + [line])], init + [line])
  {
    hide HeadingOf, Trim, NoSplit;
    var lines, n := init + [line], |init| - |cur.body| - 1;
    assert (segs + [cur])[..|segs|] == segs;
    var grown := segs + [cur.(body := cur.body + [line])];
    assert grown[..|segs|] == segs && lines[..n] == init[..n];
    assert lines[n + 1..] == init[n + 1..] + [line];
  }

  lemma CoversNext(segs: seq<Seg>, cur: Seg, init: seq<string>, line: string)
    requires Covers(segs, init) && cur.body == [] && HeadingOf(line) == Some((cur.level, cur.heading))
    ensures Covers(segs + [cur], init + [line])
  {
    hide HeadingOf, Trim;
    var lines := init + [line];
    assert (segs + [cur])[..|segs|] == segs && lines[..|init|] == init;
    assert lines[|lines|..] == [];
  }

  /** Every line of a segmented file is kept in its place, and a heading splits
      exactly when it is outside a fence. */
  lemma SegmentsLossless(lines: seq<string>)
    requires Segments(lines).Ok?
    ensures Covers(Segments(lines).value, lines)
  {
    ScanCovers(lines);
  }

  // ---------- Blocks ----------

  /** Everything after the white space that follows `access:`. */
  function AfterColon(text: string): string
    requires "access:" <= text
  {
    TrimStart(text[7..])
  }

  /** The length of the leading run that `.+` takes. */
  function DotRun(s: string): (n: nat)
    ensures n <= |s| && (forall i :: 0 <= i < n ==> IsDot(s[i])) && (n < |s| ==> !IsDot(s[n]))
  {
    if s == "" || !IsDot(s[0]) then 0 else 1 + DotRun(s[1..])
  }

  /** `extractAccess` of trimmed text: /^access:\s*(.+)\n?/. The `\s*` also skips
      line breaks; on trimmed text what follows it is a character or nothing. */
  function ExtractAccess(text: string): (Option<string>, string) {
    if "access:" <= text && AfterColon(text) != "" then
      var s := AfterColon(text);
      var n := DotRun(s);
      var rest := if n < |s| && s[n] == '\n' then s[n + 1..] else s[n..];
      (Some(Trim(s[..n])), Trim(rest))
    else (None, text)
  }

  /** The length of the leading run of word characters. */
  function WordRun(s: string): (n: nat)
    ensures n <= |s| && (forall i :: 0 <= i < n ==> IsWord(s[i])) && (n < |s| ==> !IsWord(s[n]))
  {
    if s == "" || !IsWord(s[0]) then 0 else 1 + WordRun(s[1..])
  }

  predicate IsTypeChar(c: char) {
    IsWord(c) || IsSpace(c) || c == ',' || c == '[' || c == ']'
  }

  /** (\([\w\s,[\]]*\)) */
  predicate IsTypeList(s: string) {
    |s| >= 2 && s[0] == '(' && s[|s| - 1] == ')' && forall i :: 1 <= i < |s| - 1 ==> IsTypeChar(s[i])
  }

  function RemoveSpaces(s: string): (r: string)
    ensures (forall i :: 0 <= i < |s| ==> !IsSpace(s[i])) ==> r == s
  {
    if s == "" then "" else (if IsSpace(s[0]) then [] else [s[0]]) + RemoveSpaces(s[1..])
  }

  /** (\w+)(\(...\))?$ and the key it gives. */
  function ParseKey(s: string): Option<string> {
    var n := WordRun(s);
    if n == 0 then None
    else if n == |s| then Some(s)
    else if IsTypeList(s[n..]) then Some(s[..n] + RemoveSpaces(s[n..]))
    else None
  }

  function KindWord(k: Kind): string {
    match k
    case FunctionBlock => "function "
    case EventBlock => "event "
    case ErrorBlock => "error "
    case ReceiveBlock => "receive"
  }

  /** A level-2 heading: `receive`, or a kind and a key. */
  function ParseBlockHeading(h: string): Option<(Kind, string)> {
    if h == "receive" then Some((ReceiveBlock, "receive"))
    else if "function " <= h && ParseKey(h[9..]).Some? then Some((FunctionBlock, ParseKey(h[9..]).value))
    else if "event " <= h && ParseKey(h[6..]).Some? then Some((EventBlock, ParseKey(h[6..]).value))
    else if "error " <= h && ParseKey(h[6..]).Some? then Some((ErrorBlock, ParseKey(h[6..]).value))
    else None
  }

  /** One segment of the second loop. */
  function AddSeg(d: Doc, s: Seg): Result<Doc, ProseError> {
    var text := Trim(Join(s.body));
    if s.level == 1 then
      if s.heading == "summary" then Ok(d.(summary := text))
      else if s.heading == "concepts" then Ok(d.(concepts := Some(text)))
      else Err(UnknownSection(s.heading))
    else match ParseBlockHeading(s.heading)
      case None => Err(MalformedHeading(s.heading))
      case Some((kind, key)) =>
        var (access, rest) := ExtractAccess(text);
        Ok(d.(blocks := d.blocks + [Block(kind, key, access, rest, |d.blocks|)]))
  }

  function AddSegs(segs: seq<Seg>): Result<Doc, ProseError> {
    if segs == [] then Ok(Doc("", None, []))
    else match AddSegs(segs[..|segs| - 1])
      case Err(e) => Err(e)
      case Ok(d) => AddSeg(d, segs[|segs| - 1])
  }

  /** `parseProse` of the text below the frontmatter. */
  function ParseProse(body: string): Result<Doc, ProseError> {
    match Segments(Split(body))
    case Err(e) => Err(e)
    case Ok(segs) =>
      match AddSegs(segs)
      case Err(e) => Err(e)
      case Ok(d) => if d.summary == "" then Err(MissingSummary) else Ok(d)
  }

  lemma {:induction false} AddSegsStops(segs: seq<Seg>, n: nat)
    requires n <= |segs| && AddSegs(segs[..n]).Err?
    ensures AddSegs(segs) == AddSegs(segs[..n])
    decreases |segs|
  {
    hide AddSeg;
    if n == |segs| {
      assert segs[..n] == segs;
    } else {
      assert segs[..|segs| - 1][..n] == segs[..n];
      AddSegsStops(segs[..|segs| - 1], n);
    }
  }

  lemma AddSegsOne(segs: seq<Seg>, i: nat)
    requires i < |segs| && AddSegs(segs[..i]).Ok?
    ensures AddSegs(segs[..i + 1]) == AddSeg(AddSegs(segs[..i]).value, segs[i])
  {
    hide AddSeg;
    assert segs[..i + 1][..i] == segs[..i];
  }

  /** `parseProse`, with its two loops. */
  method Parse(body: string) returns (r: Result<Doc, ProseError>)
    ensures r == ParseProse(body)
  {
    hide AddSegs, ParseBlockHeading, ExtractAccess, Trim, Join;
    var parsed := ParseSegments(Split(body));
    if parsed.Err? { return Err(parsed.error); }
    var segs := parsed.value;
    var summary: string, concepts: Option<string>, blocks: seq<Block>, order := "", None, [], 0;
    assert AddSegs(segs[..0]) == Ok(Doc("", None, [])) by { AddSegsNone(segs); }
    for i := 0 to |segs|
      invariant AddSegs(segs[..i]) == Ok(Doc(summary, concepts, blocks)) && order == |blocks|
    {
      var seg := segs[i];
      AddSegsOne(segs, i);
      var text := Trim(Join(seg.body));
      if seg.level == 1 {
        if seg.heading == "summary" {
          summary := text;
        } else if seg.heading == "concepts" {
          concepts := Some(text);
        } else {
          AddSegsStops(segs, i + 1);
          return Err(UnknownSection(seg.heading));
        }
      } else {
        var m := ParseBlockHeading(seg.heading);
        if m == None {
          AddSegsStops(segs, i + 1);
          return Err(MalformedHeading(seg.heading));
        }
        var (access, rest) := ExtractAccess(text);
        blocks := blocks + [Block(m.value.0, m.value.1, access, rest, order)];
        order := order + 1;
      }
    }
    assert segs[..|segs|] == segs;
    if summary == "" { return Err(MissingSummary); }
    return Ok(Doc(summary, concepts, blocks));
  }

  lemma AddSegsNone(segs: seq<Seg>)
    ensures AddSegs(segs[..0]) == Ok(Doc("", None, []))
  {
  }

  /** The blocks are numbered as they stand in the text. */
  ghost predicate Numbered(blocks: seq<Block>) {
    forall i :: 0 <= i < |blocks| ==> blocks[i].order == i
  }

  lemma {:induction false} AddSegsNumbered(segs: seq<Seg>)
    requires AddSegs(segs).Ok?
    ensures Numbered(AddSegs(segs).value.blocks)
    decreases |segs|
  {
    hide ParseBlockHeading, ExtractAccess, Trim, Join;
    if segs != [] { AddSegsNumbered(segs[..|segs| - 1]); }
  }

  /** Whatever prose parses, its blocks come out numbered in order. */
  lemma ParsedNumbered(body: string)
    requires ParseProse(body).Ok?
    ensures Numbered(ParseProse(body).value.blocks)
  {
    hide AddSegs, Segments;
    AddSegsNumbered(Segments(Split(body)).value);
  }
}

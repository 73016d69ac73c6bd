/**
 Texts in the shape the operator writes, as blocks of parameters under section headings,
 and the proof that parsing such a text gives the blocks back.
 */
module IniDocument {
  import opened Wrappers
  import opened Text
  import opened IniParser

  /** A line below a heading: a parameter, a remark or nothing. */
  datatype Line = Param(key: string, value: string) | Remark(text: string) | Blank

  /** A section, or a remark between sections. */
  datatype Block = Block(name: string, body: seq<Line>) | Note(text: string)

  function Render(line: Line): string {
    match line
    case Param(k, v) => k + "=" + v
    case Remark(t) => "# " + t
    case Blank => ""
  }

  function RenderBody(body: seq<Line>): (r: seq<string>)
    ensures |r| == |body|
  {
    if body == [] then [] else [Render(body[0])] + RenderBody(body[1..])
  }

  function Heading(name: string): string {
    "[" + name + "]"
  }

  function RenderBlock(b: Block): seq<string> {
    match b
    case Block(name, body) => [Heading(name)] + RenderBody(body)
    case Note(t) => ["# " + t]
  }

  function RenderBlocks(blocks: seq<Block>): seq<string> {
    if blocks == [] then [] else RenderBlock(blocks[0]) + RenderBlocks(blocks[1..])
  }

  lemma {:induction false} RenderBlocksConcat(a: seq<Block>, b: seq<Block>)
    ensures RenderBlocks(a + b) == RenderBlocks(a) + RenderBlocks(b)
    decreases |a|
  {
    if a == [] {
      assert a + b == b;
    } else {
      assert (a + b)[0] == a[0] && (a + b)[1..] == a[1..] + b;
      RenderBlocksConcat(a[1..], b);
    }
  }

  // ----- plain tokens

  /** A parameter name that can stand at the start of a line. */
  predicate PlainKey(k: string) {
    && k != "" && '=' !in k && '\n' !in k
    && !IsSpace(k[0]) && k[0] != ';' && k[0] != '#' && k[0] != '['
  }

  predicate PlainValue(v: string) {
    && v != "" && '\n' !in v && !IsSpace(v[|v| - 1])
  }

  predicate PlainLine(line: Line) {
    && |Render(line)| <= MAX_LINE
    && match line
       case Param(k, v) => PlainKey(k) && PlainValue(v)
       case Remark(t) => PlainValue(t) && !IsSpace(t[0]) && t[0] != ';' && t[0] != '#'
       case Blank => true
  }

  predicate PlainBlock(b: Block) {
    match b
    case Block(name, body) =>
      '\n' !in name && |name| + 2 <= MAX_LINE && name != HEADER && forall line :: line in body ==> PlainLine(line)
    case Note(t) => PlainLine(Remark(t))
  }

  // ----- meaning

  /** The section with the parameters of the body added; a later parameter replaces an earlier one. */
  function Fill(section: Section, body: seq<Line>): Section
    decreases |body|
  {
    if body == [] then section
    else
      match body[0]
      case Param(k, v) => Fill(section[ToLower(k) := v], body[1..])
      case _ => Fill(section, body[1..])
  }

  function AddBlock(ini: ConfigIni, b: Block): ConfigIni {
    match b
    case Block(name, body) =>
      var key := ToLower(name);
      ini[key := (if key in ini then ini[key] else []) + [Fill(map[], body)]]
    case Note(_) => ini
  }

  /** Each block becomes one section, in order, under the lower-case name. */
  function AddBlocks(ini: ConfigIni, blocks: seq<Block>): ConfigIni
    decreases |blocks|
  {
    if blocks == [] then ini else AddBlocks(AddBlock(ini, blocks[0]), blocks[1..])
  }

  // ----- reading back

  lemma {:induction false} TrimIdentity(s: string)
    requires s != "" && !IsSpace(s[0]) && !IsSpace(s[|s| - 1])
    ensures TrimSpace(s) == s && DropCR(s) == s
  {
  }

  lemma SplitAtEquals(k: string, v: string)
    requires '=' !in k
    ensures IndexOf(k + "=" + v, '=') == |k|
    ensures (k + "=" + v)[..|k|] == k && (k + "=" + v)[|k| + 1..] == v
  {
    IndexOfConcat(k, '=', v);
    assert k + "=" + v == k + ['='] + v;
  }

  lemma ParamReads(st: State, k: string, v: string, lineNo: nat)
    requires st.Valid() && st.current.Some? && PlainLine(Param(k, v))
    ensures AfterLine(st, k + "=" + v, lineNo) == Ok(WithValue(st, k, v))
  {
    hide WithValue, TrimSpace, DropCR;
    var line := k + "=" + v;
    assert line[0] == k[0] && line[|line| - 1] == v[|v| - 1];
    TrimIdentity(line);
    SplitAtEquals(k, v);
  }

  lemma HeadingReads(st: State, name: string, lineNo: nat)
    requires st.Valid() && |name| + 2 <= MAX_LINE
    ensures AfterLine(st, Heading(name), lineNo) == Ok(WithSection(st.ini, name))
  {
    hide WithSection, TrimSpace, DropCR;
    var line := Heading(name);
    TrimIdentity(line);
    assert line[1..|line| - 1] == name;
  }

  lemma BlankReads(st: State, lineNo: nat)
    requires st.Valid()
    ensures AfterLine(st, "", lineNo) == Ok(st)
  {
  }

  /** What is left of a remark's line once the marks and the spaces around it are gone. */
  lemma RemarkText(t: string)
    requires PlainLine(Remark(t))
    ensures TrimSpace(DropCR("# " + t)) == "# " + t
    ensures TrimSpace(TrimCommentMarks("# " + t)) == t
  {
    var line := "# " + t;
    assert line[|line| - 1] == t[|t| - 1];
    TrimIdentity(line);
    var rest := " " + t;
    assert line[1..] == rest;
    assert TrimCommentMarks(line) == rest;
    assert rest[1..] == t;
    assert TrimLeftSpace(rest) == TrimLeftSpace(t) == t;
  }

  lemma RemarkReads(st: State, t: string, lineNo: nat)
    requires st.Valid() && |st.ini| > 1 && PlainLine(Remark(t))
    ensures AfterLine(st, "# " + t, lineNo) == Ok(st)
  {
    hide TrimSpace, DropCR, TrimCommentMarks;
    RemarkText(t);
  }

  /** The state with the section being filled extended by the body. */
  function Filled(st: State, body: seq<Line>): (st': State)
    requires st.Valid() && st.current.Some?
    ensures st'.Valid() && st'.current == st.current && st'.ini.Keys == st.ini.Keys
  {
    var Cursor(group, i) := st.current.value;
    st.(ini := st.ini[group := st.ini[group][i := Fill(st.ini[group][i], body)]])
  }

  lemma FilledStep(st: State, k: string, v: string, rest: seq<Line>)
    requires st.Valid() && st.current.Some?
    ensures Filled(WithValue(st, k, v), rest) == Filled(st, [Param(k, v)] + rest)
  {
    assert ([Param(k, v)] + rest)[1..] == rest;
    var Cursor(g, i) := st.current.value;
    var group := st.ini[g];
    var one := group[i][ToLower(k) := v];
    var all := Fill(one, rest);
    assert group[i := one][i := all] == group[i := all];
    assert st.ini[g := group[i := one]][g := group[i := all]] == st.ini[g := group[i := all]];
  }

  lemma {:induction false} BodyReads(st: State, body: seq<Line>, lineNo: nat)
    requires st.Valid() && st.current.Some? && |st.ini| > 1
    requires forall line :: line in body ==> PlainLine(line)
    ensures AfterLines(st, RenderBody(body), lineNo) == Ok(Filled(st, body))
    decreases |body|
  {
    hide AfterLine, WithValue;
    if body == [] {
      var Cursor(group, i) := st.current.value;
      assert st.ini[group][i := st.ini[group][i]] == st.ini[group];
      assert st.ini[group := st.ini[group]] == st.ini;
    } else {
      assert body == [body[0]] + body[1..];
      assert RenderBody(body)[1..] == RenderBody(body[1..]);
      assert PlainLine(body[0]);
      match body[0]
      case Param(k, v) =>
        ParamReads(st, k, v, lineNo);
        FilledStep(st, k, v, body[1..]);
        KeysKept(st, k, v);
        BodyReads(WithValue(st, k, v), body[1..], lineNo + 1);
      case Remark(t) =>
        RemarkReads(st, t, lineNo);
        BodyReads(st, body[1..], lineNo + 1);
      case Blank =>
        BlankReads(st, lineNo);
        BodyReads(st, body[1..], lineNo + 1);
    }
  }

  lemma KeysKept(st: State, k: string, v: string)
    requires st.Valid() && st.current.Some?
    ensures WithValue(st, k, v).ini.Keys == st.ini.Keys
    ensures |WithValue(st, k, v).ini| == |st.ini|
  {
    var st' := WithValue(st, k, v);
    assert st'.ini.Keys == st.ini.Keys;
    assert |st'.ini.Keys| == |st'.ini| && |st.ini.Keys| == |st.ini|;
  }

  lemma SectionAdded(ini: ConfigIni, b: Block)
    requires State(ini, None).Valid() && b.Block? && b.name != HEADER
    ensures WithSection(ini, b.name).Valid()
    ensures Filled(WithSection(ini, b.name), b.body).ini == AddBlock(ini, b)
  {
    var key := ToLower(b.name);
    var group := if key in ini then ini[key] else [];
    var st := WithSection(ini, b.name);
    assert st.ini[key][|group|] == map[];
    assert st.ini[key][|group| := Fill(map[], b.body)] == group + [Fill(map[], b.body)];
  }

  /** With two section names declared, remarks are harmless. */
  lemma {:induction false} BlocksRead(st: State, blocks: seq<Block>, lineNo: nat)
    requires st.Valid() && |st.ini| > 1
    requires forall b :: b in blocks ==> PlainBlock(b)
    ensures match AfterLines(st, RenderBlocks(blocks), lineNo)
            case Ok(st') => st'.ini == AddBlocks(st.ini, blocks)
            case Err(_) => false
    decreases |blocks|
  {
    hide AfterLine, AddBlock, RenderBlock, PlainBlock;
    if blocks != [] {
      assert blocks[0] in blocks;
      var st1 := BlockReads(st, blocks[0], lineNo);
      AfterLinesConcat(st, RenderBlock(blocks[0]), RenderBlocks(blocks[1..]), lineNo);
      BlocksRead(st1, blocks[1..], lineNo + |RenderBlock(blocks[0])|);
    }
  }

  lemma BlockReads(st: State, b: Block, lineNo: nat) returns (st1: State)
    requires st.Valid() && PlainBlock(b)
    requires |st.ini| > 1 || (|st.ini| == 1 && b.Block? && ToLower(b.name) !in st.ini)
    ensures st1.Valid() && |st1.ini| > 1
    ensures AfterLines(st, RenderBlock(b), lineNo) == Ok(st1)
    ensures st1.ini == AddBlock(st.ini, b)
  {
    match b
    case Block(_, _) => st1 := SectionReads(st, b, lineNo);
    case Note(t) =>
      RemarkReads(st, t, lineNo);
      var lines := RenderBlock(b);
      assert lines[1..] == [];
      st1 := st;
  }

  lemma SectionReads(st: State, b: Block, lineNo: nat) returns (st1: State)
    requires st.Valid() && PlainBlock(b) && b.Block?
    requires |st.ini| > 1 || (|st.ini| == 1 && ToLower(b.name) !in st.ini)
    ensures st1.Valid() && |st1.ini| > 1
    ensures AfterLines(st, RenderBlock(b), lineNo) == Ok(st1)
    ensures st1.ini == AddBlock(st.ini, b)
  {
    HeadingReads(st, b.name, lineNo);
    SectionAdded(st.ini, b);
    var st0 := WithSection(st.ini, b.name);
    assert st0.ini.Keys == st.ini.Keys + {ToLower(b.name)};
    assert |st0.ini| == |st0.ini.Keys| >= |st.ini.Keys| == |st.ini|;
    var lines := RenderBlock(b);
    assert lines[1..] == RenderBody(b.body);
    BodyReads(st0, b.body, lineNo + 1);
    st1 := Filled(st0, b.body);
    assert |st1.ini.Keys| == |st1.ini|;
  }

  /** The text of a document: a banner, then the blocks. */
  function DocumentLines(banner: string, blocks: seq<Block>): seq<string> {
    [Render(Remark(banner)), ""] + RenderBlocks(blocks)
  }

  /** The state after a first remark: an empty header section. */
  const HEADED := State(map[HEADER := [map[]]], Some(Cursor(HEADER, 0)))

  lemma FirstRemark(banner: string)
    requires PlainLine(Remark(banner)) && '=' !in banner
    ensures AfterLine(INITIAL, "# " + banner, 1) == Ok(HEADED)
  {
    hide TrimSpace, DropCR, TrimCommentMarks, Stored, WithSection, ToLower;
    RemarkText(banner);
    HeaderOpened();
    RemarkSkipped(banner);
  }

  lemma HeaderOpened()
    ensures WithSection(map[], HEADER) == HEADED
  {
    LowerIdentity(HEADER);
    var empty: Section := map[];
    assert [] + [empty] == [empty];
  }

  lemma RemarkSkipped(text: string)
    requires '=' !in text
    ensures Stored(HEADED, text, true, 1) == Ok(HEADED)
  {
    assert forall j :: 0 <= j < |text| ==> text[j] in text;
    assert IndexOf(text, '=') == |text|;
  }

  lemma BannerReads(banner: string)
    requires PlainLine(Remark(banner)) && '=' !in banner
    ensures AfterLines(INITIAL, [Render(Remark(banner)), ""], 1) == Ok(HEADED)
  {
    hide AfterLine, AfterLines, PlainLine;
    FirstRemark(banner);
    BlankReads(HEADED, 2);
    NextLine(INITIAL, "# " + banner, [""] + [], 1);
    NextLine(HEADED, "", [], 2);
    NoLines(HEADED, 3);
    assert [Render(Remark(banner)), ""] == ["# " + banner] + ([""] + []);
  }

  lemma {:induction false} NoNewlines(blocks: seq<Block>)
    requires forall b :: b in blocks ==> PlainBlock(b)
    ensures forall i :: 0 <= i < |RenderBlocks(blocks)| ==> '\n' !in RenderBlocks(blocks)[i]
    decreases |blocks|
  {
    if blocks != [] {
      var b := blocks[0];
      assert PlainBlock(b);
      NoNewlines(blocks[1..]);
      if b.Block? {
        NoNewlinesInBody(b.body);
        assert '\n' !in Heading(b.name);
      } else {
        assert '\n' !in "# " + b.text;
      }
    }
  }

  lemma {:induction false} NoNewlinesInBody(body: seq<Line>)
    requires forall line :: line in body ==> PlainLine(line)
    ensures forall i :: 0 <= i < |RenderBody(body)| ==> '\n' !in RenderBody(body)[i]
    decreases |body|
  {
    if body != [] {
      assert PlainLine(body[0]);
      assert '\n' !in Render(body[0]);
      NoNewlinesInBody(body[1..]);
    }
  }

  lemma FirstBlocksRead(st: State, blocks: seq<Block>, lineNo: nat)
    requires st.Valid() && st.ini == map[HEADER := [map[]]]
    requires forall b :: b in blocks ==> PlainBlock(b)
    requires blocks != [] && blocks[0].Block? && ToLower(blocks[0].name) != HEADER
    ensures match AfterLines(st, RenderBlocks(blocks), lineNo)
            case Ok(st') => st'.ini == AddBlocks(st.ini, blocks)
            case Err(_) => false
  {
    hide AfterLine, AddBlock, RenderBlock, PlainBlock;
    assert blocks[0] in blocks;
    assert |st.ini.Keys| == |st.ini|;
    var st1 := BlockReads(st, blocks[0], lineNo);
    AfterLinesConcat(st, RenderBlock(blocks[0]), RenderBlocks(blocks[1..]), lineNo);
    BlocksRead(st1, blocks[1..], lineNo + |RenderBlock(blocks[0])|);
  }

  lemma DocumentHasNoNewlines(banner: string, blocks: seq<Block>)
    requires PlainLine(Remark(banner)) && forall b :: b in blocks ==> PlainBlock(b)
    ensures forall i :: 0 <= i < |DocumentLines(banner, blocks)| ==> '\n' !in DocumentLines(banner, blocks)[i]
  {
    hide RenderBlocks, PlainBlock;
    NoNewlines(blocks);
    assert '\n' !in "# " + banner;
  }

  /** Parsing the text of plain blocks gives exactly the blocks, under an empty header section. */
  lemma DocumentReads(banner: string, blocks: seq<Block>)
    requires PlainLine(Remark(banner)) && '=' !in banner
    requires forall b :: b in blocks ==> PlainBlock(b)
    requires blocks != [] && blocks[0].Block? && ToLower(blocks[0].name) != HEADER
    ensures Parse(Unlines(DocumentLines(banner, blocks))) == Ok(AddBlocks(map[HEADER := [map[]]], blocks))
  {
    hide AfterLine, AfterLines, AddBlock, AddBlocks, RenderBlocks, Render, RawLines, Unlines, PlainLine, PlainBlock;
    DocumentHasNoNewlines(banner, blocks);
    RawLinesUnlines(DocumentLines(banner, blocks));
    BannerReads(banner);
    var st := State(map[HEADER := [map[]]], Some(Cursor(HEADER, 0)));
    AfterLinesConcat(INITIAL, [Render(Remark(banner)), ""], RenderBlocks(blocks), 1);
    FirstBlocksRead(st, blocks, 3);
  }
}

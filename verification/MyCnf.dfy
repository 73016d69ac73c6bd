/**
 The stored my.cnf: the servers' settings of the specification behind a header with a version
 (pkg/ndbconfig/config_generators.go, pkg/ndbconfig/config_summary.go).
 */
module MyCnf {
  import opened Wrappers
  import opened Text
  import opened NdbCluster
  import opened IniParser
  import opened IniDocument
  import opened ConfigSummary
  import opened ConfigGenerator
  import opened ConfigMaps
  import GeneratedConfig

  const MYSQLD := "mysqld"

  /** What validation demands of a my.cnf. */
  predicate ValidCnf(cnf: string) {
    match Parse(cnf)
    case Ok(ini) => |ini| == 1 && GetNumberOfSections(ini, MYSQLD) == 1
    case Err(_) => false
  }

  lemma ValidCnfKeys(cnf: string)
    requires ValidCnf(cnf)
    ensures Parse(cnf).value.Keys == {MYSQLD}
  {
    var ini := Parse(cnf).value;
    LowerIdentity(MYSQLD);
    assert MYSQLD in ini.Keys && |ini.Keys| == 1;
    forall k | k in ini.Keys ensures k == MYSQLD {
      SingletonKey(ini.Keys, MYSQLD, k);
    }
  }

  lemma SingletonKey(keys: set<string>, a: string, b: string)
    requires |keys| == 1 && a in keys && b in keys
    ensures a == b
  {
    assert |keys - {a}| == 0;
  }

  function VersionHeader(version: nat): Section {
    map["configversion" := Itoa(version)]
  }

  /** The state once the preamble has been read. */
  function Preambled(version: nat): State {
    State(map[HEADER := [VersionHeader(version)]], Some(Cursor(HEADER, 0)))
  }

  // ----- reading the preamble

  /** A second remark in the header section can hold a parameter. */
  lemma VersionReads(version: nat, lineNo: nat)
    requires version <= MAX_INT32
    ensures AfterLine(HEADED, "# ConfigVersion=" + Itoa(version), lineNo) == Ok(Preambled(version))
  {
    hide TrimSpace, DropCR, TrimCommentMarks, PlainLine, Itoa, Preambled, ToLower, Stored;
    var t := "ConfigVersion" + "=" + Itoa(version);
    assert "# ConfigVersion=" + Itoa(version) == "# " + t;
    GeneratedConfig.PlainNumber("ConfigVersion", version);
    PlainVersion(version);
    RemarkText(t);
    LowerIdentity(HEADER);
    assert |HEADED.ini.Keys| == |HEADED.ini| == 1;
    VersionStored(version, lineNo);
    assert |"# " + t| <= MAX_LINE by {
      RemarkFits(t);
    }
  }

  lemma RemarkFits(t: string)
    requires PlainLine(Remark(t))
    ensures |"# " + t| <= MAX_LINE
  {
  }

  lemma VersionStored(version: nat, lineNo: nat)
    ensures Stored(HEADED, "ConfigVersion" + "=" + Itoa(version), true, lineNo) == Ok(Preambled(version))
  {
    hide ToLower, Itoa, IndexOf, WithValue;
    SplitAtEquals("ConfigVersion", Itoa(version));
    WithVersion(version);
  }

  lemma WithVersion(version: nat)
    ensures WithValue(HEADED, "ConfigVersion", Itoa(version)) == Preambled(version)
  {
    hide ToLower, Itoa;
    LowerIs("ConfigVersion", "configversion");
    var s: Section := map[];
    assert s["configversion" := Itoa(version)] == VersionHeader(version);
    assert HEADED.ini[HEADER][0 := VersionHeader(version)] == [VersionHeader(version)];
    assert HEADED.ini[HEADER := [VersionHeader(version)]] == map[HEADER := [VersionHeader(version)]];
  }

  lemma PlainVersion(version: nat)
    requires PlainLine(Param("ConfigVersion", Itoa(version))) && version <= MAX_INT32
    ensures PlainLine(Remark("ConfigVersion" + "=" + Itoa(version)))
  {
    hide Itoa;
    var t := "ConfigVersion" + "=" + Itoa(version);
    GeneratedConfig.ElevenDigits();
    GeneratedConfig.ItoaLength(version, 11);
    assert t[0] == 'C';
    assert t[|t| - 1] == Itoa(version)[|Itoa(version)| - 1];
  }

  lemma PreambleReads(version: nat)
    requires version <= MAX_INT32
    ensures AfterLines(INITIAL, MyCnfPreamble(version), 1) == Ok(Preambled(version))
  {
    hide AfterLine, AfterLines, Itoa, PlainLine;
    var second := "# ConfigVersion=" + Itoa(version);
    GeneratedConfig.PlainBanner();
    FirstRemark(BANNER);
    VersionReads(version, 2);
    BlankReads(Preambled(version), 3);
    NextLine(INITIAL, "# " + BANNER, [second] + ([""] + []), 1);
    NextLine(HEADED, second, [""] + [], 2);
    NextLine(Preambled(version), "", [], 3);
    assert MyCnfPreamble(version) == ["# " + BANNER] + ([second] + ([""] + []));
    NoLines(Preambled(version), 4);
  }

  // ----- reading settings behind the header

  /** `behind` is `alone` with a header section in front. */
  ghost predicate Alongside(alone: State, behind: State, header: Section) {
    || (alone == INITIAL && behind == State(map[HEADER := [header]], Some(Cursor(HEADER, 0))))
    || (&& alone.ini.Keys == {MYSQLD}
        && behind == State(alone.ini[HEADER := [header]], alone.current))
  }

  lemma SectionNamesStay(st: State, raw: string, lineNo: nat)
    requires st.Valid()
    ensures match AfterLine(st, raw, lineNo)
            case Ok(st') => st.ini.Keys <= st'.ini.Keys
            case Err(_) => true
  {
    hide TrimSpace, DropCR, TrimCommentMarks, ToLower, IndexOf;
  }

  lemma {:induction false} AllSectionNamesStay(st: State, lines: seq<string>, lineNo: nat)
    requires st.Valid()
    ensures match AfterLines(st, lines, lineNo)
            case Ok(st') => st.ini.Keys <= st'.ini.Keys
            case Err(_) => true
    decreases |lines|
  {
    hide AfterLine;
    if lines != [] {
      SectionNamesStay(st, lines[0], lineNo);
      match AfterLine(st, lines[0], lineNo)
      case Ok(st') => AllSectionNamesStay(st', lines[1..], lineNo + 1);
      case Err(_) =>
    }
  }

  /** Storing a parameter does not depend on the header beside it. */
  lemma StoredAlongside(alone: State, behind: State, header: Section, line: string, isComment: bool, n: nat, m: nat)
    requires alone.Valid() && behind.Valid() && alone.ini.Keys == {MYSQLD} && Alongside(alone, behind, header)
    requires alone.current.Some? && alone.current.value.group == MYSQLD
    ensures match Stored(alone, line, isComment, n)
            case Err(_) => true
            case Ok(st) =>
              && Stored(behind, line, isComment, m).Ok?
              && Alongside(st, Stored(behind, line, isComment, m).value, header)
              && st.ini.Keys == {MYSQLD} && st.current == alone.current
  {
    hide ToLower, IndexOf;
    var i := IndexOf(line, '=');
    if i != |line| && i + 1 != |line| {
      var a, b := WithValue(alone, line[..i], line[i + 1..]), WithValue(behind, line[..i], line[i + 1..]);
      assert alone.ini[MYSQLD] == behind.ini[MYSQLD];
      assert b.ini == a.ini[HEADER := [header]];
    }
  }

  lemma HeadingAlongside(alone: State, behind: State, header: Section, name: string)
    requires alone.Valid() && behind.Valid() && Alongside(alone, behind, header)
    requires WithSection(alone.ini, name).ini.Keys == {MYSQLD}
    ensures Alongside(WithSection(alone.ini, name), WithSection(behind.ini, name), header)
    ensures WithSection(alone.ini, name).current.value.group == MYSQLD
  {
    hide ToLower;
    LowerIdentity(HEADER);
    NamedKey(alone.ini, name);
    assert ToLower(name) == MYSQLD;
    assert name != HEADER;
    var a, b := WithSection(alone.ini, name), WithSection(behind.ini, name);
    var group := if MYSQLD in alone.ini then alone.ini[MYSQLD] else [];
    assert a == State(alone.ini[MYSQLD := group + [map[]]], Some(Cursor(MYSQLD, |group|)));
    assert b == State(behind.ini[MYSQLD := group + [map[]]], Some(Cursor(MYSQLD, |group|)));
    assert b.ini == a.ini[HEADER := [header]];
  }

  lemma NamedKey(ini: ConfigIni, name: string)
    requires State(ini, None).Valid()
    ensures ToLower(name) in WithSection(ini, name).ini.Keys
  {
    hide ToLower;
  }

  /** The section being filled, once there is one, is the servers'. */
  ghost predicate InServers(st: State) {
    st.current.Some? ==> st.current.value.group == MYSQLD
  }

  lemma LineAlongside(alone: State, behind: State, header: Section, raw: string, n: nat, m: nat)
    requires alone.Valid() && behind.Valid() && Alongside(alone, behind, header) && InServers(alone)
    ensures match AfterLine(alone, raw, n)
            case Err(_) => true
            case Ok(st) =>
              st.ini.Keys <= {MYSQLD} ==>
                && AfterLine(behind, raw, m).Ok?
                && Alongside(st, AfterLine(behind, raw, m).value, header) && InServers(st)
  {
    hide TrimSpace, DropCR, TrimCommentMarks, ToLower, IndexOf, Stored, WithSection;
    if |raw| <= MAX_LINE {
      var line := TrimSpace(DropCR(raw));
      if line != "" {
        if line[0] == ';' || line[0] == '#' {
          RemarkAlongside(alone, behind, header, raw, n, m);
        } else if line[0] == '[' {
          if line[|line| - 1] == ']' {
            var st := WithSection(alone.ini, line[1..|line| - 1]);
            if st.ini.Keys <= {MYSQLD} {
              SectionsNotEmpty(alone.ini, line[1..|line| - 1]);
              HeadingAlongside(alone, behind, header, line[1..|line| - 1]);
            }
          }
        } else {
          ParamAlongside(alone, behind, header, line, n, m);
        }
      }
    }
  }

  lemma SectionsNotEmpty(ini: ConfigIni, name: string)
    requires State(ini, None).Valid()
    ensures WithSection(ini, name).ini.Keys != {}
  {
    assert ToLower(name) in WithSection(ini, name).ini.Keys;
  }

  lemma ParamAlongside(alone: State, behind: State, header: Section, line: string, n: nat, m: nat)
    requires alone.Valid() && behind.Valid() && Alongside(alone, behind, header) && InServers(alone)
    ensures match Stored(alone, line, false, n)
            case Err(_) => true
            case Ok(st) =>
              && Stored(behind, line, false, m).Ok?
              && Alongside(st, Stored(behind, line, false, m).value, header) && InServers(st)
  {
    if alone.current.Some? {
      StoredAlongside(alone, behind, header, line, false, n, m);
    }
  }

  lemma RemarkAlongside(alone: State, behind: State, header: Section, raw: string, n: nat, m: nat)
    requires alone.Valid() && behind.Valid() && Alongside(alone, behind, header) && InServers(alone)
    requires |raw| <= MAX_LINE
    requires var line := TrimSpace(DropCR(raw)); line != "" && (line[0] == ';' || line[0] == '#')
    ensures match AfterLine(alone, raw, n)
            case Err(_) => true
            case Ok(st) =>
              st.ini.Keys <= {MYSQLD} ==>
                && AfterLine(behind, raw, m).Ok?
                && Alongside(st, AfterLine(behind, raw, m).value, header) && InServers(st)
  {
    hide TrimSpace, DropCR, TrimCommentMarks, ToLower, IndexOf, Stored, WithSection;
    var comment := TrimSpace(TrimCommentMarks(TrimSpace(DropCR(raw))));
    if comment != "" {
      LowerIdentity(HEADER);
      if alone == INITIAL {
        HeaderAppears(comment, n);
      } else {
        assert |alone.ini.Keys| == |alone.ini| == 1;
        assert behind.ini.Keys == {MYSQLD, HEADER};
        assert |behind.ini.Keys| == |behind.ini| == 2;
        assert GetSection(alone.ini, HEADER) == Ok(None);
      }
    }
  }

  /** A remark in front of all sections opens a header section, which validation refuses. */
  lemma HeaderAppears(comment: string, n: nat)
    ensures match Stored(WithSection(map[], HEADER), comment, true, n)
            case Ok(st) => HEADER in st.ini.Keys
            case Err(_) => true
  {
    hide IndexOf, ToLower;
    LowerIdentity(HEADER);
  }

  lemma {:induction false} LinesAlongside(
    alone: State, behind: State, header: Section, lines: seq<string>, n: nat, m: nat)
    requires alone.Valid() && behind.Valid() && Alongside(alone, behind, header) && InServers(alone)
    requires AfterLines(alone, lines, n).Ok? && AfterLines(alone, lines, n).value.ini.Keys <= {MYSQLD}
    ensures AfterLines(behind, lines, m).Ok?
    ensures Alongside(AfterLines(alone, lines, n).value, AfterLines(behind, lines, m).value, header)
    decreases |lines|
  {
    hide AfterLine, Alongside, InServers;
    if lines != [] {
      LineAlongside(alone, behind, header, lines[0], n, m);
      AllSectionNamesStay(AfterLine(alone, lines[0], n).value, lines[1..], n + 1);
      LinesAlongside(AfterLine(alone, lines[0], n).value, AfterLine(behind, lines[0], m).value, header, lines[1..], n + 1, m + 1);
    }
  }

  // ----- the text as a whole

  lemma {:induction false} LinesOfTerminated(text: string)
    ensures RawLines(text + "\n") == RawLines(text) || RawLines(text + "\n") == RawLines(text) + [""]
    decreases |text|
  {
    if text == "" {
      assert text + "\n" == "" + ['\n'] + "";
      RawLinesCons("", "");
    } else {
      var i := IndexOf(text, '\n');
      var a := text[..i];
      if i == |text| {
        assert text + "\n" == a + ['\n'] + "";
        RawLinesCons(a, "");
      } else {
        var rest := text[i + 1..];
        assert text + "\n" == a + ['\n'] + (rest + "\n");
        RawLinesCons(a, rest + "\n");
        LinesOfTerminated(rest);
      }
    }
  }

  lemma TerminatedParses(st: State, text: string, lineNo: nat)
    requires st.Valid()
    ensures AfterLines(st, RawLines(text + "\n"), lineNo) == AfterLines(st, RawLines(text), lineNo)
  {
    hide AfterLine, RawLines;
    LinesOfTerminated(text);
    if RawLines(text + "\n") != RawLines(text) {
      AfterLinesConcat(st, RawLines(text), [""], lineNo);
      match AfterLines(st, RawLines(text), lineNo)
      case Err(_) =>
      case Ok(st') =>
        BlankReads(st', lineNo + |RawLines(text)|);
        assert [""][1..] == [];
    }
  }

  /** The stored text of a valid my.cnf parses to its sections and a header with the version. */
  lemma StoredCnfParses(cnf: string, version: nat)
    requires ValidCnf(cnf) && version <= MAX_INT32
    ensures Parse(Unlines(MyCnfPreamble(version)) + (cnf + "\n"))
         == Ok(Parse(cnf).value[HEADER := [VersionHeader(version)]])
  {
    hide AfterLine, AfterLines, RawLines, Unlines, Preambled, Alongside;
    var preamble := MyCnfPreamble(version);
    NoBreaksInPreamble(version);
    RawLinesAppend(preamble, cnf + "\n");
    AfterLinesConcat(INITIAL, preamble, RawLines(cnf + "\n"), 1);
    PreambleReads(version);
    TerminatedParses(Preambled(version), cnf, 4);
    ValidCnfKeys(cnf);
    assert Alongside(INITIAL, Preambled(version), VersionHeader(version)) by {
      PreambledIsAlongside(version);
    }
    LinesAlongside(INITIAL, Preambled(version), VersionHeader(version), RawLines(cnf), 1, 4);
    EndAlongside(AfterLines(INITIAL, RawLines(cnf), 1).value, AfterLines(Preambled(version), RawLines(cnf), 4).value, VersionHeader(version));
  }

  lemma PreambledIsAlongside(version: nat)
    ensures Preambled(version).Valid() && Alongside(INITIAL, Preambled(version), VersionHeader(version))
  {
  }

  lemma EndAlongside(alone: State, behind: State, header: Section)
    requires Alongside(alone, behind, header) && alone.ini.Keys == {MYSQLD}
    ensures behind.ini == alone.ini[HEADER := [header]]
  {
  }

  lemma NoBreaksInPreamble(version: nat)
    ensures forall i :: 0 <= i < 3 ==> '\n' !in MyCnfPreamble(version)[i]
  {
    hide PlainLine;
    GeneratedConfig.PlainDigits(version);
    GeneratedConfig.PlainBanner();
    NoBreakInRemark(BANNER);
  }

  lemma NoBreakInRemark(t: string)
    requires PlainLine(Remark(t))
    ensures '\n' !in "# " + t
  {
  }

  /** The summary finds the version again. */
  lemma VersionRecovered(cnf: string, version: nat)
    requires ValidCnf(cnf) && version <= MAX_INT32
    ensures var stored := Unlines(MyCnfPreamble(version)) + (cnf + "\n");
            && MyCnfOf(stored) == Ok(Some(Parse(cnf).value[HEADER := [VersionHeader(version)]]))
            && MyCnfVersion(MyCnfOf(stored).value) == Ok(version)
  {
    hide Parse, RawLines, AfterLines, Unlines, MyCnfPreamble, Itoa, ParseInt32;
    StoredCnfParses(cnf, version);
    HeaderVersion(Parse(cnf).value, version);
    assert |cnf + "\n"| > 0;
    assert Unlines(MyCnfPreamble(version)) + (cnf + "\n") != "";
  }

  lemma HeaderVersion(ini: ConfigIni, version: nat)
    requires version <= MAX_INT32
    ensures MyCnfVersion(Some(ini[HEADER := [VersionHeader(version)]])) == Ok(version)
  {
    hide ToLower, Itoa, ParseInt32;
    LowerIdentity(HEADER);
    LowerIs("ConfigVersion", "configversion");
    ParseItoa(version);
  }

  /**
   The comparison of a stored my.cnf with the one it was generated from never finds them equal,
   since only the stored one has a header: every update of a specification with a my.cnf rewrites it.
   */
  lemma CnfAlwaysRewritten(cs: ConfigSummary, nc: NdbCluster, cnf: string, version: nat)
    requires ValidCnf(cnf) && version <= MAX_INT32
    requires MyCnfOf(Unlines(MyCnfPreamble(version)) + (cnf + "\n")) == Ok(cs.myCnfConfig)
    requires nc.GetMySQLCnf() != "" && ValidCnf(nc.GetMySQLCnf())
    ensures MyCnfDiffers(Some(cs), nc.GetMySQLCnf())
  {
    hide Parse, RawLines, AfterLines, Unlines, MyCnfPreamble;
    VersionRecovered(cnf, version);
    ValidCnfKeys(nc.GetMySQLCnf());
    assert HEADER in IniOf(cs.myCnfConfig).Keys;
  }
}

/**
 The parser of config.ini and my.cnf texts (pkg/ndbconfig/configparser/config_parser.go).
 */
module IniParser {
  import opened Wrappers
  import opened Text

  /** Parameter names, in lower case, and their values. */
  type Section = map<string, string>

  /** Section names, in lower case, and the sections with that name in order of appearance. */
  type ConfigIni = map<string, seq<Section>>

  const HEADER := "header"

  /** bufio.MaxScanTokenSize: the scanner gives up on a line that fills its buffer. */
  const MAX_LINE := 65535

  datatype ParseError =
    | IncompleteSectionName(lineNo: nat, line: string)
    | LineWithoutSection(lineNo: nat, line: string)
    | FormatError(lineNo: nat, line: string)
    | LineTooLong
    | AmbiguousSection(name: string)  // GetSection panics

  // ----- reading sections and values

  function GetValue(s: Section, param: string): Option<string> {
    var key := ToLower(param);
    if key in s then Some(s[key]) else None
  }

  function GetAllSections(ci: ConfigIni, name: string): seq<Section> {
    var key := ToLower(name);
    if key in ci then ci[key] else []
  }

  function GetNumberOfSections(ci: ConfigIni, name: string): nat {
    |GetAllSections(ci, name)|
  }

  /** The only section with the name, if any; the source panics when there are several. */
  function GetSection(ci: ConfigIni, name: string): Result<Option<Section>, ParseError> {
    var group := GetAllSections(ci, name);
    if |group| == 0 then Ok(None)
    else if |group| == 1 then Ok(Some(group[0]))
    else Err(AmbiguousSection(name))
  }

  /** The value of a parameter of the only section with the name, "" when there is none. */
  function GetValueFromSection(ci: ConfigIni, name: string, param: string): Result<string, ParseError> {
    match GetSection(ci, name)
    case Err(e) => Err(e)
    case Ok(None) => Ok("")
    case Ok(Some(section)) =>
      match GetValue(section, param)
      case None => Ok("")
      case Some(v) => Ok(v)
  }

  // ----- what one line does

  /** The section that takes the next parameter, by group name and position. */
  datatype Cursor = Cursor(group: string, index: nat)

  datatype State = State(ini: ConfigIni, current: Option<Cursor>) {
    predicate Valid() {
      && (forall name :: name in ini ==> |ini[name]| > 0)
      && (current.Some? ==> current.value.group in ini && current.value.index < |ini[current.value.group]|)
    }
  }

  const INITIAL := State(map[], None)

  function WithSection(ini: ConfigIni, name: string): (st: State)
    requires State(ini, None).Valid()
    ensures st.Valid() && st.current.Some?
  {
    var key := ToLower(name);
    var group := if key in ini then ini[key] else [];
    if name == HEADER && |group| == 1 then State(ini, Some(Cursor(key, 0)))
    else State(ini[key := group + [map[]]], Some(Cursor(key, |group|)))
  }

  function WithValue(st: State, param: string, value: string): (st': State)
    requires st.Valid() && st.current.Some?
    ensures st'.Valid() && st'.current == st.current
  {
    var Cursor(group, i) := st.current.value;
    var section := st.ini[group][i][ToLower(param) := value];
    st.(ini := st.ini[group := st.ini[group][i := section]])
  }

  /** Stores `key=value`; a comment without that form is skipped, any other line is an error. */
  function Stored(st: State, line: string, isComment: bool, lineNo: nat): (r: Result<State, ParseError>)
    requires st.Valid()
    ensures r.Ok? ==> r.value.Valid()
  {
    if st.current.None? then Err(LineWithoutSection(lineNo, line))
    else
      var i := IndexOf(line, '=');
      if i == |line| || i + 1 == |line| then
        if isComment then Ok(st) else Err(FormatError(lineNo, line))
      else Ok(WithValue(st, line[..i], line[i + 1..]))
  }

  function AfterLine(st: State, raw: string, lineNo: nat): (r: Result<State, ParseError>)
    requires st.Valid()
    ensures r.Ok? ==> r.value.Valid()
  {
    if |raw| > MAX_LINE then Err(LineTooLong)
    else
      var line := TrimSpace(DropCR(raw));
      if line == "" then Ok(st)
      else if line[0] == ';' || line[0] == '#' then
        var comment := TrimSpace(TrimCommentMarks(line));
        if comment == "" then Ok(st)
        else if |st.ini| == 0 then Stored(WithSection(st.ini, HEADER), comment, true, lineNo)
        else if |st.ini| != 1 then Ok(st)
        else
          LowerIdentity(HEADER);
          match GetSection(st.ini, HEADER)
          case Err(e) => Err(e)
          case Ok(None) => Ok(st)
          case Ok(Some(_)) => Stored(st.(current := Some(Cursor(HEADER, 0))), comment, true, lineNo)
      else if line[0] == '[' then
        if line[|line| - 1] != ']' then Err(IncompleteSectionName(lineNo, line))
        else Ok(WithSection(st.ini, line[1..|line| - 1]))
      else Stored(st, line, false, lineNo)
  }

  /** The state after the lines, the first of which has number `lineNo`. */
  function AfterLines(st: State, lines: seq<string>, lineNo: nat): (r: Result<State, ParseError>)
    requires st.Valid()
    ensures r.Ok? ==> r.value.Valid()
    decreases |lines|
  {
    if lines == [] then Ok(st)
    else
      match AfterLine(st, lines[0], lineNo)
      case Err(e) => Err(e)
      case Ok(st') => AfterLines(st', lines[1..], lineNo + 1)
  }

  function Parse(text: string): Result<ConfigIni, ParseError> {
    match AfterLines(INITIAL, RawLines(text), 1)
    case Err(e) => Err(e)
    case Ok(st) => Ok(st.ini)
  }

  lemma {:induction false} AfterLinesConcat(st: State, a: seq<string>, b: seq<string>, lineNo: nat)
    requires st.Valid()
    ensures AfterLines(st, a + b, lineNo)
         == match AfterLines(st, a, lineNo)
            case Err(e) => Err(e)
            case Ok(st') => AfterLines(st', b, lineNo + |a|)
    decreases |a|
  {
    hide AfterLine;
    if a == [] {
      assert a + b == b;
    } else {
      assert (a + b)[0] == a[0] && (a + b)[1..] == a[1..] + b;
      match AfterLine(st, a[0], lineNo)
      case Err(_) =>
      case Ok(st') => AfterLinesConcat(st', a[1..], b, lineNo + 1);
    }
  }

  lemma NextLine(st: State, line: string, rest: seq<string>, lineNo: nat)
    requires st.Valid()
    ensures AfterLines(st, [line] + rest, lineNo)
         == match AfterLine(st, line, lineNo)
            case Err(e) => Err(e)
            case Ok(st') => AfterLines(st', rest, lineNo + 1)
  {
    hide AfterLine;
    assert ([line] + rest)[1..] == rest;
  }

  lemma NoLines(st: State, lineNo: nat)
    requires st.Valid()
    ensures AfterLines(st, [], lineNo) == Ok(st)
  {
  }

  // ----- the parser itself

  /** The configuration being built and the section being filled. */
  class Builder {
    var ini: ConfigIni
    var current: Option<Cursor>

    ghost function Contents(): State
      reads this
    {
      State(ini, current)
    }

    constructor ()
      ensures Contents() == INITIAL
    {
      ini, current := map[], None;
    }

    method AddSection(name: string)
      requires Contents().Valid()
      modifies this
      ensures Contents() == WithSection(old(ini), name)
    {
      var key := ToLower(name);
      var group := if key in ini then ini[key] else [];
      if name == HEADER && |group| == 1 {
        current := Some(Cursor(key, 0));
        return;
      }
      ini := ini[key := group + [map[]]];
      current := Some(Cursor(key, |group|));
    }

    method SetValue(param: string, value: string)
      requires Contents().Valid() && current.Some?
      modifies this`ini
      ensures Contents() == WithValue(old(Contents()), param, value)
    {
      var Cursor(group, i) := current.value;
      ini := ini[group := ini[group][i := ini[group][i][ToLower(param) := value]]];
    }

    method StoreLine(line: string, isComment: bool, lineNo: nat) returns (error: Option<ParseError>)
      requires Contents().Valid()
      modifies this`ini
      ensures match Stored(old(Contents()), line, isComment, lineNo)
              case Ok(st) => error == None && Contents() == st
              case Err(e) => error == Some(e)
    {
      if current.None? {
        return Some(LineWithoutSection(lineNo, line));
      }
      var i := IndexOf(line, '=');
      if i == |line| || i + 1 == |line| {
        return if isComment then None else Some(FormatError(lineNo, line));
      }
      SetValue(line[..i], line[i + 1..]);
      return None;
    }

    /** One pass of the scanning loop. */
    method ParseLine(raw: string, lineNo: nat) returns (error: Option<ParseError>)
      requires Contents().Valid()
      modifies this
      ensures match AfterLine(old(Contents()), raw, lineNo)
              case Ok(st) => error == None && Contents() == st
              case Err(e) => error == Some(e)
    {
      hide Stored, WithSection, WithValue, TrimSpace, TrimCommentMarks, DropCR, ToLower;
      if |raw| > MAX_LINE {
        return Some(LineTooLong);
      }
      var line := TrimSpace(DropCR(raw));
      if line == "" {
        return None;
      }
      var isComment := false;
      if line[0] == ';' || line[0] == '#' {
        isComment := true;
        line := TrimSpace(TrimCommentMarks(line));
        if line == "" {
          return None;
        }
        if |ini| == 0 {
          AddSection(HEADER);
        } else if |ini| == 1 {
          LowerIdentity(HEADER);
          var header := GetSection(ini, HEADER);
          match header {
            case Err(e) => return Some(e);
            case Ok(None) => return None;
            case Ok(Some(_)) => current := Some(Cursor(HEADER, 0));
          }
        } else {
          return None;
        }
      } else if line[0] == '[' {
        if line[|line| - 1] != ']' {
          return Some(IncompleteSectionName(lineNo, line));
        }
        AddSection(line[1..|line| - 1]);
        return None;
      }
      error := StoreLine(line, isComment, lineNo);
    }
  }

  method ParseString(configStr: string) returns (r: Result<ConfigIni, ParseError>)
    ensures r == Parse(configStr)
  {
    hide AfterLine, AfterLines, RawLines;
    var c := new Builder();
    var lines := RawLines(configStr);
    var lineNo := 0;
    assert lines[0..] == lines;
    while lineNo < |lines|
      invariant 0 <= lineNo <= |lines|
      invariant c.Contents().Valid()
      invariant AfterLines(INITIAL, lines, 1) == AfterLines(c.Contents(), lines[lineNo..], lineNo + 1)
    {
      assert lines[lineNo..] == [lines[lineNo]] + lines[lineNo + 1..];
      NextLine(c.Contents(), lines[lineNo], lines[lineNo + 1..], lineNo + 1);
      var error := c.ParseLine(lines[lineNo], lineNo + 1);
      if error.Some? {
        return Err(error.value);
      }
      lineNo := lineNo + 1;
    }
    assert lines[lineNo..] == [];
    NoLines(c.Contents(), lineNo + 1);
    r := Ok(c.ini);
  }

  // ----- equality

  /** The same section names, and under each name the same sections as often. */
  ghost predicate SameSections(c1: ConfigIni, c2: ConfigIni) {
    c1.Keys == c2.Keys && forall name :: name in c1 ==> multiset(c1[name]) == multiset(c2[name])
  }

  /** The sections not yet marked. */
  ghost function Unmatched<T>(sections: seq<T>, matched: seq<bool>): multiset<T>
    requires |matched| == |sections|
  {
    if sections == [] then multiset{}
    else
      var n := |sections| - 1;
      Unmatched(sections[..n], matched[..n]) + if matched[n] then multiset{} else multiset{sections[n]}
  }

  lemma {:induction false} UnmatchedAll<T>(sections: seq<T>, matched: seq<bool>)
    requires |matched| == |sections| && forall i :: 0 <= i < |matched| ==> !matched[i]
    ensures Unmatched(sections, matched) == multiset(sections)
  {
    if sections != [] {
      var n := |sections| - 1;
      UnmatchedAll(sections[..n], matched[..n]);
      assert sections == sections[..n] + [sections[n]];
    }
  }

  lemma UnmatchedLast<T>(sections: seq<T>, matched: seq<bool>)
    requires |matched| == |sections| > 0
    ensures var n := |sections| - 1;
            Unmatched(sections, matched)
            == Unmatched(sections[..n], matched[..n]) + (if matched[n] then multiset{} else multiset{sections[n]})
  {
  }

  lemma MinusPlus<T>(r: multiset<T>, l: multiset<T>, x: T)
    requires x in r
    ensures x in r + l
    ensures (r - multiset{x}) + l == (r + l) - multiset{x} == (l + r) - multiset{x}
    ensures multiset{x} - multiset{x} == multiset{} && multiset{} + l == l == l + multiset{}
  {
  }

  lemma {:induction false} UnmatchedMark<T>(sections: seq<T>, matched: seq<bool>, i: nat)
    requires |matched| == |sections| && i < |matched| && !matched[i]
    ensures sections[i] in Unmatched(sections, matched)
    ensures Unmatched(sections, matched[i := true]) == Unmatched(sections, matched) - multiset{sections[i]}
  {
    var n := |sections| - 1;
    UnmatchedLast(sections, matched);
    UnmatchedLast(sections, matched[i := true]);
    hide Unmatched;
    if i == n {
      assert matched[i := true][..n] == matched[..n];
      MinusPlus(multiset{sections[n]}, Unmatched(sections[..n], matched[..n]), sections[n]);
    } else {
      UnmatchedMark(sections[..n], matched[..n], i);
      assert matched[i := true][..n] == matched[..n][i := true];
      MinusPlus(Unmatched(sections[..n], matched[..n]), if matched[n] then multiset{} else multiset{sections[n]}, sections[i]);
    }
  }

  lemma {:induction false} UnmatchedIsMarkedLater<T>(sections: seq<T>, matched: seq<bool>, s: T)
    requires |matched| == |sections| && s in Unmatched(sections, matched)
    ensures exists i :: 0 <= i < |sections| && !matched[i] && sections[i] == s
  {
    var n := |sections| - 1;
    if matched[n] || sections[n] != s {
      UnmatchedIsMarkedLater(sections[..n], matched[..n], s);
      var i :| 0 <= i < n && !matched[..n][i] && sections[..n][i] == s;
      assert !matched[i] && sections[i] == s;
    }
  }

  /** The first section equal to `section1` and not yet matched, if any. */
  method FindMatch(section1: Section, sections2: seq<Section>, matched: array<bool>) returns (i: nat)
    requires matched.Length == |sections2|
    ensures i <= |sections2|
    ensures i < |sections2| ==> !matched[i] && sections2[i] == section1
    ensures i == |sections2| ==> forall j :: 0 <= j < |sections2| ==> matched[j] || sections2[j] != section1
  {
    i := 0;
    while i < |sections2|
      invariant i <= |sections2|
      invariant forall j :: 0 <= j < i ==> matched[j] || sections2[j] != section1
    {
      if !matched[i] && section1 == sections2[i] {
        return;
      }
      i := i + 1;
    }
  }

  /** The first `k` sections have been matched with those marked. */
  ghost predicate Matching<T>(sections1: seq<T>, sections2: seq<T>, k: nat, matched: seq<bool>) {
    && k <= |sections1| && |matched| == |sections2|
    && multiset(sections1[..k]) <= multiset(sections2)
    && Unmatched(sections2, matched) == multiset(sections2) - multiset(sections1[..k])
  }

  /** The greedy matching of the sections of one name; it never goes back on a match. */
  method SameGroup(sections1: seq<Section>, sections2: seq<Section>) returns (same: bool)
    requires |sections1| == |sections2|
    ensures same <==> multiset(sections1) == multiset(sections2)
  {
    hide Matching;
    var matched := new bool[|sections1|](_ => false);
    StartMatching(sections1, sections2, matched[..]);
    for k := 0 to |sections1|
      invariant Matching(sections1, sections2, k, matched[..])
    {
      var i := FindMatch(sections1[k], sections2, matched);
      if i == |sections2| {
        MoreInFirst(sections1, sections2, k, matched[..]);
        return false;
      }
      MatchOne(sections1, sections2, k, matched[..], i);
      ghost var before := matched[..];
      matched[i] := true;
      assert matched[..] == before[i := true];
    }
    EndMatching(sections1, sections2, matched[..]);
    same := true;
  }

  lemma StartMatching<T>(sections1: seq<T>, sections2: seq<T>, matched: seq<bool>)
    requires |matched| == |sections2| && forall i :: 0 <= i < |matched| ==> !matched[i]
    ensures Matching(sections1, sections2, 0, matched)
  {
    UnmatchedAll(sections2, matched);
  }

  lemma MatchOne<T>(sections1: seq<T>, sections2: seq<T>, k: nat, matched: seq<bool>, i: nat)
    requires Matching(sections1, sections2, k, matched) && k < |sections1|
    requires i < |sections2| && !matched[i] && sections2[i] == sections1[k]
    ensures Matching(sections1, sections2, k + 1, matched[i := true])
  {
    hide Unmatched;
    UnmatchedMark(sections2, matched, i);
    TakeOne(sections1, sections2, k);
  }

  lemma EndMatching<T>(sections1: seq<T>, sections2: seq<T>, matched: seq<bool>)
    requires |sections1| == |sections2| && Matching(sections1, sections2, |sections1|, matched)
    ensures multiset(sections1) == multiset(sections2)
  {
    hide Unmatched;
    assert sections1[..|sections1|] == sections1;
    SubmultisetOfSameSize(multiset(sections1), multiset(sections2));
  }

  lemma TakeOne<T>(sections1: seq<T>, sections2: seq<T>, k: nat)
    requires k < |sections1| && multiset(sections1[..k]) <= multiset(sections2)
    requires sections1[k] in multiset(sections2) - multiset(sections1[..k])
    ensures multiset(sections1[..k + 1]) <= multiset(sections2)
    ensures multiset(sections2) - multiset(sections1[..k + 1])
         == multiset(sections2) - multiset(sections1[..k]) - multiset{sections1[k]}
  {
    assert sections1[..k + 1] == sections1[..k] + [sections1[k]];
  }

  lemma SubmultisetOfSameSize<T>(a: multiset<T>, b: multiset<T>)
    requires a <= b && |a| == |b|
    ensures a == b
  {
    assert b == a + (b - a);
  }

  lemma MoreInFirst<T>(sections1: seq<T>, sections2: seq<T>, k: nat, matched: seq<bool>)
    requires k < |sections1| && Matching(sections1, sections2, k, matched)
    requires forall j :: 0 <= j < |sections2| ==> matched[j] || sections2[j] != sections1[k]
    ensures multiset(sections1) != multiset(sections2)
  {
    hide Unmatched;
    var s := sections1[k];
    if s in Unmatched(sections2, matched) {
      UnmatchedIsMarkedLater(sections2, matched, s);
      assert false;
    }
    assert sections1 == sections1[..k] + ([s] + sections1[k + 1..]);
  }

  /** Names are compared in an order of no importance: the iteration order of a Go map. */
  method IsEqual(c1: ConfigIni, c2: ConfigIni) returns (equal: bool)
    ensures equal <==> SameSections(c1, c2)
  {
    if |c1| != |c2| {
      assert |c1.Keys| == |c1| && |c2.Keys| == |c2|;
      return false;
    }
    var names := c1.Keys;
    while names != {}
      invariant names <= c1.Keys
      invariant forall name :: name in c1.Keys - names ==> name in c2 && multiset(c1[name]) == multiset(c2[name])
      decreases names
    {
      var name :| name in names;
      if name !in c2 {
        return false;
      }
      if |c1[name]| != |c2[name]| {
        assert |multiset(c1[name])| != |multiset(c2[name])|;
        return false;
      }
      var same := SameGroup(c1[name], c2[name]);
      if !same {
        return false;
      }
      names := names - {name};
    }
    SubsetOfSameSize(c1.Keys, c2.Keys);
    equal := true;
  }

  lemma {:induction false} SubsetOfSameSize(a: set<string>, b: set<string>)
    requires a <= b && |a| == |b|
    ensures a == b
  {
    assert b == a + (b - a);
  }
}

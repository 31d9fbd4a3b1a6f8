/** Reading dotenv text (tools/ports/ports.go): the assignment pattern and both parsers. */
module DotEnv {
  import opened Wrappers
  import opened Domain
  import Decimal

  // ----- The assignment pattern -----

  predicate IsSpace(c: char) {
    c == ' ' || c == '\t' || c == '\n' || c == '\r' || c as int == 12
  }

  predicate IsNameChar(c: char) {
    'A' <= c <= 'Z' || '0' <= c <= '9' || c == '_'
  }

  predicate All(s: string, p: char -> bool) {
    forall i :: 0 <= i < |s| ==> p(s[i])
  }

  const SUFFIX := "_PORT"

  /** A capital letter, then capitals, digits and underscores, ending in _PORT. */
  predicate IsPortName(s: string) {
    |s| > |SUFFIX| && 'A' <= s[0] <= 'Z' && All(s, IsNameChar) && s[|s| - |SUFFIX|..] == SUFFIX
  }

  /** The names, spelled out. */
  lemma PortNamesExactly(s: string)
    ensures IsPortName(s) <==>
            exists p :: s == p + "_PORT" && p != "" && 'A' <= p[0] <= 'Z'
                        && forall i :: 0 <= i < |p| ==> 'A' <= p[i] <= 'Z' || '0' <= p[i] <= '9' || p[i] == '_'
  {
    if IsPortName(s) {
      var p := s[..|s| - 5];
      assert s == p + "_PORT";
      assert forall i :: 0 <= i < |p| ==> p[i] == s[i];
    }
    if p :| s == p + "_PORT" && p != "" && 'A' <= p[0] <= 'Z'
            && forall i :: 0 <= i < |p| ==> 'A' <= p[i] <= 'Z' || '0' <= p[i] <= '9' || p[i] == '_' {
      assert s[|s| - 5..] == "_PORT";
      assert forall i :: 0 <= i < |s| ==> s[i] == if i < |p| then p[i] else "_PORT"[i - |p|];
    }
  }

  /** One matched line; port is the number its digits stand for, however large. */
  datatype Assignment = Assignment(commented: bool, name: string, port: nat)

  /** Length of the longest prefix of such characters. */
  function Span(s: string, p: char -> bool): (n: nat)
    ensures n <= |s| && All(s[..n], p) && (n < |s| ==> !p(s[n]))
  {
    if s == "" || !p(s[0]) then 0 else 1 + Span(s[1..], p)
  }

  function TrimLeft(s: string): string {
    s[Span(s, IsSpace)..]
  }

  /** A number between white space, to the end of the line. */
  function MatchNumber(s: string): Option<nat> {
    var value := TrimLeft(s);
    var d := Span(value, Decimal.IsDigit);
    if d == 0 || TrimLeft(value[d..]) != "" then None else Some(Decimal.Read(value[..d]))
  }

  /** What follows the equals sign. */
  function MatchEq(s: string): Option<string> {
    var rest := TrimLeft(s);
    if rest == "" || rest[0] != '=' then None else Some(rest[1..])
  }

  /** What follows the comment sign, or a line without one. */
  function MatchName(s: string, commented: bool): Option<Assignment> {
    var n := Span(s, IsNameChar);
    if !IsPortName(s[..n]) then None
    else match MatchEq(s[n..])
      case None => None
      case Some(t) =>
        match MatchNumber(t)
        case None => None
        case Some(port) => Some(Assignment(commented, s[..n], port))
  }

  /** Reads a line from left to right. */
  function Match(line: string): Option<Assignment> {
    var s := TrimLeft(line);
    if s != "" && s[0] == '#' then MatchName(TrimLeft(s[1..]), true) else MatchName(s, false)
  }

  /** How a line is made up: white space around its parts, a sign, a name and digits. */
  datatype Layout = Layout(before: string, afterSign: string, afterName: string, afterEq: string, digits: string, end: string)

  predicate Blank(l: Layout) {
    && All(l.before, IsSpace) && All(l.afterSign, IsSpace) && All(l.afterName, IsSpace) && All(l.afterEq, IsSpace)
    && All(l.end, IsSpace)
  }

  predicate Spells(digits: string, port: nat) {
    digits != "" && Decimal.AllDigits(digits) && port == Decimal.Read(digits)
  }

  function NumberText(l: Layout): string {
    l.afterEq + (l.digits + l.end)
  }

  function EqText(l: Layout): string {
    l.afterName + ("=" + NumberText(l))
  }

  function NameText(name: string, l: Layout): string {
    name + EqText(l)
  }

  /** White space, perhaps a comment sign, and the assignment with white space around each part. */
  function LineText(a: Assignment, l: Layout): string {
    l.before + if a.commented then "#" + (l.afterSign + NameText(a.name, l)) else NameText(a.name, l)
  }

  /** line is the assignment a, laid out as l. */
  predicate LaidOut(line: string, a: Assignment, l: Layout) {
    Blank(l) && IsPortName(a.name) && Spells(l.digits, a.port) && line == LineText(a, l)
  }

  lemma {:induction false} SpanOf(a: string, b: string, p: char -> bool)
    requires All(a, p) && (b != "" ==> !p(b[0]))
    ensures Span(a + b, p) == |a|
    ensures (a + b)[..|a|] == a && (a + b)[|a|..] == b
    decreases |a|
  {
    if a == "" {
      assert a + b == b;
    } else {
      assert (a + b)[1..] == a[1..] + b;
      SpanOf(a[1..], b, p);
    }
  }

  lemma SpanAll(a: string, p: char -> bool)
    requires All(a, p)
    ensures Span(a, p) == |a|
  {
    SpanOf(a, "", p);
    assert a + "" == a;
  }

  lemma MatchNumberComplete(l: Layout, port: nat)
    requires Blank(l) && Spells(l.digits, port)
    ensures MatchNumber(NumberText(l)) == Some(port)
  {
    hide Decimal.Read;
    assert (l.digits + l.end)[0] == l.digits[0];
    SpanOf(l.afterEq, l.digits + l.end, IsSpace);
    SpanOf(l.digits, l.end, Decimal.IsDigit);
    SpanAll(l.end, IsSpace);
  }

  lemma MatchEqComplete(l: Layout)
    requires Blank(l)
    ensures MatchEq(EqText(l)) == Some(NumberText(l))
  {
    hide NumberText;
    var rest := "=" + NumberText(l);
    assert rest[0] == '=' && rest[1..] == NumberText(l);
    SpanOf(l.afterName, rest, IsSpace);
  }

  lemma MatchNameComplete(a: Assignment, l: Layout)
    requires Blank(l) && IsPortName(a.name) && Spells(l.digits, a.port)
    ensures MatchName(NameText(a.name, l), a.commented) == Some(a)
  {
    hide MatchEq, MatchNumber, Spells;
    MatchNumberComplete(l, a.port);
    MatchEqComplete(l);
    EqStarts(l);
    SpanOf(a.name, EqText(l), IsNameChar);
  }

  lemma EqStarts(l: Layout)
    requires Blank(l)
    ensures EqText(l) != "" && !IsNameChar(EqText(l)[0])
  {
    assert EqText(l)[0] == if l.afterName == "" then '=' else l.afterName[0];
  }

  lemma MatchComplete(line: string, a: Assignment, l: Layout)
    requires LaidOut(line, a, l)
    ensures Match(line) == Some(a)
  {
    hide MatchName, IsPortName, Spells, EqText;
    NameStarts(a.name);
    var s := NameText(a.name, l);
    assert s != "" && s[0] == a.name[0];
    MatchNameComplete(a, l);
    if a.commented {
      var r := "#" + (l.afterSign + s);
      SpanOf(l.before, r, IsSpace);
      SpanOf(l.afterSign, s, IsSpace);
      assert r[1..] == l.afterSign + s;
    } else {
      SpanOf(l.before, s, IsSpace);
    }
  }

  lemma NameStarts(name: string)
    requires IsPortName(name)
    ensures name != "" && !IsSpace(name[0]) && name[0] != '#'
  {
  }

  lemma TrimLeftSplits(s: string) returns (space: string)
    ensures All(space, IsSpace) && s == space + TrimLeft(s)
    ensures TrimLeft(s) == "" ==> space == s
  {
    space := s[..Span(s, IsSpace)];
  }

  lemma MatchNumberSound(s: string) returns (l: Layout)
    requires MatchNumber(s).Some?
    ensures Blank(l) && Spells(l.digits, MatchNumber(s).value) && s == NumberText(l)
  {
    hide Decimal.Read, TrimLeft;
    var value := TrimLeft(s);
    var d := Span(value, Decimal.IsDigit);
    var afterEq := TrimLeftSplits(s);
    var end := TrimLeftSplits(value[d..]);
    l := Layout("", "", "", afterEq, value[..d], end);
    assert value == l.digits + l.end;
  }

  lemma MatchEqSound(s: string) returns (space: string)
    requires MatchEq(s).Some?
    ensures All(space, IsSpace) && s == space + ("=" + MatchEq(s).value)
  {
    space := TrimLeftSplits(s);
    assert TrimLeft(s) == "=" + TrimLeft(s)[1..];
  }

  lemma MatchNameSound(s: string, commented: bool) returns (l: Layout)
    requires MatchName(s, commented).Some?
    ensures var a := MatchName(s, commented).value;
            && a.commented == commented && Blank(l) && IsPortName(a.name) && Spells(l.digits, a.port)
            && s == NameText(a.name, l)
  {
    hide IsPortName, MatchEq, MatchNumber, Spells;
    var n := Span(s, IsNameChar);
    var space := MatchEqSound(s[n..]);
    l := MatchNumberSound(MatchEq(s[n..]).value);
    l := l.(afterName := space);
    assert s == s[..n] + s[n..];
  }

  lemma MatchSound(line: string) returns (l: Layout)
    requires Match(line).Some?
    ensures LaidOut(line, Match(line).value, l)
  {
    hide MatchName, IsPortName, Spells, EqText;
    var before := TrimLeftSplits(line);
    var s := TrimLeft(line);
    if s != "" && s[0] == '#' {
      var afterSign := TrimLeftSplits(s[1..]);
      l := MatchNameSound(TrimLeft(s[1..]), true);
      SameText(l, l.(before := before, afterSign := afterSign));
      l := l.(before := before, afterSign := afterSign);
      assert s == "#" + s[1..];
    } else {
      l := MatchNameSound(s, false);
      SameText(l, l.(before := before));
      l := l.(before := before);
    }
  }

  lemma SameText(l: Layout, m: Layout)
    requires m.afterName == l.afterName && m.afterEq == l.afterEq && m.digits == l.digits && m.end == l.end
    ensures EqText(m) == EqText(l)
  {
  }

  /** Reading left to right finds an assignment exactly where the pattern allows one. */
  lemma MatchIsThePattern(line: string, a: Assignment)
    ensures Match(line) == Some(a) <==> exists l :: LaidOut(line, a, l)
  {
    if Match(line) == Some(a) {
      var l := MatchSound(line);
    }
    if l :| LaidOut(line, a, l) {
      MatchComplete(line, a, l);
    }
  }

  // ----- Parsing -----

  /** strconv.Atoi refuses numbers beyond 64 bits. */
  predicate FitsInt(port: nat) {
    port < INT64_LIMIT
  }

  /** The variable whose number is too large. */
  datatype ParseError = ParseError(name: string)

  datatype PortSpec = PortSpec(name: string, default: int)

  function Names(lines: seq<string>): set<string> {
    set i | 0 <= i < |lines| && Match(lines[i]).Some? :: Match(lines[i]).value.name
  }

  /** Line i is an active assignment of name. */
  predicate Sets(lines: seq<string>, i: int, name: string) {
    0 <= i < |lines| && Match(lines[i]).Some? && !Match(lines[i]).value.commented && Match(lines[i]).value.name == name
  }

  predicate Holds(m: map<string, int>, name: string, v: int) {
    name in m && m[name] == v
  }

  /** The last active assignment of name gives it v. */
  ghost predicate LastSets(lines: seq<string>, name: string, v: int) {
    exists i :: Sets(lines, i, name) && Match(lines[i]).value.port == v
                && forall j :: i < j < |lines| ==> !Sets(lines, j, name)
  }

  /** The active assignments so far; the first number too large ends it. */
  function Overrides(lines: seq<string>): Result<map<string, int>, ParseError>
    decreases |lines|
  {
    if lines == [] then Ok(map[])
    else match Overrides(lines[..|lines| - 1])
      case Err(e) => Err(e)
      case Ok(m) =>
        match Match(lines[|lines| - 1])
        case None => Ok(m)
        case Some(a) => if a.commented then Ok(m) else if !FitsInt(a.port) then Err(ParseError(a.name)) else Ok(m[a.name := a.port])
  }

  method ParseOverrides(lines: seq<string>) returns (r: Result<map<string, int>, ParseError>)
    ensures r == Overrides(lines)
  {
    hide Match, FitsInt;
    var overrides: map<string, int> := map[];
    for i := 0 to |lines|
      invariant Overrides(lines[..i]) == Ok(overrides)
    {
      assert lines[..i + 1][..i] == lines[..i];
      match Match(lines[i])
      case None =>
      case Some(a) =>
        if !a.commented {
          if !FitsInt(a.port) {
            OverridesError(lines, i + 1);
            return Err(ParseError(a.name));
          }
          overrides := overrides[a.name := a.port];
        }
    }
    assert lines[..|lines|] == lines;
    return Ok(overrides);
  }

  lemma {:induction false} OverridesError(lines: seq<string>, i: nat)
    requires i <= |lines| && Overrides(lines[..i]).Err?
    ensures Overrides(lines) == Overrides(lines[..i])
    decreases |lines|
  {
    hide Match, FitsInt;
    if i == |lines| {
      assert lines[..i] == lines;
    } else {
      var n := |lines| - 1;
      assert lines[..n][..i] == lines[..i];
      OverridesError(lines[..n], i);
    }
  }

  /** The result holds exactly the variables with an active line, each with the number of its last one. */
  lemma {:induction false} OverridesMean(lines: seq<string>)
    ensures Overrides(lines).Ok? <==>
              forall i :: 0 <= i < |lines| && Match(lines[i]).Some? && !Match(lines[i]).value.commented ==>
                FitsInt(Match(lines[i]).value.port)
    ensures Overrides(lines).Ok? ==>
              forall name, v :: Holds(Overrides(lines).value, name, v) <==> LastSets(lines, name, v)
    decreases |lines|
  {
    hide Match, FitsInt;
    if lines != [] {
      var n := |lines| - 1;
      var before := lines[..n];
      OverridesMean(before);
      if Overrides(lines).Ok? {
        forall name, v
          ensures Holds(Overrides(lines).value, name, v) <==> LastSets(lines, name, v)
        {
          LastSetter(lines, name, v);
        }
      }
    }
  }

  lemma LastSetter(lines: seq<string>, name: string, v: int)
    requires lines != [] && Overrides(lines).Ok? && Overrides(lines[..|lines| - 1]).Ok?
    requires Holds(Overrides(lines[..|lines| - 1]).value, name, v) <==> LastSets(lines[..|lines| - 1], name, v)
    ensures Holds(Overrides(lines).value, name, v) <==> LastSets(lines, name, v)
  {
    hide Match, FitsInt, Overrides, LastSets;
    OverridesStep(lines, name, v);
    LastSetsStep(lines, name, v);
  }

  lemma OverridesStep(lines: seq<string>, name: string, v: int)
    requires lines != [] && Overrides(lines).Ok? && Overrides(lines[..|lines| - 1]).Ok?
    ensures Holds(Overrides(lines).value, name, v) <==>
            if Sets(lines, |lines| - 1, name) then Match(lines[|lines| - 1]).value.port == v
            else Holds(Overrides(lines[..|lines| - 1]).value, name, v)
  {
    hide Match, FitsInt;
  }

  lemma LastSetsStep(lines: seq<string>, name: string, v: int)
    requires lines != []
    ensures LastSets(lines, name, v) <==>
            if Sets(lines, |lines| - 1, name) then Match(lines[|lines| - 1]).value.port == v
            else LastSets(lines[..|lines| - 1], name, v)
  {
    hide Match;
    var n := |lines| - 1;
    var before := lines[..n];
    assert forall j :: 0 <= j < n ==> (Sets(before, j, name) <==> Sets(lines, j, name));
    if LastSets(before, name, v) {
      var i :| Sets(before, i, name) && Match(before[i]).value.port == v
               && forall j :: i < j < n ==> !Sets(before, j, name);
      assert Sets(lines, i, name);
    }
    if LastSets(lines, name, v) {
      var i :| Sets(lines, i, name) && Match(lines[i]).value.port == v
               && forall j :: i < j < |lines| ==> !Sets(lines, j, name);
      assert i < n ==> Sets(before, i, name);
    }
  }

  // ----- Specs -----

  /** Line i is the first, active or not, that names its variable. */
  predicate Introduces(lines: seq<string>, i: int) {
    && 0 <= i < |lines| && Match(lines[i]).Some?
    && forall j :: 0 <= j < i && Match(lines[j]).Some? ==> Match(lines[j]).value.name != Match(lines[i]).value.name
  }

  /** The variables of a template in file order, each with the number of its first line. */
  function Specs(lines: seq<string>): seq<PortSpec> {
    if lines == [] then []
    else
      var n := |lines| - 1;
      Specs(lines[..n]) +
      if Introduces(lines, n) then [PortSpec(Match(lines[n]).value.name, Match(lines[n]).value.port)] else []
  }

  ghost predicate SpecsFit(lines: seq<string>) {
    forall i :: Introduces(lines, i) ==> FitsInt(Match(lines[i]).value.port)
  }

  method ParseSpecs(lines: seq<string>) returns (r: Result<seq<PortSpec>, ParseError>)
    ensures r.Ok? <==> SpecsFit(lines)
    ensures r.Ok? ==> r.value == Specs(lines)
    ensures r.Err? ==>
              exists i :: Introduces(lines, i) && !FitsInt(Match(lines[i]).value.port)
                          && r.error.name == Match(lines[i]).value.name && SpecsFit(lines[..i])
  {
    hide Match, FitsInt;
    var specs := [];
    var seen: set<string> := {};
    for i := 0 to |lines|
      invariant specs == Specs(lines[..i])
      invariant seen == Names(lines[..i])
      invariant forall j :: Introduces(lines, j) && j < i ==> FitsInt(Match(lines[j]).value.port)
    {
      assert lines[..i + 1][..i] == lines[..i];
      IntroducesPrefix(lines, i + 1);
      SeenNames(lines, i);
      var m := Match(lines[i]);
      if m.Some? && m.value.name !in seen {
        if !FitsInt(m.value.port) {
          assert Introduces(lines, i);
          IntroducesPrefix(lines, i);
          return Err(ParseError(m.value.name));
        }
        seen := seen + {m.value.name};
        specs := specs + [PortSpec(m.value.name, m.value.port)];
      }
    }
    assert lines[..|lines|] == lines;
    return Ok(specs);
  }

  lemma IntroducesPrefix(lines: seq<string>, n: nat)
    requires n <= |lines|
    ensures forall i :: i < n ==> (Introduces(lines[..n], i) <==> Introduces(lines, i))
  {
    hide Match;
  }

  lemma SeenNames(lines: seq<string>, i: nat)
    requires i < |lines|
    ensures Match(lines[i]).Some? ==> (Match(lines[i]).value.name !in Names(lines[..i]) <==> Introduces(lines, i))
    ensures Names(lines[..i + 1]) ==
            Names(lines[..i]) + if Match(lines[i]).Some? then {Match(lines[i]).value.name} else {}
  {
    hide Match;
    forall name
      ensures name in Names(lines[..i + 1]) <==>
              name in Names(lines[..i]) || (Match(lines[i]).Some? && Match(lines[i]).value.name == name)
    {
      if name in Names(lines[..i]) {
        var j :| 0 <= j < i && Match(lines[..i][j]).Some? && Match(lines[..i][j]).value.name == name;
        assert lines[..i + 1][j] == lines[j];
      }
      assert lines[..i + 1][i] == lines[i];
    }
    if Match(lines[i]).Some? && !Introduces(lines, i) {
      var j :| 0 <= j < i && Match(lines[j]).Some? && Match(lines[j]).value.name == Match(lines[i]).value.name;
      assert lines[..i][j] == lines[j];
    }
  }

  lemma SpecsOfPrefix(lines: seq<string>)
    requires lines != []
    ensures var n := |lines| - 1;
            Specs(lines) == Specs(lines[..n]) + if Introduces(lines, n) then [PortSpec(Match(lines[n]).value.name, Match(lines[n]).value.port)]
                                                else []
  {
    hide Match, Introduces;
  }

  lemma {:induction false} NamesOfSpecs(lines: seq<string>)
    ensures forall name :: name in Names(lines) <==> name in NamesIn(Specs(lines))
    decreases |lines|
  {
    hide Match, Names, Specs;
    if lines == [] {
      NoLines();
    } else {
      var n := |lines| - 1;
      NamesOfSpecs(lines[..n]);
      SpecsOfPrefix(lines);
      SeenNames(lines, n);
      assert lines[..n + 1] == lines;
      if Introduces(lines, n) {
        NamesInAppend(Specs(lines[..n]), PortSpec(Match(lines[n]).value.name, Match(lines[n]).value.port));
      } else {
        assert Specs(lines) == Specs(lines[..n]);
      }
    }
  }

  lemma NoLines()
    ensures Names([]) == {} && Specs([]) == []
  {
  }

  function NamesIn(specs: seq<PortSpec>): set<string> {
    set s | s in specs :: s.name
  }

  lemma NamesInAppend(specs: seq<PortSpec>, s: PortSpec)
    ensures NamesIn(specs + [s]) == NamesIn(specs) + {s.name}
  {
    assert s in specs + [s];
    assert forall t :: t in specs ==> t in specs + [s];
    assert forall t :: t in specs + [s] ==> t in specs || t == s;
  }

  lemma {:induction false} SpecsAreDistinctlyNamed(lines: seq<string>)
    ensures forall i, j :: 0 <= i < j < |Specs(lines)| ==> Specs(lines)[i].name != Specs(lines)[j].name
    decreases |lines|
  {
    hide Match, Names, Specs;
    if lines == [] {
      NoLines();
    } else {
      var n := |lines| - 1;
      SpecsAreDistinctlyNamed(lines[..n]);
      NamesOfSpecs(lines[..n]);
      SpecsOfPrefix(lines);
      SeenNames(lines, n);
      forall i | 0 <= i < |Specs(lines[..n])|
        ensures Specs(lines[..n])[i].name in Names(lines[..n])
      {
        assert Specs(lines[..n])[i] in Specs(lines[..n]);
        assert Specs(lines[..n])[i].name in NamesIn(Specs(lines[..n]));
      }
    }
  }

  lemma {:induction false} SpecsAreIntroduced(lines: seq<string>)
    ensures forall k :: 0 <= k < |Specs(lines)| ==> Introduced(lines, Specs(lines)[k])
    decreases |lines|
  {
    hide Match, Names, Specs;
    if lines == [] {
      NoLines();
    } else {
      var n := |lines| - 1;
      SpecsAreIntroduced(lines[..n]);
      SpecsOfPrefix(lines);
      forall k | 0 <= k < |Specs(lines[..n])|
        ensures Introduced(lines, Specs(lines[..n])[k])
      {
        IntroducedLater(lines, Specs(lines[..n])[k]);
      }
      if Introduces(lines, n) {
        IntroducedLast(lines);
      }
    }
  }

  lemma IntroducedLater(lines: seq<string>, s: PortSpec)
    requires lines != [] && Introduced(lines[..|lines| - 1], s)
    ensures Introduced(lines, s)
  {
    hide Match;
    var n := |lines| - 1;
    IntroducesPrefix(lines, n);
    var i :| Introduces(lines[..n], i) && Match(lines[..n][i]).value.name == s.name && Match(lines[..n][i]).value.port == s.default;
    assert Introduces(lines, i);
  }

  lemma IntroducedLast(lines: seq<string>)
    requires lines != [] && Introduces(lines, |lines| - 1)
    ensures var a := Match(lines[|lines| - 1]).value; Introduced(lines, PortSpec(a.name, a.port))
  {
    hide Match;
  }

  /** Each variable of the template has one entry, whose number is that of the line introducing it. */
  lemma SpecsMean(lines: seq<string>)
    ensures forall i, j :: 0 <= i < j < |Specs(lines)| ==> Specs(lines)[i].name != Specs(lines)[j].name
    ensures forall k :: 0 <= k < |Specs(lines)| ==> Introduced(lines, Specs(lines)[k])
    ensures forall name :: name in Names(lines) <==> exists k :: 0 <= k < |Specs(lines)| && Specs(lines)[k].name == name
  {
    hide Match, Names, Introduces, Specs, Introduced;
    SpecsAreDistinctlyNamed(lines);
    SpecsAreIntroduced(lines);
    NamesOfSpecs(lines);
    forall name
      ensures name in Names(lines) <==> exists k :: 0 <= k < |Specs(lines)| && Specs(lines)[k].name == name
    {
      if name in Names(lines) {
        var s :| s in Specs(lines) && s.name == name;
        var k :| 0 <= k < |Specs(lines)| && Specs(lines)[k] == s;
        assert Specs(lines)[k].name == name;
      }
      if k :| 0 <= k < |Specs(lines)| && Specs(lines)[k].name == name {
        assert Specs(lines)[k] in Specs(lines);
      }
    }
  }

  /** Line i introduces this entry. */
  predicate IntroducesSpec(lines: seq<string>, i: int, s: PortSpec) {
    Introduces(lines, i) && Match(lines[i]).value.name == s.name && Match(lines[i]).value.port == s.default
  }

  lemma IntroducedOnce(lines: seq<string>, s: PortSpec, i: int, j: int)
    requires IntroducesSpec(lines, i, s) && IntroducesSpec(lines, j, s)
    ensures i == j
  {
    hide Match;
  }

  lemma IntroducedInPrefix(lines: seq<string>, k: nat) returns (i: nat)
    requires lines != [] && k < |Specs(lines[..|lines| - 1])|
    ensures Specs(lines)[k] == Specs(lines[..|lines| - 1])[k]
    ensures i < |lines| - 1 && IntroducesSpec(lines, i, Specs(lines)[k])
  {
    var n := |lines| - 1;
    SpecsMean(lines[..n]);
    IntroducesPrefix(lines, n);
    hide Match;
    var s := Specs(lines[..n])[k];
    assert Introduced(lines[..n], s);
    i :| Introduces(lines[..n], i) && Match(lines[..n][i]).value.name == s.name && Match(lines[..n][i]).value.port == s.default;
  }

  /** Entries follow each other like the lines that introduce them. */
  lemma {:induction false} SpecsInFileOrder(lines: seq<string>, j: nat, k: nat, m: int, n: int)
    requires j < k < |Specs(lines)|
    requires IntroducesSpec(lines, m, Specs(lines)[j]) && IntroducesSpec(lines, n, Specs(lines)[k])
    ensures m < n
    decreases |lines|
  {
    hide Match;
    var last := |lines| - 1;
    var i := IntroducedInPrefix(lines, j);
    IntroducedOnce(lines, Specs(lines)[j], i, m);
    IntroducesPrefix(lines, last);
    if k < |Specs(lines[..last])| {
      var o := IntroducedInPrefix(lines, k);
      IntroducedOnce(lines, Specs(lines)[k], o, n);
      SpecsInFileOrder(lines[..last], j, k, m, n);
    } else {
      assert IntroducesSpec(lines, last, Specs(lines)[k]);
      IntroducedOnce(lines, Specs(lines)[k], last, n);
    }
  }

  ghost predicate Introduced(lines: seq<string>, s: PortSpec) {
    exists i :: Introduces(lines, i) && Match(lines[i]).value.name == s.name && Match(lines[i]).value.port == s.default
  }
}

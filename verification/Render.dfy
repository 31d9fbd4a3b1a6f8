/** RenderEnv of tools/ports/ports.go: writing changed ports back into dotenv text. */
module Render {
  import opened Wrappers
  import opened Lines
  import opened DotEnv
  import opened Ports
  import Decimal

  // ----- Order of names -----

  /** Byte order, as sort.Strings has it. */
  predicate LexLess(a: string, b: string) {
    b != "" && (a == "" || a[0] < b[0] || (a[0] == b[0] && LexLess(a[1..], b[1..])))
  }

  lemma {:induction false} LexTotal(a: string, b: string)
    ensures a == b || LexLess(a, b) || LexLess(b, a)
  {
    if a != "" && b != "" && a[0] == b[0] {
      LexTotal(a[1..], b[1..]);
      assert a == [a[0]] + a[1..] && b == [b[0]] + b[1..];
    }
  }

  lemma {:induction false} LexTransitive(a: string, b: string, c: string)
    requires LexLess(a, b) && LexLess(b, c)
    ensures LexLess(a, c)
  {
    if a != "" && a[0] == b[0] == c[0] {
      LexTransitive(a[1..], b[1..], c[1..]);
    }
  }

  lemma {:induction false} LeastExists(names: set<string>)
    requires names != {}
    ensures exists n :: n in names && forall m :: m in names && m != n ==> LexLess(n, m)
    decreases |names|
  {
    var n :| n in names;
    var rest := names - {n};
    if rest == {} {
      assert names == {n};
    } else {
      LeastExists(rest);
      var l :| l in rest && forall m :: m in rest && m != l ==> LexLess(l, m);
      LexTotal(l, n);
      forall m | m in names && m != n && LexLess(n, l)
        ensures LexLess(n, m)
      {
        if m != l {
          LexTransitive(n, l, m);
        }
      }
      assert forall m :: m in names <==> m == n || m in rest;
    }
  }

  /** The names of a set in order. */
  predicate IsListing(s: seq<string>, names: set<string>) {
    && (forall i, j :: 0 <= i < j < |s| ==> LexLess(s[i], s[j]))
    && (forall n :: n in names ==> n in s)
    && (forall n :: n in s ==> n in names)
  }

  method SortNames(names: set<string>) returns (s: seq<string>)
    ensures IsListing(s, names)
  {
    hide LexLess;
    s := [];
    var left := names;
    while left != {}
      invariant left <= names && IsListing(s, names - left)
      invariant forall i, n :: 0 <= i < |s| && n in left ==> LexLess(s[i], n)
      decreases left
    {
      LeastExists(left);
      var n :| n in left && forall m :: m in left && m != n ==> LexLess(n, m);
      s, left := s + [n], left - {n};
    }
    assert names - {} == names;
  }

  // ----- What is written -----

  function PrintPort(port: int): string {
    if port < 0 then "-" + Decimal.Print(-port) else Decimal.Print(port)
  }

  function Line(name: string, port: int): string {
    name + "=" + PrintPort(port)
  }

  /** A line that names a variable to update, active or commented out, is replaced. */
  function NewLine(line: string, updates: map<string, int>): string {
    match Match(line)
    case None => line
    case Some(a) => if a.name in updates then Line(a.name, updates[a.name]) else line
  }

  function NewLines(lines: seq<string>, updates: map<string, int>): (r: seq<string>)
    ensures |r| == |lines|
    ensures forall i :: 0 <= i < |lines| ==> r[i] == NewLine(lines[i], updates)
  {
    seq(|lines|, i requires 0 <= i < |lines| => NewLine(lines[i], updates))
  }

  function Assignments(names: seq<string>, updates: map<string, int>): (r: seq<string>)
    requires forall n :: n in names ==> n in updates
    ensures |r| == |names|
    ensures forall i :: 0 <= i < |names| ==> r[i] == Line(names[i], updates[names[i]])
  {
    seq(|names|, i requires 0 <= i < |names| => Line(names[i], updates[names[i]]))
  }

  /** The lines that are kept or replaced: none of an empty file, else all but the trailing newlines. */
  function Body(existing: string): (lines: seq<string>)
    ensures AllOneLine(lines)
  {
    if existing == "" then [] else Split(TrimRight(existing))
  }

  /** What changed choices ask for, a later one winning. */
  function Updates(choices: seq<Choice>): map<string, int> {
    if choices == [] then map[]
    else
      var before := Updates(choices[..|choices| - 1]);
      var c := choices[|choices| - 1];
      if Changed(c) then before[c.name := c.chosen] else before
  }

  ghost predicate RendersWith(existing: string, updates: map<string, int>, missing: seq<string>, text: string) {
    && IsListing(missing, updates.Keys - Names(Body(existing)))
    && text == Join(NewLines(Body(existing), updates) + Assignments(missing, updates)) + "\n"
  }

  /** text is existing with the updates written into it; without updates it is existing itself. */
  ghost predicate Renders(existing: string, updates: map<string, int>, text: string) {
    if updates == map[] then text == existing
    else exists missing :: RendersWith(existing, updates, missing, text)
  }

  /** The pass over the lines; written collects the variables that have one. */
  method ReplaceLines(body: seq<string>, updates: map<string, int>) returns (lines: seq<string>, written: set<string>)
    ensures lines == NewLines(body, updates)
    ensures written == Names(body) * updates.Keys
  {
    hide Match, Names;
    lines, written := body, {};
    NoNames();
    for i := 0 to |lines|
      invariant |lines| == |body|
      invariant forall j :: 0 <= j < i ==> lines[j] == NewLine(body[j], updates)
      invariant forall j :: i <= j < |lines| ==> lines[j] == body[j]
      invariant written == Names(body[..i]) * updates.Keys
    {
      SeenNames(body, i);
      var m := Match(lines[i]);
      if m.Some? && m.value.name in updates {
        lines := lines[i := Line(m.value.name, updates[m.value.name])];
        written := written + {m.value.name};
      }
    }
    assert body[..|body|] == body;
    assert lines == NewLines(body, updates);
  }

  lemma NoNames()
    ensures Names([]) == {}
  {
  }

  method RenderEnv(existing: string, choices: seq<Choice>) returns (text: string)
    ensures Renders(existing, Updates(choices), text)
  {
    hide Match, Split, TrimRight, Join, IsListing, Names, Line, NewLine;
    var updates: map<string, int> := map[];
    for i := 0 to |choices|
      invariant updates == Updates(choices[..i])
    {
      assert choices[..i + 1][..i] == choices[..i];
      if Changed(choices[i]) {
        updates := updates[choices[i].name := choices[i].chosen];
      }
    }
    assert choices[..|choices|] == choices;
    if updates == map[] {
      return existing;
    }

    var lines := Split(TrimRight(existing));
    if existing == "" {
      lines := [];
    }
    var written;
    lines, written := ReplaceLines(lines, updates);
    var missing := SortNames(updates.Keys - written);
    assert updates.Keys - written == updates.Keys - Names(Body(existing));
    ListedAreUpdates(missing, updates.Keys - written, updates);
    for i := 0 to |missing|
      invariant lines == NewLines(Body(existing), updates) + Assignments(missing, updates)[..i]
    {
      lines := lines + [Line(missing[i], updates[missing[i]])];
    }
    assert Assignments(missing, updates)[..|missing|] == Assignments(missing, updates);
    text := Join(lines) + "\n";
    assert RendersWith(existing, updates, missing, text);
  }

  lemma ListedAreUpdates(missing: seq<string>, names: set<string>, updates: map<string, int>)
    requires IsListing(missing, names) && names <= updates.Keys
    ensures forall n :: n in missing ==> n in updates
  {
  }

  // ----- Rendered lines are read back -----

  /** Port names with ports that fit. */
  predicate ValidUpdates(updates: map<string, int>) {
    forall n :: n in updates ==> IsPortName(n) && 0 <= updates[n] && FitsInt(updates[n])
  }

  lemma RenderedLineMatches(name: string, port: nat)
    requires IsPortName(name)
    ensures Match(Line(name, port)) == Some(Assignment(false, name, port))
    ensures OneLine(Line(name, port)) && Line(name, port) != ""
  {
    hide Match, IsPortName;
    var l := Layout("", "", "", "", Decimal.Print(port), "");
    var a := Assignment(false, name, port);
    RenderedIsLaidOut(name, port, a, l);
    MatchComplete(Line(name, port), a, l);
    RenderedIsOneLine(name, port);
  }

  lemma RenderedIsLaidOut(name: string, port: nat, a: Assignment, l: Layout)
    requires IsPortName(name) && a == Assignment(false, name, port)
    requires l == Layout("", "", "", "", Decimal.Print(port), "")
    ensures LaidOut(Line(name, port), a, l)
  {
    hide IsPortName, Decimal.Print, Decimal.Read;
    Decimal.ReadPrint(port);
    assert NumberText(l) == Decimal.Print(port);
    assert EqText(l) == "=" + Decimal.Print(port);
    assert LineText(a, l) == name + ("=" + Decimal.Print(port));
  }

  lemma RenderedIsOneLine(name: string, port: nat)
    requires IsPortName(name)
    ensures OneLine(Line(name, port)) && Line(name, port) != ""
  {
    hide Decimal.Print;
    assert OneLine(name) && OneLine(Decimal.Print(port));
  }

  function Restrict(updates: map<string, int>, names: set<string>): map<string, int> {
    map n | n in updates && n in names :: updates[n]
  }

  lemma OverridesAppend(lines: seq<string>, line: string)
    ensures Overrides(lines + [line]) ==
            match Overrides(lines)
            case Err(e) => Err(e)
            case Ok(m) =>
              match Match(line)
              case None => Ok(m)
              case Some(a) =>
                if a.commented then Ok(m) else if !FitsInt(a.port) then Err(ParseError(a.name)) else Ok(m[a.name := a.port])
  {
    assert (lines + [line])[..|lines|] == lines;
  }

  lemma PutUpdated(m: map<string, int>, updates: map<string, int>, names: set<string>, n: string, v: int)
    requires n in updates
    ensures (m + Restrict(updates, names))[n := updates[n]] == m + Restrict(updates, names + {n})
    ensures m[n := v] + Restrict(updates, names + {n}) == m + Restrict(updates, names + {n})
  {
  }

  lemma RestrictNothing(m: map<string, int>, updates: map<string, int>)
    ensures m + Restrict(updates, {}) == m
  {
  }

  lemma PutOther(m: map<string, int>, updates: map<string, int>, names: set<string>, n: string, v: int)
    requires n !in updates
    ensures (m + Restrict(updates, names))[n := v] == m[n := v] + Restrict(updates, names + {n})
    ensures Restrict(updates, names + {n}) == Restrict(updates, names)
  {
  }

  /** One line, replaced or not: its effect on the active values. */
  lemma NewLineOverrides(lines: seq<string>, news: seq<string>, line: string, updates: map<string, int>, m: map<string, int>)
    requires ValidUpdates(updates) && Overrides(lines) == Ok(m) && Overrides(lines + [line]).Ok?
    requires Overrides(news) == Ok(m + Restrict(updates, Names(lines)))
    ensures Overrides(news + [NewLine(line, updates)]) ==
            Ok(Overrides(lines + [line]).value + Restrict(updates, Names(lines + [line])))
  {
    hide Match, FitsInt, Overrides, ValidUpdates, Restrict, Names, Line;
    OverridesAppend(lines, line);
    OverridesAppend(news, NewLine(line, updates));
    SeenNames(lines + [line], |lines|);
    assert (lines + [line])[..|lines|] == lines && (lines + [line])[..|lines| + 1] == lines + [line];
    match Match(line)
    case None => assert Names(lines) + {} == Names(lines);
    case Some(a) =>
      if a.name in updates {
        FitsUpdate(updates, a.name);
        RenderedLineMatches(a.name, updates[a.name]);
        PutUpdated(m, updates, Names(lines), a.name, a.port);
      } else {
        PutOther(m, updates, Names(lines), a.name, a.port);
      }
  }

  lemma NothingOverrides(updates: map<string, int>)
    ensures NewLines([], updates) == [] && Overrides([]) == Ok(map[])
    ensures map[] + Restrict(updates, Names([])) == map[]
  {
    NoNames();
    RestrictNothing(map[], updates);
  }

  lemma OverridesOfPrefix(lines: seq<string>)
    requires lines != [] && Overrides(lines).Ok?
    ensures Overrides(lines[..|lines| - 1]).Ok?
  {
    hide Match, FitsInt;
  }

  lemma {:induction false} NewLinesOverrides(lines: seq<string>, updates: map<string, int>)
    requires ValidUpdates(updates) && Overrides(lines).Ok?
    ensures Overrides(NewLines(lines, updates)) == Ok(Overrides(lines).value + Restrict(updates, Names(lines)))
    decreases |lines|
  {
    hide Overrides, ValidUpdates, Restrict, Names, NewLine;
    if lines == [] {
      NothingOverrides(updates);
    } else {
      var n := |lines| - 1;
      OverridesOfPrefix(lines);
      NewLinesOverrides(lines[..n], updates);
      assert lines == lines[..n] + [lines[n]];
      NewLineOverrides(lines[..n], NewLines(lines[..n], updates), lines[n], updates, Overrides(lines[..n]).value);
      assert NewLines(lines, updates) == NewLines(lines[..n], updates) + [NewLine(lines[n], updates)];
    }
  }

  lemma {:induction false} AssignmentsOverride(lines: seq<string>, names: seq<string>, updates: map<string, int>)
    requires ValidUpdates(updates) && Overrides(lines).Ok? && forall n :: n in names ==> n in updates
    ensures Overrides(lines + Assignments(names, updates)) ==
            Ok(Overrides(lines).value + Restrict(updates, set n | n in names))
    decreases |names|
  {
    hide Match, FitsInt, ValidUpdates, Overrides, Line, Restrict;
    if names == [] {
      assert lines + Assignments(names, updates) == lines;
      assert (set n | n in names) == {};
      RestrictNothing(Overrides(lines).value, updates);
    } else {
      var k := |names| - 1;
      AssignmentsOverride(lines, names[..k], updates);
      var before := lines + Assignments(names[..k], updates);
      assert Assignments(names, updates) == Assignments(names[..k], updates) + [Line(names[k], updates[names[k]])];
      assert lines + Assignments(names, updates) == before + [Line(names[k], updates[names[k]])];
      OneAssignment(before, names[k], updates);
      assert (set n | n in names) == (set n | n in names[..k]) + {names[k]};
      PutUpdated(Overrides(lines).value, updates, (set n | n in names[..k]), names[k], 0);
    }
  }

  lemma OneAssignment(lines: seq<string>, name: string, updates: map<string, int>)
    requires ValidUpdates(updates) && name in updates && Overrides(lines).Ok?
    ensures Overrides(lines + [Line(name, updates[name])]) == Ok(Overrides(lines).value[name := updates[name]])
  {
    hide Match, FitsInt, IsPortName, Overrides;
    FitsUpdate(updates, name);
    RenderedLineMatches(name, updates[name]);
    OverridesAppend(lines, Line(name, updates[name]));
  }

  lemma FitsUpdate(updates: map<string, int>, n: string)
    requires ValidUpdates(updates) && n in updates
    ensures 0 <= updates[n] && FitsInt(updates[n]) && IsPortName(n)
  {
  }

  lemma EmptyLine()
    ensures Match("").None?
  {
    hide Span, IsPortName;
    assert TrimLeft("") == "" && ""[..Span("", IsNameChar)] == "";
    NotAName();
  }

  lemma NotAName()
    ensures !IsPortName("")
  {
  }

  /** Empty lines at the end say nothing. */
  lemma {:induction false} EmptyLinesSayNothing(lines: seq<string>, kept: nat)
    requires kept <= |lines| && forall i :: kept <= i < |lines| ==> lines[i] == ""
    ensures Overrides(lines) == Overrides(lines[..kept])
    decreases |lines|
  {
    hide Match, Overrides;
    if kept < |lines| {
      var n := |lines| - 1;
      EmptyLinesSayNothing(lines[..n], kept);
      assert lines[..n][..kept] == lines[..kept];
      EmptyLine();
      assert lines == lines[..n] + [""];
      OverridesAppend(lines[..n], "");
    } else {
      assert lines[..kept] == lines;
    }
  }

  lemma BodyOverrides(existing: string)
    ensures Overrides(Split(existing)) == Overrides(Body(existing))
  {
    hide Match;
    SplitTrimmed(existing);
    var kept := |Body(existing)|;
    EmptyLinesSayNothing(Split(existing), kept);
    assert Split(existing)[..kept] == Body(existing);
  }

  // ----- The lines of rendered text -----

  function TextLines(existing: string, updates: map<string, int>, missing: seq<string>): (lines: seq<string>)
    requires forall n :: n in missing ==> n in updates
    ensures |lines| == |Body(existing)| + |missing|
  {
    NewLines(Body(existing), updates) + Assignments(missing, updates)
  }

  lemma TextLinesAreLines(existing: string, updates: map<string, int>, missing: seq<string>, text: string)
    requires updates != map[] && ValidUpdates(updates) && RendersWith(existing, updates, missing, text)
    ensures var lines := TextLines(existing, updates, missing);
            && lines != [] && AllOneLine(lines) && lines[|lines| - 1] != ""
            && Split(text) == lines + [""] && Body(text) == lines && text != ""
  {
    hide Match, IsPortName, TrimRight, LexLess;
    var lines := TextLines(existing, updates, missing);
    forall i | 0 <= i < |lines|
      ensures OneLine(lines[i])
    {
      OneTextLine(existing, updates, missing, i);
    }
    LastTextLine(existing, updates, missing);
    SplitJoin(lines);
    SplitAppend(Join(lines), "");
    assert text == Join(lines) + "\n" + "";
    TrimTerminated(lines);
  }

  lemma OneTextLine(existing: string, updates: map<string, int>, missing: seq<string>, i: nat)
    requires ValidUpdates(updates) && (forall n :: n in missing ==> n in updates) && i < |Body(existing)| + |missing|
    ensures var line := TextLines(existing, updates, missing)[i];
            && OneLine(line)
            && (|Body(existing)| <= i ==> line != "")
            && (i < |Body(existing)| && Body(existing)[i] != "" ==> line != "")
  {
    hide Match, IsPortName, Body;
    var k := |Body(existing)|;
    if i < k {
      assert TextLines(existing, updates, missing)[i] == NewLine(Body(existing)[i], updates);
      var a := Match(Body(existing)[i]);
      if a.Some? && a.value.name in updates {
        FitsUpdate(updates, a.value.name);
        RenderedLineMatches(a.value.name, updates[a.value.name]);
      }
    } else {
      assert missing[i - k] in missing;
      FitsUpdate(updates, missing[i - k]);
      RenderedLineMatches(missing[i - k], updates[missing[i - k]]);
    }
  }

  lemma LastTextLine(existing: string, updates: map<string, int>, missing: seq<string>)
    requires updates != map[] && ValidUpdates(updates) && IsListing(missing, updates.Keys - Names(Body(existing)))
    ensures TextLines(existing, updates, missing) != []
    ensures var lines := TextLines(existing, updates, missing); lines[|lines| - 1] != ""
  {
    hide IsPortName, LexLess, Body, Match, Names, NewLine, ValidUpdates, TrimRight, NewLines, Assignments, TextLines;
    var body := Body(existing);
    var n :| n in updates;
    ListedOrNamed(missing, updates, Names(body), n);
    BodyWithNames(existing);
    OneTextLine(existing, updates, missing, |body| + |missing| - 1);
  }

  lemma ListedOrNamed(missing: seq<string>, updates: map<string, int>, names: set<string>, n: string)
    requires IsListing(missing, updates.Keys - names) && n in updates
    ensures n in names || n in missing
  {
    hide LexLess;
    assert n in names || n in updates.Keys - names;
  }

  /** A file with a line to replace does not consist of newlines only. */
  lemma BodyWithNames(existing: string)
    ensures var body := Body(existing); Names(body) != {} ==> |body| > 0 && body[|body| - 1] != ""
  {
    hide Match;
    EmptyLine();
    if TrimRight(existing) == "" {
      assert Names(Body(existing)) == {};
    } else {
      LastLine(existing);
    }
  }

  // ----- Main results -----

  /** Reading the rendered text gives the old active values with the updates put in, and nothing else changed. */
  lemma RenderThenParse(existing: string, updates: map<string, int>, text: string)
    requires ValidUpdates(updates) && Renders(existing, updates, text) && Overrides(Split(existing)).Ok?
    ensures Overrides(Split(text)) == Ok(Overrides(Split(existing)).value + updates)
  {
    hide Match, Overrides, Split, TrimRight, IsPortName, Join, Body, LexLess, Names, ValidUpdates, NewLines, Assignments;
    if updates == map[] {
      assert Overrides(Split(existing)).value + updates == Overrides(Split(existing)).value;
    } else {
      var missing :| RendersWith(existing, updates, missing, text);
      BodyOverrides(existing);
      BodyOverrides(text);
      TextLinesAreLines(existing, updates, missing, text);
      TextOverrides(existing, updates, missing);
    }
  }

  lemma TextOverrides(existing: string, updates: map<string, int>, missing: seq<string>)
    requires ValidUpdates(updates) && IsListing(missing, updates.Keys - Names(Body(existing)))
    requires Overrides(Body(existing)).Ok?
    ensures Overrides(TextLines(existing, updates, missing)) == Ok(Overrides(Body(existing)).value + updates)
  {
    hide Match, Overrides, IsPortName, Body, LexLess, Names, ValidUpdates, Restrict;
    var body := Body(existing);
    NewLinesOverrides(body, updates);
    AssignmentsOverride(NewLines(body, updates), missing, updates);
    RestrictAll(Overrides(body).value, updates, Names(body), missing);
  }

  lemma RestrictAll(m: map<string, int>, updates: map<string, int>, names: set<string>, missing: seq<string>)
    requires IsListing(missing, updates.Keys - names)
    ensures m + Restrict(updates, names) + Restrict(updates, set n | n in missing) == m + updates
  {
    hide LexLess;
    forall n | n in updates
      ensures n in names || n in missing
    {
      ListedOrNamed(missing, updates, names, n);
    }
  }

  /** A line survives as it is, or as NAME=port with the variable's new port. */
  predicate LineKept(before: string, after: string, updates: map<string, int>) {
    match Match(before)
    case Some(a) =>
      if a.name in updates then updates[a.name] >= 0 && after == a.name + "=" + Decimal.Print(updates[a.name])
      else after == before
    case None => after == before
  }

  /** Lines from n on are NAME=port for these names, and an empty one ends them. */
  ghost predicate Appends(lines: seq<string>, n: nat, names: seq<string>, updates: map<string, int>) {
    && |lines| == n + |names| + 1 && lines[n + |names|] == ""
    && forall i :: 0 <= i < |names| ==>
         names[i] in updates && updates[names[i]] >= 0
         && lines[n + i] == names[i] + "=" + Decimal.Print(updates[names[i]])
  }

  /**
   * Line by line: every line is kept in its place except those of updated variables, the variables without a
   * line follow in name order, and the text ends in exactly one newline.
   */
  lemma RenderKeepsLines(existing: string, updates: map<string, int>, text: string)
    requires ValidUpdates(updates) && updates != map[] && Renders(existing, updates, text)
    ensures |Body(existing)| < |Split(text)|
    ensures exists missing :: IsListing(missing, updates.Keys - Names(Body(existing)))
              && Appends(Split(text), |Body(existing)|, missing, updates)
    ensures forall i :: 0 <= i < |Body(existing)| ==> LineKept(Body(existing)[i], Split(text)[i], updates)
    ensures |text| > 1 && text[|text| - 1] == '\n' && text[|text| - 2] != '\n'
  {
    hide Match, Split, TrimRight, IsPortName, LexLess, Join, Appends, LineKept, ValidUpdates, Line;
    var missing :| RendersWith(existing, updates, missing, text);
    var body := Body(existing);
    TextLinesAreLines(existing, updates, missing, text);
    assert Split(text)[..|body|] == NewLines(body, updates);
    forall i | 0 <= i < |body|
      ensures LineKept(body[i], Split(text)[i], updates)
    {
      assert Split(text)[i] == NewLine(body[i], updates);
      NewLineKept(body[i], updates);
    }
    OneFinalNewline(TextLines(existing, updates, missing));
    AppendedLines(body, missing, updates);
  }

  lemma AppendedLines(body: seq<string>, missing: seq<string>, updates: map<string, int>)
    requires ValidUpdates(updates) && forall n :: n in missing ==> n in updates
    ensures Appends(NewLines(body, updates) + Assignments(missing, updates) + [""], |body|, missing, updates)
  {
    hide IsPortName, NewLine;
    var lines := NewLines(body, updates) + Assignments(missing, updates) + [""];
    forall i | 0 <= i < |missing|
      ensures missing[i] in updates && updates[missing[i]] >= 0
              && lines[|body| + i] == missing[i] + "=" + Decimal.Print(updates[missing[i]])
    {
      assert missing[i] in missing;
      FitsUpdate(updates, missing[i]);
      assert lines[|body| + i] == Line(missing[i], updates[missing[i]]);
    }
  }

  lemma NewLineKept(line: string, updates: map<string, int>)
    requires ValidUpdates(updates)
    ensures LineKept(line, NewLine(line, updates), updates)
    ensures NewLine(NewLine(line, updates), updates) == NewLine(line, updates)
    ensures Match(line).Some? ==>
              Match(NewLine(line, updates)).Some? && Match(NewLine(line, updates)).value.name == Match(line).value.name
  {
    hide Match, IsPortName;
    var a := Match(line);
    if a.Some? && a.value.name in updates {
      FitsUpdate(updates, a.value.name);
      RenderedLineMatches(a.value.name, updates[a.value.name]);
    }
  }

  lemma OneFinalNewline(lines: seq<string>)
    requires |lines| > 0 && AllOneLine(lines) && lines[|lines| - 1] != ""
    ensures var text := Join(lines) + "\n"; |text| > 1 && text[|text| - 1] == '\n' && text[|text| - 2] != '\n'
  {
    var last := lines[|lines| - 1];
    var s := Join(lines);
    assert s != "" && s[|s| - 1] == last[|last| - 1];
    assert last[|last| - 1] in last;
  }

  /** Every updated variable has a line in rendered text, and rendering replaces no line by a different one. */
  lemma RenderedIsStable(existing: string, updates: map<string, int>, missing: seq<string>)
    requires ValidUpdates(updates) && IsListing(missing, updates.Keys - Names(Body(existing)))
    ensures var lines := TextLines(existing, updates, missing);
            NewLines(lines, updates) == lines && updates.Keys <= Names(lines)
  {
    hide Match, IsPortName, Body, LexLess, NewLine;
    var body := Body(existing);
    var lines := TextLines(existing, updates, missing);
    forall i | 0 <= i < |lines|
      ensures NewLine(lines[i], updates) == lines[i]
    {
      if i < |body| {
        NewLineKept(body[i], updates);
      } else {
        AssignmentStable(missing[i - |body|], updates);
      }
    }
    forall n | n in updates
      ensures n in Names(lines)
    {
      if n in missing {
        var k :| 0 <= k < |missing| && missing[k] == n;
        AssignmentStable(n, updates);
        assert lines[|body| + k] == Line(n, updates[n]);
      } else {
        assert n in Names(body);
        var i :| 0 <= i < |body| && Match(body[i]).Some? && Match(body[i]).value.name == n;
        NewLineKept(body[i], updates);
        assert lines[i] == NewLine(body[i], updates);
      }
    }
  }

  lemma AssignmentStable(n: string, updates: map<string, int>)
    requires ValidUpdates(updates) && n in updates
    ensures NewLine(Line(n, updates[n]), updates) == Line(n, updates[n])
    ensures Match(Line(n, updates[n])).Some? && Match(Line(n, updates[n])).value.name == n
  {
    hide Match, IsPortName;
    FitsUpdate(updates, n);
    RenderedLineMatches(n, updates[n]);
  }

  lemma ListedIsNamed(s: seq<string>, names: set<string>)
    requires IsListing(s, names)
    ensures |s| > 0 ==> s[0] in names
  {
    assert |s| > 0 ==> s[0] in s;
  }

  /** Rendering twice is rendering once. */
  lemma RenderTwice(existing: string, updates: map<string, int>, once: string, twice: string)
    requires ValidUpdates(updates) && Renders(existing, updates, once) && Renders(once, updates, twice)
    ensures twice == once
  {
    hide Match, Split, TrimRight, IsPortName, LexLess, Join, Body, Names;
    if updates != map[] {
      var missing :| RendersWith(existing, updates, missing, once);
      var again :| RendersWith(once, updates, again, twice);
      TextLinesAreLines(existing, updates, missing, once);
      RenderedIsStable(existing, updates, missing);
      ListedIsNamed(again, updates.Keys - Names(Body(once)));
      assert Body(once) + Assignments(again, updates) == Body(once);
    }
  }

  // ----- The order of map iteration does not matter -----

  lemma {:induction false} LexAsymmetric(a: string, b: string)
    requires LexLess(a, b)
    ensures !LexLess(b, a) && a != b
  {
    if a != "" && a[0] == b[0] {
      LexAsymmetric(a[1..], b[1..]);
    }
  }

  /** A set has one listing. */
  lemma {:induction false} ListingIsUnique(s: seq<string>, t: seq<string>, names: set<string>)
    requires IsListing(s, names) && IsListing(t, names)
    ensures s == t
    decreases |s|
  {
    hide LexLess;
    ListedIsNamed(s, names);
    ListedIsNamed(t, names);
    if s != [] && t != [] {
      SameFirst(s, t, names);
      ListingRest(s, names);
      ListingRest(t, names);
      ListingIsUnique(s[1..], t[1..], names - {s[0]});
      assert s == [s[0]] + s[1..] && t == [t[0]] + t[1..];
    }
  }

  lemma SameFirst(s: seq<string>, t: seq<string>, names: set<string>)
    requires IsListing(s, names) && IsListing(t, names) && s != [] && t != []
    ensures s[0] == t[0]
  {
    hide LexLess;
    assert s[0] in s && t[0] in t;
    var i :| 0 <= i < |s| && s[i] == t[0];
    var j :| 0 <= j < |t| && t[j] == s[0];
    if i > 0 && j > 0 {
      LexAsymmetric(s[0], s[i]);
    }
  }

  lemma ListingRest(s: seq<string>, names: set<string>)
    requires IsListing(s, names) && s != []
    ensures IsListing(s[1..], names - {s[0]})
  {
    hide LexLess;
    forall k | 0 < k < |s|
      ensures s[k] != s[0]
    {
      LexAsymmetric(s[0], s[k]);
    }
    forall n | n in names - {s[0]}
      ensures n in s[1..]
    {
      var k :| 0 <= k < |s| && s[k] == n;
      assert s[1..][k - 1] == n;
    }
    forall n | n in s[1..]
      ensures n in names - {s[0]}
    {
      assert n in s;
    }
  }

  /** What is written is determined by the text and the updates, although the code walks a map in any order. */
  lemma RenderIsDeterministic(existing: string, updates: map<string, int>, text: string, other: string)
    requires Renders(existing, updates, text) && Renders(existing, updates, other)
    ensures text == other
  {
    hide Match, Split, TrimRight, Join, LexLess, Names, Body, NewLines, Assignments;
    if updates != map[] {
      var m :| RendersWith(existing, updates, m, text);
      var n :| RendersWith(existing, updates, n, other);
      ListingIsUnique(m, n, updates.Keys - Names(Body(existing)));
    }
  }

  // ----- Byte for byte -----

  /** The text with nothing but the contents of updated lines replaced. */
  function InPlace(existing: string, updates: map<string, int>): string {
    Join(NewLines(Split(existing), updates))
  }

  /** Lines, each ended by a newline. */
  function Terminated(lines: seq<string>): string {
    if lines == [] then "" else Terminated(lines[..|lines| - 1]) + lines[|lines| - 1] + "\n"
  }

  /** Everything outside the replaced lines is kept byte for byte, and the missing lines come after it. */
  ghost predicate ByteForByte(existing: string, updates: map<string, int>, text: string) {
    exists missing :: IsListing(missing, updates.Keys - Names(Body(existing)))
                      && text == InPlace(existing, updates) + Terminated(Assignments(missing, updates))
  }

  predicate EndsInOneNewline(s: string) {
    TrimRight(s) + "\n" == s
  }

  lemma EndsInOneNewlineMeans(s: string)
    ensures EndsInOneNewline(s) <==> s != "" && s[|s| - 1] == '\n' && (|s| > 1 ==> s[|s| - 2] != '\n')
  {
    if s != "" && s[|s| - 1] == '\n' {
      var t := s[..|s| - 1];
      assert TrimRight(s) == TrimRight(t);
      assert t + "\n" == s;
    }
  }

  /** The newlines at the end stay where they are when only lines are replaced. */
  lemma {:induction false} InPlaceKeepsTail(existing: string, updates: map<string, int>)
    ensures TrimRight(existing) <= existing
    ensures InPlace(existing, updates) == InPlace(TrimRight(existing), updates) + existing[|TrimRight(existing)|..]
    decreases |existing|
  {
    hide Match, NewLine, Join;
    if existing != "" && existing[|existing| - 1] == '\n' {
      var s := existing[..|existing| - 1];
      InPlaceKeepsTail(s, updates);
      EmptyStays(updates);
      assert Split(existing) == Split(s) + [""];
      assert NewLines(Split(existing), updates) == NewLines(Split(s), updates) + [""];
      JoinAppend(NewLines(Split(s), updates), "");
      assert InPlace(existing, updates) == InPlace(s, updates) + "\n";
      var k := |TrimRight(existing)|;
      assert existing[k..] == s[k..] + "\n";
    } else {
      assert existing[|existing|..] == "";
    }
  }

  lemma EmptyStays(updates: map<string, int>)
    ensures NewLine("", updates) == ""
  {
    hide Match;
    EmptyLine();
  }

  lemma {:induction false} JoinTerminated(lines: seq<string>, more: seq<string>)
    requires |lines| + |more| > 0
    ensures Join(lines + more) + "\n" == (if lines == [] then "" else Join(lines) + "\n") + Terminated(more)
    decreases |more|
  {
    if more == [] {
      assert lines + more == lines;
    } else {
      var n := |more| - 1;
      var before := lines + more[..n];
      assert lines + more == before + [more[n]];
      if before == [] {
        assert Join([more[n]]) == more[n];
      } else {
        JoinTerminated(lines, more[..n]);
        JoinAppend(before, more[n]);
      }
    }
  }

  /** How a rendered text differs from the old one: the newlines at the end have become one. */
  lemma RenderedText(existing: string, updates: map<string, int>, missing: seq<string>, text: string)
    requires updates != map[] && RendersWith(existing, updates, missing, text)
    ensures var rest := Terminated(Assignments(missing, updates));
            && (existing == "" ==> text == rest && InPlace(existing, updates) == "")
            && (existing != "" ==>
                  && text == InPlace(TrimRight(existing), updates) + "\n" + rest
                  && InPlace(existing, updates) == InPlace(TrimRight(existing), updates) + existing[|TrimRight(existing)|..])
  {
    hide Match, Split, Join, Terminated, NewLine, Names, LexLess;
    var body := Body(existing);
    InPlaceKeepsTail(existing, updates);
    if existing == "" {
      MissingIsAll(updates, missing);
      EmptyInPlace(updates);
      JoinTerminated([], Assignments(missing, updates));
      assert NewLines([], updates) + Assignments(missing, updates) == [] + Assignments(missing, updates);
    } else {
      JoinTerminated(NewLines(body, updates), Assignments(missing, updates));
    }
  }

  lemma MissingIsAll(updates: map<string, int>, missing: seq<string>)
    requires updates != map[] && IsListing(missing, updates.Keys - Names([]))
    ensures missing != []
  {
    hide LexLess;
    NoNames();
    var n :| n in updates;
    assert n in updates.Keys - Names([]);
  }

  lemma EmptyInPlace(updates: map<string, int>)
    ensures InPlace("", updates) == ""
  {
    EmptyStays(updates);
    assert NewLines([""], updates) == [""];
  }

  /**
   * Everything outside the replaced and appended lines is kept byte for byte exactly when the old text is empty
   * or ends in exactly one newline.
   */
  lemma ByteForByteExactly(existing: string, updates: map<string, int>, text: string)
    requires updates != map[] && Renders(existing, updates, text)
    ensures ByteForByte(existing, updates, text) <==> existing == "" || EndsInOneNewline(existing)
  {
    hide Match, Split, TrimRight, Join, LexLess, Names, Body, NewLines, Assignments, InPlace, Terminated;
    var missing :| RendersWith(existing, updates, missing, text);
    var rest := Terminated(Assignments(missing, updates));
    RenderedText(existing, updates, missing, text);
    var kept := InPlace(TrimRight(existing), updates);
    InPlaceKeepsTail(existing, updates);
    var tail := existing[|TrimRight(existing)|..];
    assert existing == TrimRight(existing) + tail;
    if ByteForByte(existing, updates, text) && existing != "" {
      var m :| IsListing(m, updates.Keys - Names(Body(existing)))
               && text == InPlace(existing, updates) + Terminated(Assignments(m, updates));
      ListingIsUnique(m, missing, updates.Keys - Names(Body(existing)));
      assert kept + tail + rest == kept + "\n" + rest;
      assert |tail| == 1;
      assert (kept + tail + rest)[|kept|] == tail[0] && (kept + "\n" + rest)[|kept|] == '\n';
      assert tail == "\n";
    }
    if EndsInOneNewline(existing) {
      assert tail == "\n";
    }
  }

  lemma BodyWithTwoNewlines(line: string)
    requires OneLine(line) && line != ""
    ensures Body(line + "\n\n") == [line] && !EndsInOneNewline(line + "\n\n")
  {
    hide Split;
    var s := line + "\n\n";
    assert s[..|s| - 1] == line + "\n" && (line + "\n")[..|line|] == line;
    assert line[|line| - 1] in line;
    assert TrimRight(line + "\n") == TrimRight(line) == line;
    assert TrimRight(s) == line;
    SplitOneLine(line);
  }

  lemma NamesOfOne(line: string)
    requires Match(line).Some?
    ensures Names([line]) == {Match(line).value.name}
  {
    hide Match;
    SeenNames([line], 0);
    NoNames();
    assert [line][..0] == [] && [line][..1] == [line];
  }

  /** Inputs that show it: after a line to replace, the second of two newlines at the end is lost. */
  lemma SecondNewlineIsLost(name: string, before: nat, after: nat)
    requires IsPortName(name)
    ensures Renders(Line(name, before) + "\n\n", map[name := after], Line(name, after) + "\n")
    ensures !ByteForByte(Line(name, before) + "\n\n", map[name := after], Line(name, after) + "\n")
  {
    hide Match, IsPortName, Body, Names, ByteForByte, EndsInOneNewline, Line;
    var existing, updates, text := Line(name, before) + "\n\n", map[name := after], Line(name, after) + "\n";
    RenderedLineMatches(name, before);
    BodyWithTwoNewlines(Line(name, before));
    NamesOfOne(Line(name, before));
    assert NewLine(Line(name, before), updates) == Line(name, after);
    assert NewLines(Body(existing), updates) + Assignments([], updates) == [Line(name, after)];
    assert updates.Keys - Names(Body(existing)) == {};
    assert RendersWith(existing, updates, [], text);
    ByteForByteExactly(existing, updates, text);
  }
}

/** Text and its lines, as Go's strings.Split, Join and TrimRight see them with a newline. */
module Lines {
  predicate OneLine(s: string) {
    '\n' !in s
  }

  predicate AllOneLine(lines: seq<string>) {
    forall i :: 0 <= i < |lines| ==> OneLine(lines[i])
  }

  /** Never empty; a trailing newline makes a last empty line. */
  function Split(s: string): (lines: seq<string>)
    ensures |lines| > 0 && AllOneLine(lines)
  {
    if s == "" then [""]
    else
      var before := Split(s[..|s| - 1]);
      var n := |before| - 1;
      if s[|s| - 1] == '\n' then before + [""] else before[..n] + [before[n] + [s[|s| - 1]]]
  }

  function Join(lines: seq<string>): string {
    if |lines| == 0 then ""
    else if |lines| == 1 then lines[0]
    else Join(lines[..|lines| - 1]) + "\n" + lines[|lines| - 1]
  }

  /** Without its trailing newlines. */
  function TrimRight(s: string): (r: string)
    ensures r == "" || r[|r| - 1] != '\n'
    ensures r <= s
  {
    if s == "" || s[|s| - 1] != '\n' then s else TrimRight(s[..|s| - 1])
  }

  lemma {:induction false} SplitAppend(s: string, t: string)
    requires OneLine(t)
    ensures Split(s + "\n" + t) == Split(s) + [t]
    decreases |t|
  {
    if t == "" {
      assert (s + "\n" + t)[..|s|] == s;
    } else {
      var n := |t| - 1;
      SplitAppend(s, t[..n]);
      assert (s + "\n" + t)[..|s| + 1 + n] == s + "\n" + t[..n];
      assert t[..n] + [t[n]] == t;
    }
  }

  lemma {:induction false} SplitOneLine(t: string)
    requires OneLine(t)
    ensures Split(t) == [t]
    decreases |t|
  {
    if t != "" {
      var n := |t| - 1;
      SplitOneLine(t[..n]);
      assert t[..n] + [t[n]] == t;
    }
  }

  /** Joining lines and splitting again gives them back. */
  lemma {:induction false} SplitJoin(lines: seq<string>)
    requires |lines| > 0 && AllOneLine(lines)
    ensures Split(Join(lines)) == lines
    decreases |lines|
  {
    var n := |lines| - 1;
    if n == 0 {
      SplitOneLine(lines[0]);
    } else {
      SplitJoin(lines[..n]);
      SplitAppend(Join(lines[..n]), lines[n]);
    }
  }

  lemma JoinAppend(lines: seq<string>, t: string)
    requires |lines| > 0
    ensures Join(lines + [t]) == Join(lines) + "\n" + t
  {
    assert (lines + [t])[..|lines|] == lines;
  }

  /** And the other way round. */
  lemma {:induction false} JoinSplit(s: string)
    ensures Join(Split(s)) == s
    decreases |s|
  {
    if s != "" {
      var n := |s| - 1;
      JoinSplit(s[..n]);
      var before := Split(s[..n]);
      var m := |before| - 1;
      assert s[..n] + [s[n]] == s;
      if s[n] == '\n' {
        JoinAppend(before, "");
      } else if m > 0 {
        assert before[..m] + [before[m]] == before;
        JoinAppend(before[..m], before[m]);
        JoinAppend(before[..m], before[m] + [s[n]]);
      }
    }
  }

  /** Trimming takes away nothing but empty lines at the end. */
  lemma {:induction false} SplitTrimmed(s: string)
    ensures var kept := Split(TrimRight(s));
            && kept <= Split(s)
            && forall i :: |kept| <= i < |Split(s)| ==> Split(s)[i] == ""
    decreases |s|
  {
    if s != "" && s[|s| - 1] == '\n' {
      SplitTrimmed(s[..|s| - 1]);
    }
  }

  /** After trimming the last line is not empty, unless nothing is left. */
  lemma LastLine(s: string)
    requires TrimRight(s) != ""
    ensures var kept := Split(TrimRight(s)); kept[|kept| - 1] != ""
  {
  }

  lemma JoinEnds(lines: seq<string>)
    requires |lines| > 0 && lines[|lines| - 1] != ""
    ensures var s, last := Join(lines), lines[|lines| - 1]; s != "" && s[|s| - 1] == last[|last| - 1]
  {
  }

  /** Text that ends in one newline after a non-empty line. */
  lemma TrimTerminated(lines: seq<string>)
    requires |lines| > 0 && AllOneLine(lines) && lines[|lines| - 1] != ""
    ensures TrimRight(Join(lines) + "\n") == Join(lines)
  {
    hide Join;
    var s := Join(lines);
    var last := lines[|lines| - 1];
    JoinEnds(lines);
    assert last[|last| - 1] in last;
    assert (s + "\n")[..|s|] == s;
  }
}

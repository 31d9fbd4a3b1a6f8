/** One run of the port tool from template and .env to .env (tools/ports), and why a second run finds nothing to do. */
module PortsFixedPoint {
  import opened Wrappers
  import opened Lines
  import opened DotEnv
  import opened Ports
  import opened Render

  datatype RunError =
    | BadTemplate(error: ParseError)
    | NoSpecs
    | SetInEnvironment(name: string)
    | BadEnv(error: ParseError)
    | NoPorts(cause: PortsError)

  /** What the machine looks like during a run; environment holds the variables set in the process environment. */
  datatype Machine = Machine(environment: set<string>, ours: set<int>, probe: int -> Probe, limit: int)

  /** What .env holds after a run, how many ports were swapped, and the exit code. */
  datatype Report = Report(env: string, conflicts: nat, code: int)

  function SelectionOf(overrides: map<string, int>, m: Machine): Selection {
    Selection(overrides, m.ours, m.probe, m.limit)
  }

  function Conflicts(choices: seq<Choice>): nat {
    if choices == [] then 0
    else Conflicts(choices[..|choices| - 1]) + if Changed(choices[|choices| - 1]) then 1 else 0
  }

  predicate AnyChanged(choices: seq<Choice>) {
    exists i :: 0 <= i < |choices| && Changed(choices[i])
  }

  lemma {:induction false} ConflictsCount(choices: seq<Choice>)
    ensures Conflicts(choices) > 0 <==> AnyChanged(choices)
    decreases |choices|
  {
    if choices != [] {
      var n := |choices| - 1;
      ConflictsCount(choices[..n]);
      if AnyChanged(choices[..n]) {
        var i :| 0 <= i < n && Changed(choices[..n][i]);
        assert Changed(choices[i]);
      }
      if AnyChanged(choices) && !Changed(choices[n]) {
        var i :| 0 <= i < |choices| && Changed(choices[i]);
        assert Changed(choices[..n][i]);
      }
    }
  }

  /** The number of conflicts is the number of choices that were swapped. */
  lemma {:induction false} ConflictsAreSwaps(choices: seq<Choice>)
    ensures Conflicts(choices) == |set i | 0 <= i < |choices| && Changed(choices[i])|
    decreases |choices|
  {
    if choices != [] {
      var n := |choices| - 1;
      ConflictsAreSwaps(choices[..n]);
      var before := set i | 0 <= i < n && Changed(choices[..n][i]);
      var all := set i | 0 <= i < |choices| && Changed(choices[i]);
      assert all == before + if Changed(choices[n]) then {n} else {};
    }
  }

  /** The first write starts from the template. */
  function Base(template: string, env: string): string {
    if env == "" then template else env
  }

  /** Only a run that is not a check writes, and only if a port was swapped. */
  ghost predicate Writes(template: string, env: string, check: bool, choices: seq<Choice>, report: Report) {
    && report.conflicts == Conflicts(choices)
    && report.code == (if check && AnyChanged(choices) then 1 else 0)
    && if AnyChanged(choices) && !check then Renders(Base(template, env), Updates(choices), report.env)
       else report.env == env
  }

  /** The template is usable, and none of its first n variables is set in the environment. */
  ghost predicate Usable(template: string, m: Machine, n: nat) {
    && SpecsFit(Split(template)) && Specs(Split(template)) != []
    && n <= |Specs(Split(template))|
    && forall i :: 0 <= i < n ==> Specs(Split(template))[i].name !in m.environment
  }

  ghost predicate AllUsable(template: string, m: Machine) {
    Usable(template, m, |Specs(Split(template))|)
  }

  ghost predicate Settles(template: string, env: string, m: Machine, check: bool, report: Report) {
    && AllUsable(template, m) && Overrides(Split(env)).Ok?
    && exists choices ::
         && Chooses(Specs(Split(template)), SelectionOf(Overrides(Split(env)).value, m), Ok(choices))
         && Writes(template, env, check, choices, report)
  }

  ghost predicate RunGives(template: string, env: string, m: Machine, check: bool, r: Result<Report, RunError>) {
    match r
    case Ok(report) => Settles(template, env, m, check, report)
    case Err(BadTemplate(_)) => !SpecsFit(Split(template))
    case Err(NoSpecs) => SpecsFit(Split(template)) && Specs(Split(template)) == []
    case Err(SetInEnvironment(name)) =>
      exists i :: 0 <= i < |Specs(Split(template))| && Usable(template, m, i)
                  && Specs(Split(template))[i].name == name && name in m.environment
    case Err(BadEnv(_)) => AllUsable(template, m) && Overrides(Split(env)).Err?
    case Err(NoPorts(e)) =>
      AllUsable(template, m) && Overrides(Split(env)).Ok?
      && Chooses(Specs(Split(template)), SelectionOf(Overrides(Split(env)).value, m), Err(e))
  }

  method Update(template: string, env: string, m: Machine, check: bool) returns (r: Result<Report, RunError>)
    ensures RunGives(template, env, m, check, r)
  {
    hide Split, Specs, SpecsFit, Overrides, Chooses, Updates, Renders;
    var specs := ParseSpecs(Split(template));
    if specs.Err? {
      return Err(BadTemplate(specs.error));
    }
    if specs.value == [] {
      return Err(NoSpecs);
    }
    for i := 0 to |specs.value|
      invariant Usable(template, m, i)
    {
      if specs.value[i].name in m.environment {
        return Err(SetInEnvironment(specs.value[i].name));
      }
    }
    var overrides := ParseOverrides(Split(env));
    if overrides.Err? {
      return Err(BadEnv(overrides.error));
    }
    var result := Choose(specs.value, SelectionOf(overrides.value, m));
    if result.Err? {
      return Err(NoPorts(result.error));
    }
    var choices := result.value;
    var conflicts := 0;
    for i := 0 to |choices|
      invariant conflicts == Conflicts(choices[..i])
    {
      assert choices[..i + 1][..i] == choices[..i];
      if Changed(choices[i]) {
        conflicts := conflicts + 1;
      }
    }
    assert choices[..|choices|] == choices;
    ConflictsCount(choices);
    var report := Report(env, conflicts, if check && conflicts > 0 then 1 else 0);
    if !check && conflicts > 0 {
      var text := RenderEnv(Base(template, env), choices);
      report := report.(env := text);
    }
    assert Writes(template, env, check, choices, report);
    return Ok(report);
  }

  // ----- What the updates are -----

  predicate DistinctChoices(choices: seq<Choice>) {
    forall i, j :: 0 <= i < j < |choices| ==> choices[i].name != choices[j].name
  }

  /** Exactly the changed choices, each with its chosen port. */
  lemma {:induction false} UpdatesMean(choices: seq<Choice>)
    requires DistinctChoices(choices)
    ensures forall i :: 0 <= i < |choices| ==>
              && (choices[i].name in Updates(choices) <==> Changed(choices[i]))
              && (Changed(choices[i]) ==> Updates(choices)[choices[i].name] == choices[i].chosen)
    ensures forall n :: n in Updates(choices) ==> exists i :: 0 <= i < |choices| && choices[i].name == n
    decreases |choices|
  {
    if choices != [] {
      var k := |choices| - 1;
      UpdatesMean(choices[..k]);
      assert forall i :: 0 <= i < k ==> choices[..k][i] == choices[i];
      forall n | n in Updates(choices)
        ensures exists i :: 0 <= i < |choices| && choices[i].name == n
      {
        if n in Updates(choices[..k]) {
          var i :| 0 <= i < k && choices[..k][i].name == n;
          assert choices[i].name == n;
        } else {
          assert choices[k].name == n;
        }
      }
    }
  }

  lemma SpecNames(lines: seq<string>, i: nat)
    requires i < |Specs(lines)|
    ensures IsPortName(Specs(lines)[i].name)
  {
    SpecsMean(lines);
    hide Match, Specs;
    assert Introduced(lines, Specs(lines)[i]);
    var k :| Introduces(lines, k) && Match(lines[k]).value.name == Specs(lines)[i].name
             && Match(lines[k]).value.port == Specs(lines)[i].default;
    var l := MatchSound(lines[k]);
  }

  lemma SpecsAreDistinct(lines: seq<string>)
    ensures DistinctNames(Specs(lines))
  {
    SpecsMean(lines);
  }

  lemma ChosenUpdatesAreValid(lines: seq<string>, sel: Selection, choices: seq<Choice>)
    requires Chooses(Specs(lines), sel, Ok(choices))
    ensures ValidUpdates(Updates(choices))
    ensures |choices| == |Specs(lines)| && DistinctChoices(choices)
  {
    hide Chooses, Specs, Updates, IsPortName, LeastAbove;
    SpecsAreDistinct(lines);
    ChoicesAreSound(Specs(lines), sel, choices);
    forall i | 0 <= i < |choices|
      ensures choices[i].name == Specs(lines)[i].name && InRange(choices[i].chosen) && IsPortName(choices[i].name)
    {
      assert ChoiceIsSound(Specs(lines), sel, choices, i);
      SpecNames(lines, i);
    }
    UpdatesMean(choices);
  }

  // ----- After one run -----

  /** Starting from this text means the same to every spec as having no .env at all. */
  ghost predicate Neutral(template: string) {
    && Overrides(Split(template)).Ok?
    && forall i :: 0 <= i < |Specs(Split(template))| ==>
         Want(Specs(Split(template))[i], Overrides(Split(template)).value) == Specs(Split(template))[i].default
  }

  /** A template whose assignments are all commented out. */
  predicate OnlyCommented(lines: seq<string>) {
    forall i :: 0 <= i < |lines| && Match(lines[i]).Some? ==> Match(lines[i]).value.commented
  }

  lemma {:induction false} CommentedSetsNothing(lines: seq<string>)
    requires OnlyCommented(lines)
    ensures Overrides(lines) == Ok(map[])
    decreases |lines|
  {
    hide Match;
    if lines != [] {
      assert forall i :: 0 <= i < |lines| - 1 ==> lines[..|lines| - 1][i] == lines[i];
      CommentedSetsNothing(lines[..|lines| - 1]);
    }
  }

  lemma CommentedIsNeutral(template: string)
    requires OnlyCommented(Split(template))
    ensures Neutral(template)
  {
    hide Match, Split, Specs, Overrides;
    CommentedSetsNothing(Split(template));
  }

  lemma BaseWants(template: string, env: string, i: nat)
    requires Overrides(Split(env)).Ok? && i < |Specs(Split(template))| && (env == "" ==> Neutral(template))
    ensures Overrides(Split(Base(template, env))).Ok?
    ensures Want(Specs(Split(template))[i], Overrides(Split(Base(template, env))).value) ==
            Want(Specs(Split(template))[i], Overrides(Split(env)).value)
  {
    hide Specs, Match;
    if env == "" {
      assert Split(env) == [""];
      EmptyLine();
      assert Overrides([""][..0]) == Ok(map[]);
      assert Overrides(Split(env)) == Ok(map[]);
    }
  }

  /** Read back, the file wants for each spec the port that was chosen. */
  lemma WantsAreChosen(template: string, env: string, m: Machine, choices: seq<Choice>, report: Report)
    requires SpecsFit(Split(template)) && Overrides(Split(env)).Ok? && (env == "" ==> Neutral(template))
    requires Chooses(Specs(Split(template)), SelectionOf(Overrides(Split(env)).value, m), Ok(choices))
    requires Writes(template, env, false, choices, report)
    ensures Overrides(Split(report.env)).Ok? && |choices| == |Specs(Split(template))|
    ensures forall i :: 0 <= i < |choices| ==>
              Want(Specs(Split(template))[i], Overrides(Split(report.env)).value) == choices[i].chosen
  {
    hide Split, Specs, Overrides, Chooses, Renders, Updates, Neutral, LeastAbove, IsPortName, SpecsFit, Conflicts;
    var specs := Specs(Split(template));
    var sel := SelectionOf(Overrides(Split(env)).value, m);
    SpecsAreDistinct(Split(template));
    ChoicesAreSound(specs, sel, choices);
    ChosenUpdatesAreValid(Split(template), sel, choices);
    UpdatesMean(choices);
    if AnyChanged(choices) {
      var k :| 0 <= k < |choices| && Changed(choices[k]);
      BaseWants(template, env, k);
      RenderThenParse(Base(template, env), Updates(choices), report.env);
    }
    forall i | 0 <= i < |choices|
      ensures Want(specs[i], Overrides(Split(report.env)).value) == choices[i].chosen
    {
      assert ChoiceIsSound(specs, sel, choices, i);
      BaseWants(template, env, i);
    }
  }

  /** On this machine every port the file asks for is free or already this project's. */
  ghost predicate Available(template: string, env: string, m: Machine) {
    && Overrides(Split(env)).Ok?
    && forall i :: 0 <= i < |Specs(Split(template))| ==>
         IsAvailable(Want(Specs(Split(template))[i], Overrides(Split(env)).value), m)
  }

  predicate IsAvailable(port: int, m: Machine) {
    port in m.ours || m.probe(port).Free?
  }

  /** Good wishes that are all available are granted. */
  lemma AvailableIsKept(specs: seq<PortSpec>, overrides: map<string, int>, m: Machine, r: Result<seq<Choice>, PortsError>)
    requires DistinctNames(specs) && GoodUpTo(specs, overrides, |specs|)
    requires forall i :: 0 <= i < |specs| ==> IsAvailable(Want(specs[i], overrides), m)
    requires Chooses(specs, SelectionOf(overrides, m), r)
    ensures r.Ok? && !AnyChanged(r.value)
  {
    hide Desired, AreChoices, LeastAbove, ProbeStops, NothingFree, DistinctNames;
    forall i | 0 <= i < |specs|
      ensures Desired(specs, overrides)[specs[i].name] == Want(specs[i], overrides)
    {
      DesiredIsWant(specs, overrides, i);
    }
    if r.Ok? {
      ChoicesAreSound(specs, SelectionOf(overrides, m), r.value);
      forall i | 0 <= i < |specs|
        ensures !Changed(r.value[i])
      {
        assert ChoiceIsSound(specs, SelectionOf(overrides, m), r.value, i);
      }
    }
  }

  /**
   * One run is enough: run or check again on any machine where each port the file now asks for is free or ours,
   * and it succeeds, finds no conflict and leaves the file alone, passing the range and duplicate checks on the
   * way.
   */
  lemma OneRunIsEnough(template: string, env: string, m: Machine, report: Report, m': Machine, check: bool,
                       r: Result<Report, RunError>)
    requires env == "" ==> Neutral(template)
    requires RunGives(template, env, m, false, Ok(report))
    requires AllUsable(template, m') && Available(template, report.env, m')
    requires RunGives(template, report.env, m', check, r)
    ensures r == Ok(Report(report.env, 0, 0))
    ensures forall choices ::
              Chooses(Specs(Split(template)), SelectionOf(Overrides(Split(report.env)).value, m'), Ok(choices)) ==>
                !AnyChanged(choices)
  {
    hide Split, Specs, Overrides, Chooses, Renders, Updates, Neutral, LeastAbove, SpecsFit, IsAvailable, Writes, DistinctNames;
    var specs := Specs(Split(template));
    var sel := SelectionOf(Overrides(Split(env)).value, m);
    var choices :| Chooses(specs, sel, Ok(choices)) && Writes(template, env, false, choices, report);
    WantsAreChosen(template, env, m, choices, report);
    SpecsAreDistinct(Split(template));
    ChosenIsGood(specs, sel, choices, Overrides(Split(report.env)).value);
    forall result | Chooses(specs, SelectionOf(Overrides(Split(report.env)).value, m'), result)
      ensures result.Ok? && !AnyChanged(result.value)
    {
      AvailableIsKept(specs, Overrides(Split(report.env)).value, m', result);
    }
    UnchangedIsUnwritten(template, report.env, m', check, r);
  }

  lemma ChosenIsGood(specs: seq<PortSpec>, sel: Selection, choices: seq<Choice>, overrides: map<string, int>)
    requires DistinctNames(specs) && Chooses(specs, sel, Ok(choices)) && |choices| == |specs|
    requires forall i :: 0 <= i < |specs| ==> Want(specs[i], overrides) == choices[i].chosen
    ensures GoodUpTo(specs, overrides, |specs|)
  {
    hide Chooses, LeastAbove, DistinctNames, Want;
    ChoicesAreSound(specs, sel, choices);
    forall i | 0 <= i < |specs|
      ensures InRange(Want(specs[i], overrides))
    {
      assert ChoiceIsSound(specs, sel, choices, i);
    }
    forall i, j | 0 <= i < j < |specs|
      ensures Want(specs[i], overrides) != Want(specs[j], overrides)
    {
      assert choices[i].chosen != choices[j].chosen;
    }
  }

  /**
   * Whatever wrote the file: if all its ports are available, a run or a check finds nothing to do exactly when
   * the file asks for different ports in range and no port variable is set in the environment.
   */
  lemma AvailableFileIsKept(template: string, env: string, m: Machine, check: bool, r: Result<Report, RunError>)
    requires SpecsFit(Split(template)) && Specs(Split(template)) != [] && Available(template, env, m)
    requires RunGives(template, env, m, check, r)
    ensures r == Ok(Report(env, 0, 0)) <==>
            && AllUsable(template, m)
            && GoodUpTo(Specs(Split(template)), Overrides(Split(env)).value, |Specs(Split(template))|)
  {
    hide Split, Specs, Overrides, Renders, SpecsFit, IsAvailable, Writes, DistinctNames, AreChoices, GoodUpTo;
    var specs, overrides := Specs(Split(template)), Overrides(Split(env)).value;
    SpecsAreDistinct(Split(template));
    if GoodUpTo(specs, overrides, |specs|) && AllUsable(template, m) {
      forall result | Chooses(specs, SelectionOf(overrides, m), result)
        ensures result.Ok? && !AnyChanged(result.value)
      {
        AvailableIsKept(specs, overrides, m, result);
      }
      UnchangedIsUnwritten(template, env, m, check, r);
    }
  }

  lemma UnchangedIsUnwritten(template: string, env: string, m: Machine, check: bool, r: Result<Report, RunError>)
    requires AllUsable(template, m) && Overrides(Split(env)).Ok?
    requires RunGives(template, env, m, check, r)
    requires forall result ::
               Chooses(Specs(Split(template)), SelectionOf(Overrides(Split(env)).value, m), result) ==>
                 result.Ok? && !AnyChanged(result.value)
    ensures r == Ok(Report(env, 0, 0))
  {
    hide Split, Specs, Overrides, Chooses, Renders, SpecsFit, AnyChanged;
    forall choices: seq<Choice> | !AnyChanged(choices)
      ensures Conflicts(choices) == 0
    {
      ConflictsCount(choices);
    }
  }

  /**
   * The first write explains itself: every line of the template is in the new file, in its place, as it is or with
   * the port that was chosen for its variable.
   */
  lemma FirstWriteKeepsTemplate(template: string, m: Machine, report: Report)
    requires RunGives(template, "", m, false, Ok(report)) && report.conflicts > 0
    ensures exists choices ::
              && Chooses(Specs(Split(template)), SelectionOf(Overrides(Split("")).value, m), Ok(choices))
              && |Body(template)| < |Split(report.env)|
              && forall i :: 0 <= i < |Body(template)| ==>
                   LineKept(Body(template)[i], Split(report.env)[i], Updates(choices))
  {
    hide Split, Specs, Overrides, Chooses, Renders, Updates, LineKept, Body, SpecsFit, ValidUpdates;
    var choices :| Chooses(Specs(Split(template)), SelectionOf(Overrides(Split("")).value, m), Ok(choices))
                   && Writes(template, "", false, choices, report);
    ConflictsCount(choices);
    ChosenUpdatesAreValid(Split(template), SelectionOf(Overrides(Split("")).value, m), choices);
    UpdatesMean(choices);
    RenderKeepsLines(template, Updates(choices), report.env);
  }
}

/** Choosing host ports: desiredPorts, nextFree and Choose of tools/ports/ports.go. */
module Ports {
  import opened Wrappers
  import opened DotEnv

  const MAX_PORT := 65535

  datatype Reason = ReasonFree | ReasonOurs | ReasonTaken

  datatype Choice = Choice(name: string, desired: int, chosen: int, reason: Reason)

  predicate Changed(c: Choice) {
    c.chosen != c.desired
  }

  /** What the probe of a port says. */
  datatype Probe = Free | Taken | ProbeError

  /** Everything besides the specs: .env values, ports this project publishes, the probe, the search limit. */
  datatype Selection = Selection(overrides: map<string, int>, ours: set<int>, probe: int -> Probe, limit: int)

  datatype PortsError =
    | OutOfRange(name: string, port: int)
    | Duplicate(other: string, name: string, port: int)
    | ProbeFailed(name: string)
    | NoneFree(name: string)

  // ----- Desired ports -----

  function Want(s: PortSpec, overrides: map<string, int>): int {
    if s.name in overrides then overrides[s.name] else s.default
  }

  predicate InRange(port: int) {
    1 <= port <= MAX_PORT
  }

  /** The first n specs want different ports, all in range. */
  predicate GoodUpTo(specs: seq<PortSpec>, overrides: map<string, int>, n: int)
    requires 0 <= n <= |specs|
  {
    && (forall i :: 0 <= i < n ==> InRange(Want(specs[i], overrides)))
    && (forall i, j :: 0 <= i < j < n ==> Want(specs[i], overrides) != Want(specs[j], overrides))
  }

  predicate DistinctNames(specs: seq<PortSpec>) {
    forall i, j :: 0 <= i < j < |specs| ==> specs[i].name != specs[j].name
  }

  /** The map from names to ports, built in order. */
  function Desired(specs: seq<PortSpec>, overrides: map<string, int>): (m: map<string, int>)
    ensures forall i :: 0 <= i < |specs| ==> specs[i].name in m
    ensures forall name :: name in m ==> exists i :: 0 <= i < |specs| && specs[i].name == name
  {
    if specs == [] then map[]
    else
      var s := specs[|specs| - 1];
      Desired(specs[..|specs| - 1], overrides)[s.name := Want(s, overrides)]
  }

  /** With distinct names each spec gets what it wants. */
  lemma {:induction false} DesiredIsWant(specs: seq<PortSpec>, overrides: map<string, int>, i: nat)
    requires DistinctNames(specs) && i < |specs|
    ensures Desired(specs, overrides)[specs[i].name] == Want(specs[i], overrides)
    decreases |specs|
  {
    if i < |specs| - 1 {
      DesiredIsWant(specs[..|specs| - 1], overrides, i);
    }
  }

  /** e is what is wrong with spec i, the first that is wrong. */
  ghost predicate FailsAt(specs: seq<PortSpec>, overrides: map<string, int>, i: int, e: PortsError) {
    && 0 <= i < |specs| && GoodUpTo(specs, overrides, i)
    && var want := Want(specs[i], overrides);
    && (|| (e == OutOfRange(specs[i].name, want) && !InRange(want))
        || exists j :: 0 <= j < i && Want(specs[j], overrides) == want && InRange(want)
                       && e == Duplicate(specs[j].name, specs[i].name, want))
  }

  /** owner records, for each port wanted by the first n specs, who wants it. */
  ghost predicate Owners(specs: seq<PortSpec>, overrides: map<string, int>, n: int, owner: map<int, string>)
    requires 0 <= n <= |specs|
  {
    && (forall i :: 0 <= i < n ==> Want(specs[i], overrides) in owner)
    && (forall p :: p in owner ==>
          exists i :: 0 <= i < n && Want(specs[i], overrides) == p && specs[i].name == owner[p])
  }

  lemma OneMoreOwner(specs: seq<PortSpec>, overrides: map<string, int>, n: int, owner: map<int, string>)
    requires 0 <= n < |specs| && Owners(specs, overrides, n, owner) && GoodUpTo(specs, overrides, n)
    ensures var want := Want(specs[n], overrides);
            && (!InRange(want) ==> FailsAt(specs, overrides, n, OutOfRange(specs[n].name, want)))
            && (InRange(want) && want in owner ==>
                  FailsAt(specs, overrides, n, Duplicate(owner[want], specs[n].name, want)))
            && (InRange(want) && want !in owner ==>
                  Owners(specs, overrides, n + 1, owner[want := specs[n].name]) && GoodUpTo(specs, overrides, n + 1))
            && (GoodUpTo(specs, overrides, |specs|) ==> InRange(want) && want !in owner)
    ensures Desired(specs[..n + 1], overrides) ==
            Desired(specs[..n], overrides)[specs[n].name := Want(specs[n], overrides)]
  {
    assert specs[..n + 1][..n] == specs[..n];
    hide Desired, Want, InRange;
    var want := Want(specs[n], overrides);
    if want in owner {
      var i :| 0 <= i < n && Want(specs[i], overrides) == want && specs[i].name == owner[want];
    } else {
      AddOwner(specs, overrides, n, owner);
    }
  }

  lemma AddOwner(specs: seq<PortSpec>, overrides: map<string, int>, n: int, owner: map<int, string>)
    requires 0 <= n < |specs| && Owners(specs, overrides, n, owner)
    ensures Owners(specs, overrides, n + 1, owner[Want(specs[n], overrides) := specs[n].name])
  {
    hide Want;
    var owner' := owner[Want(specs[n], overrides) := specs[n].name];
    forall p | p in owner'
      ensures exists i :: 0 <= i < n + 1 && Want(specs[i], overrides) == p && specs[i].name == owner'[p]
    {
      if p == Want(specs[n], overrides) {
        assert specs[n].name == owner'[p];
      } else {
        var i :| 0 <= i < n && Want(specs[i], overrides) == p && specs[i].name == owner[p];
      }
    }
  }

  method DesiredPorts(specs: seq<PortSpec>, overrides: map<string, int>) returns (r: Result<map<string, int>, PortsError>)
    ensures r.Ok? <==> GoodUpTo(specs, overrides, |specs|)
    ensures r.Ok? ==> r.value == Desired(specs, overrides)
    ensures r.Err? ==> exists i :: FailsAt(specs, overrides, i, r.error)
  {
    hide GoodUpTo, FailsAt, Owners;
    var desired: map<string, int> := map[];
    var owner: map<int, string> := map[];
    NoOwner(specs, overrides);
    for i := 0 to |specs|
      invariant GoodUpTo(specs, overrides, i) && Owners(specs, overrides, i, owner)
      invariant desired == Desired(specs[..i], overrides)
    {
      OneMoreOwner(specs, overrides, i, owner);
      var s := specs[i];
      var want := s.default;
      if s.name in overrides {
        want := overrides[s.name];
      }
      if want < 1 || want > MAX_PORT {
        return Err(OutOfRange(s.name, want));
      }
      if want in owner {
        return Err(Duplicate(owner[want], s.name, want));
      }
      owner := owner[want := s.name];
      desired := desired[s.name := want];
    }
    assert specs[..|specs|] == specs;
    return Ok(desired);
  }

  lemma NoOwner(specs: seq<PortSpec>, overrides: map<string, int>)
    ensures Owners(specs, overrides, 0, map[]) && GoodUpTo(specs, overrides, 0)
  {
  }

  // ----- The search above a taken port -----

  predicate Searched(start: int, limit: int, port: int) {
    start < port <= start + limit && port <= MAX_PORT
  }

  predicate Passed(reserved: set<int>, sel: Selection, port: int) {
    port in reserved || sel.probe(port).Taken?
  }

  predicate AllPassed(start: int, reserved: set<int>, sel: Selection, end: int) {
    forall q :: start < q < end ==> Passed(reserved, sel, q)
  }

  /** port is the first in reach that is neither reserved nor taken. */
  predicate IsNextFree(start: int, reserved: set<int>, sel: Selection, port: int) {
    && Searched(start, sel.limit, port) && port !in reserved && sel.probe(port).Free?
    && AllPassed(start, reserved, sel, port)
  }

  /** The search reaches port, whose probe fails. */
  predicate ProbeStops(start: int, reserved: set<int>, sel: Selection, port: int) {
    && Searched(start, sel.limit, port) && port !in reserved && sel.probe(port).ProbeError?
    && AllPassed(start, reserved, sel, port)
  }

  ghost predicate NothingFree(start: int, reserved: set<int>, sel: Selection) {
    forall q {:trigger Passed(reserved, sel, q)} :: Searched(start, sel.limit, q) ==> Passed(reserved, sel, q)
  }

  method NextFree(name: string, start: int, reserved: set<int>, sel: Selection) returns (r: Result<int, PortsError>)
    ensures r.Ok? ==> IsNextFree(start, reserved, sel, r.value)
    ensures r.Err? ==> (r.error == ProbeFailed(name) && exists q :: ProbeStops(start, reserved, sel, q))
                       || (r.error == NoneFree(name) && NothingFree(start, reserved, sel))
  {
    var port := start + 1;
    while port <= start + sel.limit && port <= MAX_PORT
      invariant port > start && AllPassed(start, reserved, sel, port)
    {
      if port !in reserved {
        match sel.probe(port)
        case ProbeError =>
          assert ProbeStops(start, reserved, sel, port);
          return Err(ProbeFailed(name));
        case Free => return Ok(port);
        case Taken =>
      }
      port := port + 1;
    }
    return Err(NoneFree(name));
  }

  // ----- Choosing -----

  /** What may not be given away when choices have been made: every desired port and every port given instead. */
  function Reserved(desired: map<string, int>, choices: seq<Choice>): set<int> {
    desired.Values + set c | c in choices && c.reason.ReasonTaken? :: c.chosen
  }

  /** c is the choice for a spec, after earlier ones. */
  predicate IsChoice(name: string, desired: map<string, int>, sel: Selection, earlier: seq<Choice>, c: Choice) {
    && c.name == name && name in desired && c.desired == desired[name]
    && match c.reason
       case ReasonOurs => c.desired in sel.ours && c.chosen == c.desired
       case ReasonFree => c.desired !in sel.ours && sel.probe(c.desired).Free? && c.chosen == c.desired
       case ReasonTaken =>
         c.desired !in sel.ours && sel.probe(c.desired).Taken? && IsNextFree(c.desired, Reserved(desired, earlier), sel, c.chosen)
  }

  /** The choices of the first specs. */
  predicate AreChoices(specs: seq<PortSpec>, desired: map<string, int>, sel: Selection, choices: seq<Choice>) {
    && |choices| <= |specs|
    && forall i :: 0 <= i < |choices| ==> IsChoice(specs[i].name, desired, sel, choices[..i], choices[i])
  }

  /** Nothing can be chosen for a spec, after earlier choices. */
  ghost predicate CannotChoose(name: string, desired: map<string, int>, sel: Selection, earlier: seq<Choice>, e: PortsError) {
    && name in desired && desired[name] !in sel.ours
    && var want := desired[name];
    && (|| (e == ProbeFailed(name) && sel.probe(want).ProbeError?)
        || (e == ProbeFailed(name) && sel.probe(want).Taken? && exists q :: ProbeStops(want, Reserved(desired, earlier), sel, q))
        || (e == NoneFree(name) && sel.probe(want).Taken? && NothingFree(want, Reserved(desired, earlier), sel)))
  }

  /** All that can come out of Choose: every choice, or the first thing that goes wrong and no choice at all. */
  ghost predicate Chooses(specs: seq<PortSpec>, sel: Selection, r: Result<seq<Choice>, PortsError>) {
    match r
    case Ok(choices) =>
      && GoodUpTo(specs, sel.overrides, |specs|)
      && |choices| == |specs| && AreChoices(specs, Desired(specs, sel.overrides), sel, choices)
    case Err(e) =>
      || (exists i :: FailsAt(specs, sel.overrides, i, e))
      || (&& GoodUpTo(specs, sel.overrides, |specs|)
          && exists earlier :: FailsAfter(specs, Desired(specs, sel.overrides), sel, earlier, e))
  }

  ghost predicate FailsAfter(specs: seq<PortSpec>, desired: map<string, int>, sel: Selection, earlier: seq<Choice>, e: PortsError) {
    && |earlier| < |specs| && AreChoices(specs, desired, sel, earlier)
    && CannotChoose(specs[|earlier|].name, desired, sel, earlier, e)
  }

  method Choose(specs: seq<PortSpec>, sel: Selection) returns (r: Result<seq<Choice>, PortsError>)
    ensures Chooses(specs, sel, r)
  {
    hide IsNextFree, ProbeStops, NothingFree, GoodUpTo, FailsAt;
    var wanted := DesiredPorts(specs, sel.overrides);
    if wanted.Err? {
      return Err(wanted.error);
    }
    var desired := wanted.value;
    var reserved := desired.Values;
    var choices: seq<Choice> := [];
    for i := 0 to |specs|
      invariant |choices| == i && AreChoices(specs, desired, sel, choices)
      invariant reserved == Reserved(desired, choices)
    {
      var s := specs[i];
      var want := desired[s.name];
      var choice: Choice;
      if want in sel.ours {
        choice := Choice(s.name, want, want, ReasonOurs);
      } else {
        var state := sel.probe(want);
        if state.ProbeError? {
          assert FailsAfter(specs, desired, sel, choices, ProbeFailed(s.name));
          return Err(ProbeFailed(s.name));
        }
        if state.Free? {
          choice := Choice(s.name, want, want, ReasonFree);
        } else {
          var alt := NextFree(s.name, want, reserved, sel);
          if alt.Err? {
            assert FailsAfter(specs, desired, sel, choices, alt.error);
            return Err(alt.error);
          }
          reserved := reserved + {alt.value};
          choice := Choice(s.name, want, alt.value, ReasonTaken);
        }
      }
      AddChoice(specs, desired, sel, choices, choice);
      choices := choices + [choice];
    }
    return Ok(choices);
  }

  lemma AddChoice(specs: seq<PortSpec>, desired: map<string, int>, sel: Selection, choices: seq<Choice>, c: Choice)
    requires |choices| < |specs| && AreChoices(specs, desired, sel, choices)
    requires IsChoice(specs[|choices|].name, desired, sel, choices, c)
    ensures AreChoices(specs, desired, sel, choices + [c])
    ensures Reserved(desired, choices + [c]) == Reserved(desired, choices) + if c.reason.ReasonTaken? then {c.chosen} else {}
  {
    hide IsChoice;
    assert forall i :: 0 <= i <= |choices| ==> (choices + [c])[..i] == choices[..i];
    assert choices[..|choices|] == choices;
    assert c in choices + [c];
  }

  // ----- What a successful choice is worth -----

  /** Every port between is desired by somebody, given to an earlier spec, or taken. */
  ghost predicate LeastAbove(specs: seq<PortSpec>, sel: Selection, choices: seq<Choice>, i: int)
    requires 0 <= i < |specs| == |choices|
  {
    && choices[i].desired < choices[i].chosen <= choices[i].desired + sel.limit
    && forall q :: choices[i].desired < q < choices[i].chosen ==>
         || sel.probe(q).Taken?
         || (exists j :: 0 <= j < |specs| && Want(specs[j], sel.overrides) == q)
         || (exists j :: 0 <= j < i && choices[j].chosen == q)
  }

  /** Name, wish and range are right; the port is ours or free; it differs from the wish only if that is taken. */
  ghost predicate ChoiceIsSound(specs: seq<PortSpec>, sel: Selection, choices: seq<Choice>, i: int)
    requires 0 <= i < |specs| == |choices|
  {
    var c := choices[i];
    && c.name == specs[i].name && c.desired == Want(specs[i], sel.overrides)
    && InRange(c.chosen)
    && ((c.chosen == c.desired && c.desired in sel.ours) || sel.probe(c.chosen).Free?)
    && (Changed(c) <==> c.desired !in sel.ours && sel.probe(c.desired).Taken?)
    && (c.reason == ReasonOurs <==> c.desired in sel.ours)
    && (c.reason == ReasonFree <==> c.desired !in sel.ours && sel.probe(c.desired).Free?)
    && (c.reason == ReasonTaken <==> Changed(c))
    && (Changed(c) ==> LeastAbove(specs, sel, choices, i))
  }

  /**
   * For distinct names: the chosen ports are valid and pairwise different, none is a port another spec wants,
   * and each port that was swapped is the least one above its desired port, within the limit, that was not
   * reserved and not taken.
   */
  lemma ChoicesAreSound(specs: seq<PortSpec>, sel: Selection, choices: seq<Choice>)
    requires DistinctNames(specs) && Chooses(specs, sel, Ok(choices))
    ensures |choices| == |specs|
    ensures forall i :: 0 <= i < |specs| ==> ChoiceIsSound(specs, sel, choices, i)
    ensures forall i, j :: 0 <= i < |specs| && 0 <= j < |specs| && i != j ==>
              && choices[i].chosen != choices[j].chosen
              && choices[i].chosen != Want(specs[j], sel.overrides)
  {
    hide GoodUpTo, Desired, AreChoices, DistinctNames, ChoiceIsSound;
    forall i | 0 <= i < |specs|
      ensures ChoiceIsSound(specs, sel, choices, i)
    {
      OneChoice(specs, sel, choices, i);
    }
    forall i, j | 0 <= i < |specs| && 0 <= j < |specs| && i != j
      ensures choices[i].chosen != choices[j].chosen && choices[i].chosen != Want(specs[j], sel.overrides)
    {
      ChosenApart(specs, sel, choices, i, j);
    }
  }

  /** Exactly the wanted ports are reserved from the start. */
  lemma WantedIsReserved(specs: seq<PortSpec>, overrides: map<string, int>, earlier: seq<Choice>, port: int)
    requires DistinctNames(specs)
    ensures port in Reserved(Desired(specs, overrides), earlier) <==>
            || (exists j :: 0 <= j < |specs| && Want(specs[j], overrides) == port)
            || (exists j :: 0 <= j < |earlier| && earlier[j].reason.ReasonTaken? && earlier[j].chosen == port)
  {
    var desired := Desired(specs, overrides);
    if port in desired.Values {
      var name :| name in desired && desired[name] == port;
      var j :| 0 <= j < |specs| && specs[j].name == name;
      DesiredIsWant(specs, overrides, j);
    }
    if j :| 0 <= j < |specs| && Want(specs[j], overrides) == port {
      DesiredIsWant(specs, overrides, j);
      assert desired[specs[j].name] == port;
    }
  }

  lemma OneChoice(specs: seq<PortSpec>, sel: Selection, choices: seq<Choice>, i: nat)
    requires DistinctNames(specs) && Chooses(specs, sel, Ok(choices)) && i < |specs|
    ensures ChoiceIsSound(specs, sel, choices, i)
  {
    hide Desired, Reserved, DistinctNames;
    var desired := Desired(specs, sel.overrides);
    var c := choices[i];
    DesiredIsWant(specs, sel.overrides, i);
    assert IsChoice(specs[i].name, desired, sel, choices[..i], c);
    if c.reason.ReasonTaken? {
      forall q | c.desired < q < c.chosen
        ensures || sel.probe(q).Taken?
                || (exists j :: 0 <= j < |specs| && Want(specs[j], sel.overrides) == q)
                || (exists j :: 0 <= j < i && choices[j].chosen == q)
      {
        assert Passed(Reserved(desired, choices[..i]), sel, q);
        WantedIsReserved(specs, sel.overrides, choices[..i], q);
        if j :| 0 <= j < |choices[..i]| && choices[..i][j].reason.ReasonTaken? && choices[..i][j].chosen == q {
          assert choices[j].chosen == q;
        }
      }
    }
  }

  lemma ChosenApart(specs: seq<PortSpec>, sel: Selection, choices: seq<Choice>, i: nat, j: nat)
    requires DistinctNames(specs) && Chooses(specs, sel, Ok(choices)) && i < |specs| && j < |specs| && i != j
    ensures choices[i].chosen != choices[j].chosen
    ensures choices[i].chosen != Want(specs[j], sel.overrides)
  {
    hide Desired, Reserved, DistinctNames, AllPassed;
    var desired := Desired(specs, sel.overrides);
    NotWanted(specs, sel, choices, i, j);
    NotWanted(specs, sel, choices, j, i);
    DesiredIsWant(specs, sel.overrides, i);
    DesiredIsWant(specs, sel.overrides, j);
    var first, second := if i < j then i else j, if i < j then j else i;
    assert IsChoice(specs[first].name, desired, sel, choices[..first], choices[first]);
    assert IsChoice(specs[second].name, desired, sel, choices[..second], choices[second]);
    if choices[first].reason.ReasonTaken? && choices[second].reason.ReasonTaken? {
      WantedIsReserved(specs, sel.overrides, choices[..second], choices[first].chosen);
      assert choices[..second][first] == choices[first];
    }
  }

  lemma NotWanted(specs: seq<PortSpec>, sel: Selection, choices: seq<Choice>, i: nat, j: nat)
    requires DistinctNames(specs) && Chooses(specs, sel, Ok(choices)) && i < |specs| && j < |specs| && i != j
    ensures choices[i].chosen != Want(specs[j], sel.overrides)
  {
    hide Desired, Reserved, DistinctNames, AllPassed;
    var desired := Desired(specs, sel.overrides);
    DesiredIsWant(specs, sel.overrides, i);
    assert IsChoice(specs[i].name, desired, sel, choices[..i], choices[i]);
    WantedIsReserved(specs, sel.overrides, choices[..i], Want(specs[j], sel.overrides));
    if i < j {
      assert Want(specs[i], sel.overrides) != Want(specs[j], sel.overrides);
    } else {
      assert Want(specs[j], sel.overrides) != Want(specs[i], sel.overrides);
    }
  }

  /** Port q cannot be given to a spec: it is somebody's wish, given to an earlier one, or taken. */
  ghost predicate Unavailable(specs: seq<PortSpec>, sel: Selection, earlier: seq<Choice>, q: int) {
    || sel.probe(q).Taken?
    || (exists j :: 0 <= j < |specs| && Want(specs[j], sel.overrides) == q)
    || (exists j :: 0 <= j < |earlier| && Changed(earlier[j]) && earlier[j].chosen == q)
  }

  /**
   * Choosing gives up on a spec only when its wish is taken and every port above it, within the limit and up to
   * 65535, is unavailable; it reports a failing probe only for the wish or for the first available port above it.
   */
  lemma GivingUpIsDue(specs: seq<PortSpec>, sel: Selection, earlier: seq<Choice>, e: PortsError)
    requires DistinctNames(specs) && GoodUpTo(specs, sel.overrides, |specs|)
    requires FailsAfter(specs, Desired(specs, sel.overrides), sel, earlier, e)
    ensures var s := specs[|earlier|];
            var want := Want(s, sel.overrides);
            && want !in sel.ours
            && (e == NoneFree(s.name) || e == ProbeFailed(s.name))
            && (e == NoneFree(s.name) ==>
                  && sel.probe(want).Taken?
                  && forall q :: want < q <= want + sel.limit && q <= 65535 ==> Unavailable(specs, sel, earlier, q))
            && (e == ProbeFailed(s.name) ==>
                  || sel.probe(want).ProbeError?
                  || (sel.probe(want).Taken?
                      && exists q :: want < q <= want + sel.limit && q <= 65535 && sel.probe(q).ProbeError?
                                     && forall p :: want < p < q ==> Unavailable(specs, sel, earlier, p)))
  {
    hide Desired, DistinctNames, GoodUpTo, IsNextFree, Reserved;
    var s := specs[|earlier|];
    var want := Want(s, sel.overrides);
    var desired := Desired(specs, sel.overrides);
    DesiredIsWant(specs, sel.overrides, |earlier|);
    forall q | Passed(Reserved(desired, earlier), sel, q)
      ensures Unavailable(specs, sel, earlier, q)
    {
      WantedIsReserved(specs, sel.overrides, earlier, q);
      SwappedIsChanged(specs, desired, sel, earlier);
    }
    if e == ProbeFailed(s.name) && sel.probe(want).Taken? {
      var q :| ProbeStops(want, Reserved(desired, earlier), sel, q);
      assert forall p :: want < p < q ==> Passed(Reserved(desired, earlier), sel, p);
    }
  }

  lemma SwappedIsChanged(specs: seq<PortSpec>, desired: map<string, int>, sel: Selection, choices: seq<Choice>)
    requires AreChoices(specs, desired, sel, choices)
    ensures forall j :: 0 <= j < |choices| && choices[j].reason.ReasonTaken? ==> Changed(choices[j])
  {
    hide AllPassed, Reserved;
    forall j | 0 <= j < |choices| && choices[j].reason.ReasonTaken?
      ensures Changed(choices[j])
    {
      assert IsChoice(specs[j].name, desired, sel, choices[..j], choices[j]);
    }
  }

  /** What a name stands for is the wish of one of its specs. */
  lemma {:induction false} DesiredIsSomeWant(specs: seq<PortSpec>, overrides: map<string, int>, name: string) returns (k: nat)
    requires name in Desired(specs, overrides)
    ensures k < |specs| && specs[k].name == name && Desired(specs, overrides)[name] == Want(specs[k], overrides)
    decreases |specs|
  {
    k := |specs| - 1;
    if specs[k].name != name {
      k := DesiredIsSomeWant(specs[..k], overrides, name);
    }
  }

  /** Different names stand for different ports. */
  lemma DesiredApart(specs: seq<PortSpec>, overrides: map<string, int>, a: string, b: string)
    requires GoodUpTo(specs, overrides, |specs|) && a != b
    requires a in Desired(specs, overrides) && b in Desired(specs, overrides)
    ensures Desired(specs, overrides)[a] != Desired(specs, overrides)[b]
  {
    hide Desired, Want;
    var i := DesiredIsSomeWant(specs, overrides, a);
    var j := DesiredIsSomeWant(specs, overrides, b);
  }

  /**
   * Whatever the specs: two choices share a port exactly when they are for one name and its wish was granted. So
   * chosen ports are different for distinct names, which is what templates yield.
   */
  lemma SharedPortsExactly(specs: seq<PortSpec>, sel: Selection, choices: seq<Choice>, i: nat, j: nat)
    requires Chooses(specs, sel, Ok(choices)) && i < j < |specs|
    ensures choices[i].chosen == choices[j].chosen <==> specs[i].name == specs[j].name && !Changed(choices[i])
  {
    hide Desired, GoodUpTo, AllPassed;
    var desired := Desired(specs, sel.overrides);
    var c, d := choices[i], choices[j];
    assert IsChoice(specs[i].name, desired, sel, choices[..i], c);
    assert IsChoice(specs[j].name, desired, sel, choices[..j], d);
    assert choices[..j][i] == c;
    assert desired[c.name] in desired.Values && desired[d.name] in desired.Values;
    if c.name != d.name {
      DesiredApart(specs, sel.overrides, c.name, d.name);
    }
  }

  /** An input that shows it: one name with two defaults, nothing taken, and one port for both. */
  lemma RepeatedNameSharesAPort()
    ensures var specs := [PortSpec("A_PORT", 1), PortSpec("A_PORT", 2)];
            var sel := Selection(map[], {}, (p: int) => Free, 10);
            var choice := Choice("A_PORT", 2, 2, ReasonFree);
            Chooses(specs, sel, Ok([choice, choice]))
  {
    var specs := [PortSpec("A_PORT", 1), PortSpec("A_PORT", 2)];
    assert specs[..1] == [PortSpec("A_PORT", 1)];
    assert Desired(specs, map[]) == map["A_PORT" := 2];
  }
}

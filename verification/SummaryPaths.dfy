/** Some run of the summary protocol leads from one state of a conversation to another. */
module SummaryPaths {
  import opened Wrappers
  import opened WarmMemory
  import opened WarmStates
  import opened HistoryEvolution
  import opened SummarySystem
  import opened SummaryBounds

  /** With `covered`, a run in which every append is covered. */
  ghost predicate Path(keep: nat, covered: bool, a: System, b: System, events: seq<Event>) {
    && Possible(a, keep, events)
    && RunSystem(a, keep, events) == b
    && (covered ==> AlwaysCovered(a, keep, events))
  }

  ghost predicate Reaches(keep: nat, covered: bool, a: System, b: System) {
    exists events :: Path(keep, covered, a, b, events)
  }

  lemma ReachesReflexive(keep: nat, covered: bool, a: System)
    ensures Reaches(keep, covered, a, a)
  {
    assert Path(keep, covered, a, a, []);
  }

  lemma {:induction false} PathsJoin(keep: nat, covered: bool, a: System, b: System, c: System, first: seq<Event>,
                                     second: seq<Event>)
    requires Path(keep, covered, a, b, first) && Path(keep, covered, b, c, second)
    ensures Path(keep, covered, a, c, first + second)
    decreases |first|
  {
    hide Enabled, ApplyEvent, Covered;
    if first == [] {
      assert first + second == second;
    } else {
      var all := first + second;
      assert all[0] == first[0] && all[1..] == first[1..] + second;
      PathsJoin(keep, covered, ApplyEvent(a, keep, first[0]), b, c, first[1..], second);
    }
  }

  lemma ReachesTransitive(keep: nat, covered: bool, also: bool, a: System, b: System, c: System)
    requires Reaches(keep, covered, a, b) && Reaches(keep, also, b, c)
    ensures Reaches(keep, covered && also, a, c)
  {
    hide Possible, RunSystem, AlwaysCovered;
    var first :| Path(keep, covered, a, b, first);
    var second :| Path(keep, also, b, c, second);
    assert Path(keep, covered && also, a, b, first) && Path(keep, covered && also, b, c, second);
    PathsJoin(keep, covered && also, a, b, c, first, second);
  }

  lemma ReachesStep(keep: nat, covered: bool, a: System, event: Event)
    requires Enabled(a, event) && (covered ==> Covered(a, event))
    ensures Reaches(keep, covered, a, ApplyEvent(a, keep, event))
  {
    hide Enabled, ApplyEvent, Covered;
    var b := ApplyEvent(a, keep, event);
    assert [event][1..] == [];
    assert Possible(b, keep, []) && RunSystem(b, keep, []) == b && AlwaysCovered(b, keep, []);
    assert Path(keep, covered, a, b, [event]);
  }

  lemma ReachesBounded(keep: nat, covered: bool, a: System, b: System)
    requires SystemBounded(a) && Reaches(keep, covered, a, b)
    ensures SystemBounded(b)
  {
    hide SystemBounded, Possible, RunSystem, AlwaysCovered;
    var events :| Path(keep, covered, a, b, events);
    RunBounded(a, keep, events);
  }

  /** From the start state, with every append covered: the summary is honest, in the row and in every copy. */
  lemma ReachedIsHonest(keep: nat, b: System)
    requires Reaches(keep, true, Start, b)
    ensures b.durable.through % 2 == 0 && 0 <= b.durable.through <= b.durable.count
    ensures |b.durable.summary| == b.durable.through / 2
    ensures forall i :: 0 <= i < |b.durable.summary| ==> b.durable.summary[i] == 2 * i + 2
    ensures forall p :: p in b.warm ==> Honest(b.warm[p].summary, b.warm[p].through)
                                        && Contiguous(b.warm[p].through, b.warm[p].turns)
  {
    hide Possible, RunSystem, AlwaysCovered, Honest, Contiguous;
    var events :| Path(keep, true, Start, b, events);
    SummaryHonesty(keep, events);
  }
}

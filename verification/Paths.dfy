/** Sequences of protocol steps, and the provider's clock seen as such a sequence. */
module Paths {
  import opened Records
  import opened Provider
  import opened Protocol
  import opened RunTheorems

  ghost predicate Path(s: Sys, steps: seq<Step>, s': Sys)
    decreases |steps|
  {
    if |steps| == 0 then s == s' else Enabled(s, steps[0]) && Path(Apply(s, steps[0]), steps[1..], s')
  }

  lemma PathNone(s: Sys)
    ensures Path(s, [], s)
  {
  }

  lemma PathOne(s: Sys, step: Step)
    requires Enabled(s, step)
    ensures Path(s, [step], Apply(s, step))
  {
    hide Enabled, Apply;
    assert [step][1..] == [];
  }

  lemma {:induction false} PathJoins(s: Sys, xs: seq<Step>, mid: Sys, ys: seq<Step>, s': Sys)
    requires Path(s, xs, mid) && Path(mid, ys, s')
    ensures Path(s, xs + ys, s')
    decreases |xs|
  {
    hide Enabled, Apply;
    if |xs| == 0 {
      assert xs + ys == ys;
    } else {
      PathJoins(Apply(s, xs[0]), xs[1..], mid, ys, s');
      assert (xs + ys)[1..] == xs[1..] + ys;
    }
  }

  lemma PathTwo(s: Sys, a: Step, b: Step)
    requires Enabled(s, a) && Enabled(Apply(s, a), b)
    ensures Path(s, [a, b], Apply(Apply(s, a), b))
  {
    hide Enabled, Apply;
    PathOne(s, a);
    PathOne(Apply(s, a), b);
    PathJoins(s, [a], Apply(s, a), [b], Apply(Apply(s, a), b));
    assert [a] + [b] == [a, b];
  }

  lemma PathThree(s: Sys, a: Step, b: Step, c: Step)
    requires Enabled(s, a) && Enabled(Apply(s, a), b) && Enabled(Apply(Apply(s, a), b), c)
    ensures Path(s, [a, b, c], Apply(Apply(Apply(s, a), b), c))
  {
    hide Enabled, Apply;
    PathTwo(s, a, b);
    PathOne(Apply(Apply(s, a), b), c);
    PathJoins(s, [a, b], Apply(Apply(s, a), b), [c], Apply(Apply(Apply(s, a), b), c));
    assert [a, b] + [c] == [a, b, c];
  }

  /** A path from a state of some run leads to a state of some run. */
  lemma {:induction false} PathReaches(s: Sys, steps: seq<Step>, s': Sys)
    requires Reachable(s) && Path(s, steps, s')
    ensures Reachable(s')
    decreases |steps|
  {
    hide Reachable, Enabled, Apply;
    if |steps| > 0 {
      StepReaches(s, steps[0]);
      PathReaches(Apply(s, steps[0]), steps[1..], s');
    }
  }

  // ------------------------------------------------------------ the provider's clock

  /** The references in `done` settled, the others as they were. */
  ghost function PartlyAdvanced(
    payments: map<Reference, Payment>, done: set<Reference>, cutoff: int, bounce: bool): map<Reference, Payment>
  {
    map r | r in payments :: if r in done then Advanced(payments[r], cutoff, bounce) else payments[r]
  }

  ghost predicate OnlySettles(steps: seq<Step>) {
    forall i :: 0 <= i < |steps| ==> steps[i].ProviderSettles?
  }

  lemma {:induction false} AdvanceSome(s: Sys, done: set<Reference>, cutoff: int, bounce: bool) returns (steps: seq<Step>)
    requires done <= s.payments.Keys
    ensures OnlySettles(steps)
    ensures Path(s, steps, s.(payments := PartlyAdvanced(s.payments, done, cutoff, bounce)))
    decreases |done|
  {
    if done == {} {
      steps := [];
      assert PartlyAdvanced(s.payments, {}, cutoff, bounce) == s.payments;
    } else {
      var r :| r in done;
      var before := AdvanceSome(s, done - {r}, cutoff, bounce);
      steps := AdvanceOne(s, before, done, r, cutoff, bounce);
    }
  }

  lemma AdvanceOne(s: Sys, before: seq<Step>, done: set<Reference>, r: Reference, cutoff: int, bounce: bool)
    returns (steps: seq<Step>)
    requires r in done && r in s.payments && OnlySettles(before)
    requires Path(s, before, s.(payments := PartlyAdvanced(s.payments, done - {r}, cutoff, bounce)))
    ensures OnlySettles(steps)
    ensures Path(s, steps, s.(payments := PartlyAdvanced(s.payments, done, cutoff, bounce)))
  {
    hide Path;
    var mid := s.(payments := PartlyAdvanced(s.payments, done - {r}, cutoff, bounce));
    var after := PartlyAdvanced(s.payments, done, cutoff, bounce);
    var p := s.payments[r];
    if p.status.Accepted? && p.createdAt <= cutoff {
      var step := ProviderSettles(r, !bounce);
      PathOne(mid, step);
      assert Apply(mid, step).payments == after;
      PathJoins(s, before, mid, [step], s.(payments := after));
      steps := before + [step];
    } else {
      assert mid.payments == after;
      steps := before;
    }
  }

  /** `advance_pending` is one settlement after another. */
  lemma AdvanceIsPath(s: Sys, cutoff: int, bounce: bool) returns (steps: seq<Step>)
    ensures OnlySettles(steps)
    ensures Path(s, steps, s.(payments := AllAdvanced(s.payments, cutoff, bounce)))
  {
    hide Path;
    steps := AdvanceSome(s, s.payments.Keys, cutoff, bounce);
    assert PartlyAdvanced(s.payments, s.payments.Keys, cutoff, bounce) == AllAdvanced(s.payments, cutoff, bounce);
  }
}

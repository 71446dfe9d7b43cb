/** Sequences of steps of one thread, and runs that go on with them. */
module PipelineSteps {
  import opened Lists
  import opened Pipeline
  import opened PipelineInvariant

  ghost predicate Step(c: Config, s: State, a: Action, s': State) { Enabled(s, a) && s' == Apply(c, s, a) }

  ghost function Steps(c: Config): (State, Action, State) -> bool { (s, a, s') => Step(c, s, a, s') }

  ghost function OwnSteps(c: Config, own: Action -> bool): (State, Action, State) -> bool {
    (s, a, s') => own(a) && Step(c, s, a, s')
  }

  /** Some steps of the kind `own` lead from `s` to `s'`. */
  ghost predicate Leads(c: Config, own: Action -> bool, s: State, s': State) {
    exists run, acts :: Chain(OwnSteps(c, own), run, acts) && run[0] == s && run[|acts|] == s'
  }

  lemma Stays(c: Config, own: Action -> bool, s: State)
    ensures Leads(c, own, s, s)
  {
    assert Chain(OwnSteps(c, own), [s], []);
  }

  lemma One(c: Config, own: Action -> bool, s: State, a: Action)
    requires Enabled(s, a) && own(a)
    ensures Leads(c, own, s, Apply(c, s, a))
  {
    assert OwnSteps(c, own)(s, a, Apply(c, s, a));
    assert Chain(OwnSteps(c, own), [s, Apply(c, s, a)], [a]);
  }

  lemma Then(c: Config, own: Action -> bool, s: State, m: State, s': State)
    requires Leads(c, own, s, m) && Leads(c, own, m, s')
    ensures Leads(c, own, s, s')
  {
    var run, acts :| Chain(OwnSteps(c, own), run, acts) && run[0] == s && run[|acts|] == m;
    var run', acts' :| Chain(OwnSteps(c, own), run', acts') && run'[0] == m && run'[|acts'|] == s';
    ChainJoin(OwnSteps(c, own), run, acts, run', acts');
  }

  lemma LeadsWeaken(c: Config, own: Action -> bool, more: Action -> bool, s: State, s': State)
    requires Leads(c, own, s, s') && forall a :: own(a) ==> more(a)
    ensures Leads(c, more, s, s')
  {
    var run, acts :| Chain(OwnSteps(c, own), run, acts) && run[0] == s && run[|acts|] == s';
    ChainWeaken(OwnSteps(c, own), OwnSteps(c, more), run, acts);
  }

  ghost function InvOf(c: Config): State -> bool { s => Inv(c, s) }

  /** Such steps keep the invariant. */
  lemma LeadsInv(c: Config, own: Action -> bool, s: State, s': State)
    requires Good(c) && Inv(c, s) && Leads(c, own, s, s')
    ensures Inv(c, s')
  {
    var run, acts :| Chain(OwnSteps(c, own), run, acts) && run[0] == s && run[|acts|] == s';
    forall m, a, m' | InvOf(c)(m) && OwnSteps(c, own)(m, a, m') ensures InvOf(c)(m') { StepKeeps(c, m, a, m'); }
    ChainKeeps(OwnSteps(c, own), InvOf(c), run, acts, |acts|);
  }

  lemma StepKeeps(c: Config, s: State, a: Action, s': State)
    requires Good(c) && Inv(c, s) && Step(c, s, a, s')
    ensures Inv(c, s')
  {
    StepInv(c, s, a);
  }

  lemma RunIsChain(c: Config, run: seq<State>, acts: seq<Action>)
    ensures IsRun(c, run, acts) <==> Chain(Steps(c), run, acts) && run[0] == Built(c)
  {
    if IsRun(c, run, acts) {
      forall i | 0 <= i < |acts| ensures Steps(c)(run[i], acts[i], run[i + 1]) {
      }
    }
    if Chain(Steps(c), run, acts) && run[0] == Built(c) {
      forall i | 0 <= i < |acts| ensures Enabled(run[i], acts[i]) && run[i + 1] == Apply(c, run[i], acts[i]) {
        assert Steps(c)(run[i], acts[i], run[i + 1]);
      }
    }
  }

  /** Such steps continue any run that has come to `s`. */
  lemma Extends(c: Config, own: Action -> bool, run: seq<State>, acts: seq<Action>, s': State)
      returns (run': seq<State>, acts': seq<Action>)
    requires IsRun(c, run, acts) && Leads(c, own, run[|acts|], s')
    ensures IsRun(c, run', acts') && run <= run' && acts <= acts' && run'[|acts'|] == s'
    ensures forall i :: |acts| <= i < |acts'| ==> own(acts'[i])
  {
    var more, steps :| Chain(OwnSteps(c, own), more, steps) && more[0] == run[|acts|] && more[|steps|] == s';
    run', acts' := run + more[1..], acts + steps;
    AllOwn(c, own, more, steps);
    RunIsChain(c, run, acts);
    ChainWeaken(OwnSteps(c, own), Steps(c), more, steps);
    ChainJoin(Steps(c), run, acts, more, steps);
    RunIsChain(c, run', acts');
  }

  lemma AllOwn(c: Config, own: Action -> bool, run: seq<State>, acts: seq<Action>)
    requires Chain(OwnSteps(c, own), run, acts)
    ensures forall i :: 0 <= i < |acts| ==> own(acts[i])
  {
    forall i | 0 <= i < |acts| ensures own(acts[i]) {
      assert OwnSteps(c, own)(run[i], acts[i], run[i + 1]);
    }
  }
}

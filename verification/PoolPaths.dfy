/** Stretches of runs of the pool, put one after the other. */
module PoolPaths {
  import opened Pool

  ghost predicate Path(states: seq<State>, steps: seq<Step>) {
    |states| == |steps| + 1 && forall i | 0 <= i < |steps| :: Enabled(states[i], steps[i]) && states[i + 1] == Next(states[i], steps[i])
  }

  /** Some steps lead from one state to the other. */
  ghost predicate Leads(s: State, s': State) {
    exists states, steps :: Path(states, steps) && states[0] == s && states[|steps|] == s'
  }

  lemma LeadsSelf(s: State)
    ensures Leads(s, s)
  {
    assert Path([s], []);
  }

  lemma LeadsNext(s: State, v: State, step: Step)
    requires Leads(s, v) && Enabled(v, step)
    ensures Leads(s, Next(v, step))
  {
    hide Enabled, Next;
    var states, steps :| Path(states, steps) && states[0] == s && states[|steps|] == v;
    var more, longer := states + [Next(v, step)], steps + [step];
    forall i | 0 <= i < |longer| ensures Enabled(more[i], longer[i]) && more[i + 1] == Next(more[i], longer[i]) {
      if i < |steps| {
        assert more[i] == states[i] && more[i + 1] == states[i + 1] && longer[i] == steps[i];
      }
    }
    assert Path(more, longer) && more[0] == s && more[|longer|] == Next(v, step);
  }

  lemma LeadsOn(s: State, v: State, u: State)
    requires Leads(s, v) && Leads(v, u)
    ensures Leads(s, u)
  {
    hide Enabled, Next;
    var a, x :| Path(a, x) && a[0] == s && a[|x|] == v;
    var b, y :| Path(b, y) && b[0] == v && b[|y|] == u;
    PathsJoin(a, x, b, y);
    assert Path(a + b[1..], x + y);
  }

  lemma PathsJoin(a: seq<State>, x: seq<Step>, b: seq<State>, y: seq<Step>)
    requires Path(a, x) && Path(b, y) && a[|x|] == b[0]
    ensures var states, steps := a + b[1..], x + y;
      Path(states, steps) && states[0] == a[0] && states[|steps|] == b[|y|]
  {
    hide Enabled, Next;
    var states, steps := a + b[1..], x + y;
    forall i | 0 <= i < |steps| ensures Enabled(states[i], steps[i]) && states[i + 1] == Next(states[i], steps[i]) {
      if i < |x| {
        assert states[i] == a[i] && states[i + 1] == a[i + 1] && steps[i] == x[i];
      } else {
        assert states[i] == b[i - |x|] && states[i + 1] == b[i + 1 - |x|] && steps[i] == y[i - |x|];
      }
    }
  }

  /** A state of some run of the pool. */
  ghost predicate Reachable(s: State) {
    exists states, steps :: Run(states, steps) && states[|steps|] == s
  }

  lemma StaysReachable(s: State, s': State)
    requires Reachable(s) && Leads(s, s')
    ensures Reachable(s')
  {
    var states, steps :| Run(states, steps) && states[|steps|] == s;
    assert Path(states, steps);
    hide Enabled, Next;
    LeadsOn(Start(), s, s');
    var a, x :| Path(a, x) && a[0] == Start() && a[|x|] == s';
    assert Run(a, x);
  }
}

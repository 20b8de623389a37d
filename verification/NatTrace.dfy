/** Runs of the NAT machine step by step. */
module NatTrace {
  import opened NatMachine

  lemma RunCons(s: State, e: Event, es: seq<Event>, s': State)
    requires Enabled(s, e) && Run(Apply(s, e), es, s')
    ensures Run(s, [e] + es, s')
  {
    assert ([e] + es)[1..] == es;
  }

  lemma RunOne(s: State, e: Event)
    requires Enabled(s, e)
    ensures Run(s, [e], Apply(s, e))
  {
    RunCons(s, e, [], Apply(s, e));
    assert [e] + [] == [e];
  }

  lemma {:induction false} RunJoin(s: State, es: seq<Event>, s1: State, fs: seq<Event>, s2: State)
    requires Run(s, es, s1) && Run(s1, fs, s2)
    ensures Run(s, es + fs, s2)
    decreases |es|
  {
    if es == [] {
      assert es + fs == fs;
    } else {
      RunJoin(Apply(s, es[0]), es[1..], s1, fs, s2);
      assert es + fs == [es[0]] + (es[1..] + fs);
    }
  }

  /** The first `n` events lead from each state to the next. */
  ghost predicate LegalUpTo(ss: seq<State>, es: seq<Event>, n: nat)
    requires n <= |es| < |ss|
  {
    n == 0 || (LegalUpTo(ss, es, n - 1) && Enabled(ss[n - 1], es[n - 1]) && ss[n] == Apply(ss[n - 1], es[n - 1]))
  }

  /** A run with all its states: `ss[n]` is the state before event `n`, and the last one the state after all. */
  ghost predicate Trace(ss: seq<State>, es: seq<Event>)
  {
    |ss| == |es| + 1 && LegalUpTo(ss, es, |es|)
  }

  lemma {:induction false} LegalAt(ss: seq<State>, es: seq<Event>, n: nat, m: nat)
    requires m < n <= |es| < |ss| && LegalUpTo(ss, es, n)
    ensures Enabled(ss[m], es[m]) && ss[m + 1] == Apply(ss[m], es[m])
    decreases n
  {
    if m < n - 1 {
      LegalAt(ss, es, n - 1, m);
    }
  }

  /** One step of a trace. */
  lemma StepAt(ss: seq<State>, es: seq<Event>, m: nat)
    requires Trace(ss, es) && m < |es|
    ensures Enabled(ss[m], es[m]) && ss[m + 1] == Apply(ss[m], es[m])
  {
    LegalAt(ss, es, |es|, m);
  }

  lemma {:induction false} LegalCons(s: State, ss: seq<State>, e: Event, es: seq<Event>, n: nat)
    requires n <= |es| < |ss| && Enabled(s, e) && ss[0] == Apply(s, e) && LegalUpTo(ss, es, n)
    ensures LegalUpTo([s] + ss, [e] + es, n + 1)
    decreases n
  {
    if n > 0 {
      LegalCons(s, ss, e, es, n - 1);
    }
  }

  /** Every run has such a trace. */
  lemma {:induction false} TraceOf(s: State, es: seq<Event>, s': State) returns (ss: seq<State>)
    requires Run(s, es, s')
    ensures Trace(ss, es) && ss[0] == s && ss[|es|] == s'
    decreases |es|
  {
    if |es| == 0 {
      ss := [s];
    } else {
      var rest := TraceOf(Apply(s, es[0]), es[1..], s');
      ss := [s] + rest;
      LegalCons(s, rest, es[0], es[1..], |es| - 1);
      assert [es[0]] + es[1..] == es;
    }
  }

  lemma OneMore(s: State, es: seq<Event>, t: State, e: Event)
    requires Run(s, es, t) && Enabled(t, e)
    ensures Run(s, es + [e], Apply(t, e))
  {
    RunOne(t, e);
    RunJoin(s, es, t, [e], Apply(t, e));
  }

  /** And every trace is a run, up to each of its states. */
  lemma {:induction false} PrefixRuns(ss: seq<State>, es: seq<Event>, n: nat)
    requires Trace(ss, es) && n <= |es|
    ensures Run(ss[0], es[..n], ss[n])
    decreases n
  {
    if n > 0 {
      PrefixRuns(ss, es, n - 1);
      StepAt(ss, es, n - 1);
      OneMore(ss[0], es[..n - 1], ss[n - 1], es[n - 1]);
      assert es[..n - 1] + [es[n - 1]] == es[..n];
    }
  }
}

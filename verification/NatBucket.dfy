/** The token bucket of internal/server/udp.go, exactly: over every run, when a new flow is admitted and when it is
    throttled, from the times of the earlier admissions alone. */
module NatBucket {
  import opened Bytes
  import opened NatTables
  import opened NatMachine
  import opened NatSafety
  import opened NatRate

  /** The bucket was full at admission `i`, and all that came in since was spent or is left. */
  ghost predicate LastFull(rate: real, admits: seq<real>, tokens: real, since: real, i: nat)
  {
    i < |admits| && (|admits| - i) as real + tokens == rate + rate * (since - admits[i])
  }

  /** The bucket holds as much as the admissions so far leave: it is full, or has been filling since it last was. */
  ghost predicate Tight(rate: real, admits: seq<real>, tokens: real, since: real)
  {
    tokens == rate || exists i: nat :: LastFull(rate, admits, tokens, since, i)
  }

  lemma RefillLastFull(rate: int, admits: seq<real>, tokens: real, since: real, now: real, i: nat)
    requires LastFull(rate as real, admits, tokens, since, i) && since <= now
    ensures var filled := Refill(rate, tokens, since, now);
            filled == rate as real || LastFull(rate as real, admits, filled, now, i)
  {
    Distribute(rate as real, admits[i], since, now);
  }

  lemma FullStaysFull(rate: int, since: real, now: real)
    requires rate >= 1 && since <= now
    ensures Refill(rate, rate as real, since, now) == rate as real
  {
    ProductNonNegative(now - since, rate as real);
  }

  lemma RefillTight(rate: int, admits: seq<real>, tokens: real, since: real, now: real)
    requires rate >= 1 && Tight(rate as real, admits, tokens, since) && since <= now
    ensures Tight(rate as real, admits, Refill(rate, tokens, since, now), now)
  {
    if tokens == rate as real {
      FullStaysFull(rate, since, now);
    } else {
      var i: nat :| LastFull(rate as real, admits, tokens, since, i);
      RefillLastFull(rate, admits, tokens, since, now, i);
    }
  }

  lemma SpendFull(rate: real, admits: seq<real>, now: real)
    ensures LastFull(rate, admits + [now], rate - 1.0, now, |admits|)
  {
    assert now - (admits + [now])[|admits|] == 0.0;
  }

  lemma SpendLastFull(rate: real, admits: seq<real>, tokens: real, now: real, i: nat)
    requires LastFull(rate, admits, tokens, now, i)
    ensures LastFull(rate, admits + [now], tokens - 1.0, now, i)
  {
    assert (admits + [now])[i] == admits[i];
  }

  lemma SpendTight(rate: real, admits: seq<real>, tokens: real, now: real)
    requires Tight(rate, admits, tokens, now)
    ensures Tight(rate, admits + [now], tokens - 1.0, now)
  {
    if tokens == rate {
      SpendFull(rate, admits, now);
    } else {
      var i: nat :| LastFull(rate, admits, tokens, now, i);
      SpendLastFull(rate, admits, tokens, now, i);
    }
  }

  ghost predicate TightInv(s: State)
  {
    Tight(s.opt.newFlowsPerSecond as real, s.admits, s.t.tokens, s.t.tokenTime)
  }

  lemma AdmitTight(o: Options, t: Tables, key: Key, now: real, admits: seq<real>)
    requires Sane(o) && t.tokenTime <= now && Tight(o.newFlowsPerSecond as real, admits, t.tokens, t.tokenTime)
    ensures var (t', a) := Admit(o, t, key, now);
            Tight(o.newFlowsPerSecond as real, if a.Admitted? then admits + [now] else admits, t'.tokens, t'.tokenTime)
  {
    var rate := o.newFlowsPerSecond;
    RefillTight(rate, admits, t.tokens, t.tokenTime, now);
    SpendTight(rate as real, admits, Refill(rate, t.tokens, t.tokenTime, now), now);
  }

  lemma DecideTight(s: State, p: nat, d: Datagram)
    requires Inv(s) && TightInv(s) && JobOf(s, p) == Some(Deciding(d))
    ensures TightInv(DoDecide(s, p, d))
  {
    AdmitTight(s.opt, s.t, d.key, s.now, s.admits);
    var (t, a) := Admit(s.opt, s.t, d.key, s.now);
    DecidedPace(s.(t := t), p, d, a);
  }

  lemma TightStep(s: State, e: Event)
    requires Inv(s) && TightInv(s) && Enabled(s, e)
    ensures TightInv(Apply(s, e))
  {
    match e
    case Decide(p) => DecideTight(s, p, JobOf(s, p).value.d);
    case _ => OthersKeepPace(s, e);
  }

  lemma {:induction false} TightRun(s: State, es: seq<Event>, s': State)
    requires Inv(s) && TightInv(s) && Run(s, es, s')
    ensures TightInv(s')
    decreases |es|
  {
    if es != [] {
      TightStep(s, es[0]);
      InvStep(s, es[0]);
      TightRun(Apply(s, es[0]), es[1..], s');
    }
  }

  // ---- What a maintainer gets ----------------------------------------------------------------

  /** One more admission now would be too many since some earlier one. */
  ghost predicate Overspent(rate: real, admits: seq<real>, now: real)
  {
    exists i :: 0 <= i < |admits| && (|admits| - i) as real + 1.0 > rate + rate * (now - admits[i])
  }

  /** The refilled bucket has no whole token exactly when one more admission would be too many. */
  lemma EmptyExactly(rate: real, admits: seq<real>, filled: real, now: real)
    requires rate >= 1.0 && Budgeted(rate, admits, filled, now) && Tight(rate, admits, filled, now)
    ensures filled < 1.0 <==> Overspent(rate, admits, now)
  {
    if filled < 1.0 {
      var i: nat :| LastFull(rate, admits, filled, now, i);
      assert (|admits| - i) as real + 1.0 > rate + rate * (now - admits[i]);
    }
  }

  lemma BucketExactly(s: State)
    requires Reachable(s)
    ensures Refill(s.opt.newFlowsPerSecond, s.t.tokens, s.t.tokenTime, s.now) < 1.0 <==>
            Overspent(s.opt.newFlowsPerSecond as real, s.admits, s.now)
  {
    var o, start, es :| Run(Initial(o, start), es, s);
    InitialInv(o, start);
    InvRun(Initial(o, start), es, s);
    RateRun(Initial(o, start), es, s);
    TightRun(Initial(o, start), es, s);
    RefilledExactly(s.opt, s.t, s.now, s.admits);
  }

  lemma RefilledExactly(o: Options, t: Tables, now: real, admits: seq<real>)
    requires Sane(o) && t.tokenTime <= now
    requires Paced(o.newFlowsPerSecond as real, admits, t.tokens, t.tokenTime)
    requires Tight(o.newFlowsPerSecond as real, admits, t.tokens, t.tokenTime)
    ensures Refill(o.newFlowsPerSecond, t.tokens, t.tokenTime, now) < 1.0 <==>
            Overspent(o.newFlowsPerSecond as real, admits, now)
  {
    var rate := o.newFlowsPerSecond;
    RefillPaced(rate, admits, t.tokens, t.tokenTime, now);
    RefillTight(rate, admits, t.tokens, t.tokenTime, now);
    EmptyExactly(rate as real, admits, Refill(rate, t.tokens, t.tokenTime, now), now);
  }

  /** What becomes of a datagram that a worker brings to the flow table. */
  datatype Verdict = Turned(fate: Fate) | Forwarded(flow: FlowId) | Dialed | Abandoned

  /** From the tables and the times of the earlier admissions, the clock and nothing else. */
  ghost function VerdictOn(s: State, key: Key): Verdict
  {
    if s.t.closed then Abandoned
    else if key in s.t.flows then Forwarded(s.t.flows[key])
    else if key in s.t.pending then Turned(DropQueue)
    else if |s.t.flows| + |s.t.pending| >= s.opt.maxFlows then Turned(DropLimit)
    else if Overspent(s.opt.newFlowsPerSecond as real, s.admits, s.now) then Turned(DropRate)
    else Dialed
  }

  ghost predicate Executed(s: State, s': State, p: nat, d: Datagram, v: Verdict)
  {
    match v
    case Turned(fate) => s'.log == s.log + [(d.id, fate)] && JobOf(s', p) == Some(Idle) && s'.admits == s.admits
    case Forwarded(flow) => s'.log == s.log && JobOf(s', p) == Some(Writing(d, flow)) && s'.admits == s.admits
    case Dialed =>
      && s'.log == s.log && JobOf(s', p) == Some(Dialing(d))
      && s'.admits == s.admits + [s.now] && s'.t.pending == s.t.pending + {d.key}
    case Abandoned => s'.log == s.log && JobOf(s', p) == Some(Idle) && s'.admits == s.admits
  }

  lemma DecidedExecutes(s: State, p: nat, d: Datagram, a: Admission, v: Verdict)
    requires JobOf(s, p) == Some(Deciding(d))
    requires match a
             case Closed => v == Abandoned
             case Existing(flow) => v == Forwarded(flow)
             case Busy => v == Turned(DropQueue)
             case AtLimit => v == Turned(DropLimit)
             case Throttled => v == Turned(DropRate)
             case Admitted => v == Dialed
    ensures v != Dialed ==> Executed(s, Decided(s, p, d, a), p, d, v)
    ensures v == Dialed ==>
            && Decided(s, p, d, a).log == s.log && JobOf(Decided(s, p, d, a), p) == Some(Dialing(d))
            && Decided(s, p, d, a).admits == s.admits + [s.now] && Decided(s, p, d, a).t == s.t
  {
  }

  /** Over every run: a datagram for a key without a flow is throttled if and only if admitting it would exceed
      R + R for each second since some earlier admission; below the flow limit it is otherwise always dialled for. */
  lemma AdmissionExactly(s: State, p: nat, d: Datagram)
    requires Reachable(s) && JobOf(s, p) == Some(Deciding(d))
    ensures Executed(s, DoDecide(s, p, d), p, d, VerdictOn(s, d.key))
  {
    BucketExactly(s);
    var (t, a) := Admit(s.opt, s.t, d.key, s.now);
    DecidedExecutes(s.(t := t), p, d, a, VerdictOn(s, d.key));
  }
}

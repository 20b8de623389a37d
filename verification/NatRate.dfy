/** How fast the NAT of internal/server/udp.go admits new flows, over every run. */
module NatRate {
  import opened Bytes
  import opened NatTables
  import opened NatMachine
  import opened NatSafety

  /** `n` admissions within a time `dt` respect the bucket. */
  predicate Allowed(rate: real, n: int, dt: real)
  {
    n as real <= rate + rate * dt
  }

  ghost predicate Ordered(admits: seq<real>, last: real)
  {
    && (forall i, j :: 0 <= i <= j < |admits| ==> admits[i] <= admits[j])
    && (forall i :: 0 <= i < |admits| ==> admits[i] <= last)
  }

  /** From every past admission on, the admissions made and the tokens left fit the bucket. */
  ghost predicate Budgeted(rate: real, admits: seq<real>, tokens: real, since: real)
  {
    forall i :: 0 <= i < |admits| ==> (|admits| - i) as real + tokens <= rate + rate * (since - admits[i])
  }

  ghost predicate PairsAllowed(rate: real, admits: seq<real>)
  {
    forall i, j :: 0 <= i <= j < |admits| ==> Allowed(rate, j - i + 1, admits[j] - admits[i])
  }

  ghost predicate Paced(rate: real, admits: seq<real>, tokens: real, since: real)
  {
    Ordered(admits, since) && Budgeted(rate, admits, tokens, since) && PairsAllowed(rate, admits)
  }

  lemma Distribute(rate: real, x: real, y: real, z: real)
    ensures rate * (z - x) == rate * (y - x) + (z - y) * rate
  {
  }

  lemma RefillPaced(rate: int, admits: seq<real>, tokens: real, since: real, now: real)
    requires Paced(rate as real, admits, tokens, since) && since <= now
    ensures Paced(rate as real, admits, Refill(rate, tokens, since, now), now)
  {
    forall i | 0 <= i < |admits|
      ensures (|admits| - i) as real + Refill(rate, tokens, since, now) <= rate as real + (rate as real) * (now - admits[i])
    {
      Distribute(rate as real, admits[i], since, now);
    }
  }

  lemma SpendBudget(rate: real, admits: seq<real>, tokens: real, now: real)
    requires Budgeted(rate, admits, tokens, now) && tokens <= rate
    ensures Budgeted(rate, admits + [now], tokens - 1.0, now)
  {
    var more := admits + [now];
    forall i | 0 <= i < |more|
      ensures (|more| - i) as real + (tokens - 1.0) <= rate + rate * (now - more[i])
    {
      if i == |admits| {
        assert now - more[i] == 0.0;
      } else {
        assert more[i] == admits[i];
      }
    }
  }

  lemma Latest(rate: real, n: int, tokens: real, now: real, past: real)
    requires n as real + tokens <= rate + rate * (now - past) && tokens >= 0.0
    ensures Allowed(rate, n, now - past)
  {
  }

  lemma SpendPairs(rate: real, admits: seq<real>, tokens: real, now: real)
    requires PairsAllowed(rate, admits) && Budgeted(rate, admits + [now], tokens, now) && tokens >= 0.0
    ensures PairsAllowed(rate, admits + [now])
  {
    var more := admits + [now];
    forall i, j | 0 <= i <= j < |more| ensures Allowed(rate, j - i + 1, more[j] - more[i]) {
      if j < |admits| {
        assert Allowed(rate, j - i + 1, admits[j] - admits[i]);
      } else {
        Latest(rate, |more| - i, tokens, now, more[i]);
        assert more[j] == now && j - i + 1 == |more| - i;
      }
    }
  }

  lemma SpendPaced(rate: real, admits: seq<real>, tokens: real, now: real)
    requires Paced(rate, admits, tokens, now) && 1.0 <= tokens <= rate
    ensures Paced(rate, admits + [now], tokens - 1.0, now)
  {
    SpendBudget(rate, admits, tokens, now);
    SpendPairs(rate, admits, tokens - 1.0, now);
  }

  ghost predicate RateInv(s: State)
  {
    Paced(s.opt.newFlowsPerSecond as real, s.admits, s.t.tokens, s.t.tokenTime)
  }

  /** A step that neither refills the bucket nor admits a flow. */
  predicate SamePace(s: State, s': State)
  {
    s'.opt == s.opt && s'.admits == s.admits && s'.t.tokens == s.t.tokens && s'.t.tokenTime == s.t.tokenTime
  }

  lemma DecidedPace(s: State, p: nat, d: Datagram, a: Admission)
    requires JobOf(s, p).Some?
    ensures var s' := Decided(s, p, d, a);
            s'.opt == s.opt && s'.t == s.t && s'.admits == if a.Admitted? then s.admits + [s.now] else s.admits
  {
  }

  /** The bucket after a refill, kept or spent from. */
  lemma BucketPace(rate: int, admits: seq<real>, tokens: real, since: real, now: real)
    requires rate >= 1 && 0.0 <= tokens <= rate as real && since <= now && Paced(rate as real, admits, tokens, since)
    ensures var filled := Refill(rate, tokens, since, now);
            && Paced(rate as real, admits, filled, now)
            && (filled >= 1.0 ==> Paced(rate as real, admits + [now], filled - 1.0, now))
  {
    RefillPaced(rate, admits, tokens, since, now);
    RefillInRange(rate, tokens, since, now);
    SpendIfWhole(rate as real, admits, Refill(rate, tokens, since, now), now);
  }

  lemma SpendIfWhole(rate: real, admits: seq<real>, filled: real, now: real)
    requires Paced(rate, admits, filled, now) && filled <= rate
    ensures filled >= 1.0 ==> Paced(rate, admits + [now], filled - 1.0, now)
  {
    if filled >= 1.0 {
      SpendPaced(rate, admits, filled, now);
    }
  }

  lemma AdmitPace(o: Options, t: Tables, key: Key, now: real, admits: seq<real>)
    requires Sane(o) && TablesValid(o, t) && t.tokenTime <= now && Paced(o.newFlowsPerSecond as real, admits, t.tokens, t.tokenTime)
    ensures var (t', a) := Admit(o, t, key, now);
            Paced(o.newFlowsPerSecond as real, if a.Admitted? then admits + [now] else admits, t'.tokens, t'.tokenTime)
  {
    BucketPace(o.newFlowsPerSecond, admits, t.tokens, t.tokenTime, now);
  }

  lemma DecideRate(s: State, p: nat, d: Datagram)
    requires Inv(s) && RateInv(s) && JobOf(s, p) == Some(Deciding(d))
    ensures RateInv(DoDecide(s, p, d)) && DoDecide(s, p, d).opt == s.opt
  {
    AdmitPace(s.opt, s.t, d.key, s.now, s.admits);
    var (t, a) := Admit(s.opt, s.t, d.key, s.now);
    DecidedPace(s.(t := t), p, d, a);
  }

  lemma DialDonePace(s: State, p: nat, d: Datagram, result: DialResult)
    requires JobOf(s, p).Some?
    ensures SamePace(s, DoDialDone(s, p, d, result))
  {
  }

  lemma OthersKeepPace(s: State, e: Event)
    requires Enabled(s, e) && !e.Decide?
    ensures SamePace(s, Apply(s, e))
  {
    match e
    case DialDone(p, result) => DialDonePace(s, p, JobOf(s, p).value.d, result);
    case _ =>
  }

  lemma {:induction false} RateRun(s: State, es: seq<Event>, s': State)
    requires Inv(s) && RateInv(s) && Run(s, es, s')
    ensures RateInv(s') && s'.opt == s.opt
    decreases |es|
  {
    if es != [] {
      var e := es[0];
      InvStep(s, e);
      if e.Decide? {
        DecideRate(s, e.p, JobOf(s, e.p).value.d);
      } else {
        OthersKeepPace(s, e);
      }
      RateRun(Apply(s, e), es[1..], s');
    }
  }

  /** How many of `admits` fall in the window from `lo` to `hi`. */
  function Count(admits: seq<real>, lo: real, hi: real): nat
  {
    if |admits| == 0 then 0
    else Count(admits[..|admits| - 1], lo, hi) + if lo <= admits[|admits| - 1] <= hi then 1 else 0
  }

  lemma {:induction false} CountFrom(admits: seq<real>, k: nat, lo: real, hi: real)
    requires k <= |admits| && forall i :: 0 <= i < k ==> admits[i] < lo
    ensures Count(admits, lo, hi) <= |admits| - k
  {
    if k < |admits| {
      CountFrom(admits[..|admits| - 1], k, lo, hi);
    } else if k > 0 {
      CountFrom(admits[..|admits| - 1], k - 1, lo, hi);
    }
  }

  lemma Monotone(rate: real, x: real, y: real)
    requires rate >= 0.0 && x <= y
    ensures rate * x <= rate * y
  {
    ProductNonNegative(rate, y - x);
    assert rate * (y - x) == rate * y - rate * x;
  }

  lemma Widen(rate: real, m: int, n: int, x: real, y: real)
    requires rate >= 0.0 && m <= n && x <= y && Allowed(rate, n, x)
    ensures Allowed(rate, m, y)
  {
    Monotone(rate, x, y);
  }

  lemma CountInside(rate: real, admits: seq<real>, lo: real, hi: real)
    requires rate >= 0.0 && PairsAllowed(rate, admits)
    requires admits != [] && lo <= admits[|admits| - 1] <= hi
    ensures Allowed(rate, Count(admits, lo, hi), hi - lo)
  {
    var n := |admits|;
    var k := FirstAtLeast(admits, lo);
    CountFrom(admits, k, lo, hi);
    Widen(rate, Count(admits, lo, hi), n - k, admits[n - 1] - admits[k], hi - lo);
  }

  lemma {:induction false} CountAllowed(rate: real, admits: seq<real>, lo: real, hi: real)
    requires rate >= 0.0 && lo <= hi && PairsAllowed(rate, admits)
    requires forall i, j :: 0 <= i <= j < |admits| ==> admits[i] <= admits[j]
    ensures Allowed(rate, Count(admits, lo, hi), hi - lo)
    decreases |admits|
  {
    var n := |admits|;
    if n == 0 {
      Widen(rate, 0, 0, 0.0, hi - lo);
    } else if admits[n - 1] < lo {
      CountFrom(admits, n, lo, hi);
      Widen(rate, Count(admits, lo, hi), 0, 0.0, hi - lo);
    } else if admits[n - 1] > hi {
      assert PairsAllowed(rate, admits[..n - 1]);
      CountAllowed(rate, admits[..n - 1], lo, hi);
    } else {
      CountInside(rate, admits, lo, hi);
    }
  }

  ghost function FirstAtLeast(admits: seq<real>, lo: real): (k: nat)
    requires admits != [] && admits[|admits| - 1] >= lo
    ensures k < |admits| && admits[k] >= lo && forall i :: 0 <= i < k ==> admits[i] < lo
  {
    if admits[0] >= lo then 0 else 1 + FirstAtLeast(admits[1..], lo)
  }

  /** Flow-creation rate: in every run and over every window of `hi - lo` seconds, at most R plus R
      for each second new flows are admitted, where R is the configured rate. */
  lemma FlowCreationRate(o: Options, start: real, es: seq<Event>, s: State, lo: real, hi: real)
    requires Run(Initial(o, start), es, s) && lo <= hi
    ensures var rate := Defaults(o).newFlowsPerSecond as real;
            Count(s.admits, lo, hi) as real <= rate + rate * (hi - lo)
  {
    InitialInv(o, start);
    RateRun(Initial(o, start), es, s);
    InvRun(Initial(o, start), es, s);
    CountAllowed(s.opt.newFlowsPerSecond as real, s.admits, lo, hi);
  }
}

/** What a caller of `getConn` and of `NewUDPSession` gets (internal/client/client.go). */
module LifecycleProgress {
  import opened Bytes
  import opened Lifecycle

  lemma RunCons(s: State, e: Event, es: seq<Event>, s': State)
    requires Enabled(s, e) && Run(Apply(s, e), es, s')
    ensures Run(s, [e] + es, s')
  {
    assert ([e] + es)[1..] == es;
  }

  lemma RunNone(s: State)
    ensures Run(s, [], s)
  {
  }

  // ---- Connections ---------------------------------------------------------------------------

  /** A caller that looks while a connection is live gets that connection. */
  lemma LiveIsGot(s: State, k: nat, c: ConnId) returns (es: seq<Event>, s': State)
    requires k in s.callers && s.callers[k].Looking?
    requires s.link.live == Some(c) && c !in s.lost && !s.link.stopped
    ensures Run(s, es, s') && es == [Look(k), Choose(k)] && k in s'.callers && s'.callers[k] == Got(c)
  {
    var s1 := Apply(s, Look(k));
    s' := Apply(s1, Choose(k));
    RunNone(s');
    RunCons(s1, Choose(k), [], s');
    RunCons(s, Look(k), [Choose(k)] + [], s');
    es := [Look(k)] + ([Choose(k)] + []);
  }

  lemma WokenByConnection(s: State, k: nat, c: ConnId)
    requires Inv(s) && Enabled(s, Connected(c)) && c !in s.lost && Blocked(s, k)
    ensures var s1 := Apply(s, Connected(c));
            && Enabled(s1, Wake(k))
            && var s2 := Apply(s1, Wake(k));
            && k in s2.callers && s2.callers[k].Looking?
            && s2.link.live == Some(c) && c !in s2.lost && !s2.link.stopped
  {
    assert CallerOk(s, s.callers[k]);
  }

  /** A blocked caller gets the next connection. */
  lemma BlockedGetsNext(s: State, k: nat, c: ConnId) returns (es: seq<Event>, s': State)
    requires Reachable(s) && Enabled(s, Connected(c)) && c !in s.lost && Blocked(s, k)
    ensures Run(s, es, s') && k in s'.callers && s'.callers[k] == Got(c)
  {
    ReachableInv(s);
    WokenByConnection(s, k, c);
    var s1 := Apply(s, Connected(c));
    var s2 := Apply(s1, Wake(k));
    var rest;
    rest, s' := LiveIsGot(s2, k, c);
    RunCons(s1, Wake(k), rest, s');
    RunCons(s, Connected(c), [Wake(k)] + rest, s');
    es := [Connected(c)] + ([Wake(k)] + rest);
  }

  /** Whoever was told that the client is closed was told the truth, and so was every creation in progress. */
  ghost predicate Honest(s: State)
  {
    && (forall k :: k in s.callers && (s.callers[k].Refused? || (s.callers[k].Saw? && s.callers[k].stopped)) ==> s.link.stopped)
    && (forall k :: k in s.creators && s.creators[k].Knows? && s.creators[k].stopped ==> s.link.stopped)
  }

  lemma HonestStep(s: State, e: Event)
    requires Honest(s) && Enabled(s, e)
    ensures Honest(Apply(s, e))
  {
  }

  lemma {:induction false} HonestRun(s: State, es: seq<Event>, s': State)
    requires Honest(s) && Run(s, es, s')
    ensures Honest(s')
    decreases |es|
  {
    if |es| > 0 {
      HonestStep(s, es[0]);
      HonestRun(Apply(s, es[0]), es[1..], s');
    }
  }

  lemma ReachableHonest(s: State)
    requires Reachable(s)
    ensures Honest(s)
  {
    var n, es :| Run(Initial(n), es, s);
    HonestRun(Initial(n), es, s);
  }

  /** No call of `getConn` fails as closed unless the client has stopped. */
  lemma RefusedOnlyStopped(s: State, k: nat)
    requires Reachable(s) && k in s.callers && s.callers[k].Refused?
    ensures s.link.stopped
  {
    ReachableHonest(s);
  }

  /** What a caller is handed was set by `Run` and was not known to be lost. */
  lemma GotIsAlive(s: State, e: Event, k: nat, c: ConnId)
    requires Reachable(s) && Enabled(s, e) && k in Apply(s, e).callers && Apply(s, e).callers[k] == Got(c)
    requires !(k in s.callers && s.callers[k] == Got(c))
    ensures e == Choose(k) && c in s.everLive && c !in s.lost
  {
    ReachableInv(s);
    if k in s.callers { assert CallerOk(s, s.callers[k]); }
  }

  // ---- Sessions ------------------------------------------------------------------------------

  /** A session is refused exactly if the client was known to have stopped, which it then has, or the table is full. */
  lemma RefusedExactly(s: State, k: nat)
    requires Reachable(s) && Enabled(s, FinishCreate(k))
    ensures var s' := Apply(s, FinishCreate(k));
            && (s'.creators[k].Created? ==> s'.routes == s.routes + {s'.creators[k].id} && s'.creators[k].id !in s.routes)
            && (!s'.creators[k].Created? ==> s'.creators[k].Rejected? && s'.routes == s.routes)
            && (s'.creators[k].Rejected? ==> s.link.stopped || |s.routes| == s.maxSessions)
            && (|s.routes| == s.maxSessions ==> s'.creators[k].Rejected?)
  {
    ReachableHonest(s);
    ReachableInv(s);
  }

  /** While the client runs and the table has room, a session can be opened. */
  lemma SessionOpens(s: State, k: nat) returns (es: seq<Event>, s': State)
    requires Enabled(s, LockUdp(k)) && !s.link.stopped && |s.routes| < s.maxSessions
    ensures Run(s, es, s') && k in s'.creators && s'.creators[k].Created? && s'.routes == s.routes + {s'.creators[k].id}
  {
    var s1 := Apply(s, LockUdp(k));
    var s2 := Apply(s1, ReadStopped(k));
    s' := Apply(s2, FinishCreate(k));
    RunNone(s');
    RunCons(s2, FinishCreate(k), [], s');
    RunCons(s1, ReadStopped(k), [FinishCreate(k)] + [], s');
    RunCons(s, LockUdp(k), [ReadStopped(k)] + ([FinishCreate(k)] + []), s');
    es := [LockUdp(k)] + ([ReadStopped(k)] + ([FinishCreate(k)] + []));
  }

  /** What is in the table was handed out and is not done. */
  ghost predicate TableAlive(s: State)
  {
    s.routes !! s.stoppedSessions && forall id :: id in s.routes || id in s.stoppedSessions ==> 1 <= id <= s.seqNo
  }

  lemma AliveStep(s: State, e: Event)
    requires TableAlive(s) && Enabled(s, e)
    ensures TableAlive(Apply(s, e))
  {
  }

  lemma {:induction false} AliveRun(s: State, es: seq<Event>, s': State)
    requires TableAlive(s) && Run(s, es, s')
    ensures TableAlive(s')
    decreases |es|
  {
    if |es| > 0 {
      AliveStep(s, es[0]);
      AliveRun(Apply(s, es[0]), es[1..], s');
    }
  }

  /** In every reachable state no session in the table is done: only closing it or the sweep ends one. */
  lemma RoutedAreAlive(s: State)
    requires Reachable(s)
    ensures TableAlive(s)
  {
    var n, es :| Run(Initial(n), es, s);
    AliveRun(Initial(n), es, s);
  }

  /** The session is done and out of the table. */
  ghost predicate Over(s: State, id: nat)
  {
    1 <= id <= s.seqNo && id in s.stoppedSessions && id !in s.routes
  }

  lemma OverStep(s: State, e: Event, id: nat)
    requires Over(s, id) && Enabled(s, e)
    ensures Over(Apply(s, e), id)
  {
  }

  lemma {:induction false} OverRun(s: State, es: seq<Event>, s': State, id: nat)
    requires Over(s, id) && Run(s, es, s')
    ensures Over(s', id)
    decreases |es|
  {
    if |es| > 0 {
      OverStep(s, es[0], id);
      OverRun(Apply(s, es[0]), es[1..], s', id);
    }
  }

  /** Closing a session ends it for good, whatever happens next, and leaves the others alone. */
  lemma ClosedForGood(s: State, id: nat, es: seq<Event>, s': State)
    requires Enabled(s, CloseSession(id)) && Run(Apply(s, CloseSession(id)), es, s')
    ensures Over(s', id)
    ensures Apply(s, CloseSession(id)).routes == s.routes - {id}
    ensures Apply(s, CloseSession(id)).stoppedSessions == s.stoppedSessions + {id}
  {
    OverRun(Apply(s, CloseSession(id)), es, s', id);
  }
}

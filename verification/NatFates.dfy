/** What the accounts of internal/server/udp.go promise about each datagram, over every run. */
module NatFates {
  import opened Bytes
  import opened NatTables
  import opened NatMachine
  import opened NatAccounts

  /** The datagram is with the receive loop, in a queue, or in a worker's hands. */
  ghost predicate InFlight(s: State, id: nat)
  {
    || (!s.receiver.Resting? && s.receiver.d.id == id)
    || (exists i :: 0 <= i < |s.queue| && s.queue[i].id == id)
    || (exists i :: 0 <= i < |s.packets| && s.packets[i].d.id == id)
    || (exists p :: p in s.procs && Hand(s.procs[p]) == Some(id))
  }

  ghost predicate Logged(s: State, id: nat)
  {
    exists i :: 0 <= i < |s.log| && s.log[i].0 == id
  }

  lemma PlaceDecides(s: State, id: nat)
    requires Accounts(s) && id < s.received
    ensures InFlight(s, id) <==> s.place[id] != Accounted && s.place[id] != Lost
    ensures Logged(s, id) <==> s.place[id] == Accounted
  {
    match s.place[id]
    case With(p) => assert Hand(s.procs[p]) == Some(id);
    case _ =>
  }

  /** Every datagram handed to the NAT is accounted at most once; as long as the NAT is not cancelled
      it is either still in flight or accounted exactly once. */
  lemma AccountedOnce(s: State)
    requires Reachable(s)
    ensures forall i, j :: 0 <= i < j < |s.log| ==> s.log[i].0 != s.log[j].0
    ensures forall i :: 0 <= i < |s.log| ==> s.log[i].0 < s.received && !InFlight(s, s.log[i].0)
    ensures forall id :: 0 <= id < s.received && !s.cancelled ==> InFlight(s, id) || Logged(s, id)
  {
    ReachableSound(s);
    forall id | 0 <= id < s.received && !s.cancelled ensures InFlight(s, id) || Logged(s, id) {
      PlaceDecides(s, id);
    }
    forall i | 0 <= i < |s.log| ensures s.log[i].0 < s.received && !InFlight(s, s.log[i].0) {
      assert At(s.place, s.log[i].0, Accounted);
      PlaceDecides(s, s.log[i].0);
    }
  }

  // ---- Lost without an account ---------------------------------------------------------------

  /** Exactly when a step loses a datagram: a worker finds the context cancelled right after taking
      it, or finds the NAT closed at its next critical section with no dial error to report. */
  ghost predicate Loses(s: State, e: Event, id: nat)
  {
    match e
    case Begin(p) => p in s.procs && Hand(s.procs[p]) == Some(id) && s.cancelled
    case Decide(p) => p in s.procs && Hand(s.procs[p]) == Some(id) && s.t.closed
    case DialDone(p, result) => p in s.procs && Hand(s.procs[p]) == Some(id) && s.t.closed && result.Dialled?
    case WriteLock(p) => p in s.procs && Hand(s.procs[p]) == Some(id) && s.t.closed
    case _ => false
  }

  predicate Dropped(s: State, s': State, id: nat)
  {
    id in s'.place && s'.place[id] == Lost && !(id in s.place && s.place[id] == Lost)
  }

  lemma DecideLoses(s: State, p: nat, d: Datagram, id: nat)
    requires Sound(s) && JobOf(s, p) == Some(Deciding(d))
    ensures Dropped(s, DoDecide(s, p, d), id) <==> id == d.id && s.t.closed
  {
    AdmitShape(s.opt, s.t, d.key, s.now);
    var (t, a) := Admit(s.opt, s.t, d.key, s.now);
    assert At(s.place, d.id, With(p)) by { assert Hand(s.procs[p]) == Some(d.id); }
    DecidedLoses(s.(t := t), p, d, a, id);
  }

  lemma DecidedLoses(s: State, p: nat, d: Datagram, a: Admission, id: nat)
    requires JobOf(s, p) == Some(Deciding(d)) && At(s.place, d.id, With(p))
    ensures Dropped(s, Decided(s, p, d, a), id) <==> id == d.id && a.Closed?
  {
  }

  lemma BeginLoses(s: State, p: nat, job: Job, id: nat)
    requires Sound(s) && JobOf(s, p) == Some(job) && (job.TookNew? || job.TookPacket?)
    ensures Dropped(s, DoBegin(s, p, job), id) <==> id == job.d.id && s.cancelled
  {
    assert Hand(s.procs[p]) == Some(job.d.id);
    assert At(s.place, job.d.id, With(p));
  }

  lemma DialDonePlaces(s: State, p: nat, d: Datagram, result: DialResult)
    requires JobOf(s, p) == Some(Dialing(d))
    ensures s.t.closed && result.Dialled? ==> DoDialDone(s, p, d, result).place == s.place[d.id := Lost]
    ensures !(s.t.closed && result.Dialled?) ==>
            DoDialDone(s, p, d, result).place == s.place || DoDialDone(s, p, d, result).place == s.place[d.id := Accounted]
  {
  }

  lemma DialDoneLoses(s: State, p: nat, d: Datagram, result: DialResult, id: nat)
    requires Sound(s) && JobOf(s, p) == Some(Dialing(d))
    ensures Dropped(s, DoDialDone(s, p, d, result), id) <==> id == d.id && s.t.closed && result.Dialled?
  {
    assert At(s.place, d.id, With(p)) by { assert Hand(s.procs[p]) == Some(d.id); }
    DialDonePlaces(s, p, d, result);
  }

  lemma WriteLockLoses(s: State, p: nat, d: Datagram, flow: FlowId, id: nat)
    requires Sound(s) && JobOf(s, p) == Some(Writing(d, flow))
    ensures Dropped(s, DoWriteLock(s, p, d, flow), id) <==> id == d.id && s.t.closed
  {
    assert Hand(s.procs[p]) == Some(d.id);
    assert At(s.place, d.id, With(p));
  }

  predicate NeverLoses(e: Event)
  {
    !e.Begin? && !e.Decide? && !e.DialDone? && !e.WriteLock?
  }

  predicate OfReceiver(e: Event)
  {
    e.Receive? || e.Gate? || e.Check? || e.Lookup? || e.Enqueue?
  }

  /** The log only grows, and once authenticated never by a missing authentication. */
  predicate LogStep(s: State, s': State)
  {
    && |s.log| <= |s'.log| <= |s.log| + 1 && s'.log[..|s.log|] == s.log
    && (s.authed ==> s'.authed && forall i :: |s.log| <= i < |s'.log| ==> s'.log[i].1 != DropAuth)
  }

  lemma DropReceivedQuiet(s: State, d: nat, fate: Fate, id: nat)
    requires fate == DropAuth ==> !s.authed
    ensures LogStep(s, DropReceived(s, d, fate)) && !Dropped(s, DropReceived(s, d, fate), id)
  {
  }

  lemma GateQuiet(s: State, d: Datagram, id: nat)
    ensures LogStep(s, DoGate(s, d)) && !Dropped(s, DoGate(s, d), id)
  {
    if !s.authed { DropReceivedQuiet(s, d.id, DropAuth, id); }
    DropReceivedQuiet(s, d.id, DropSize, id);
    DropReceivedQuiet(s, d.id, DropInvalid, id);
  }

  lemma CheckQuiet(s: State, d: Datagram, id: nat)
    ensures LogStep(s, DoCheck(s, d)) && !Dropped(s, DoCheck(s, d), id)
  {
    if !s.authed { DropReceivedQuiet(s, d.id, DropAuth, id); }
    DropReceivedQuiet(s, d.id, DropSize, id);
    DropReceivedQuiet(s, d.id, DropClosed, id);
  }

  lemma EnqueueQuiet(s: State, d: Datagram, flow: Option<FlowId>, id: nat)
    ensures LogStep(s, DoEnqueue(s, d, flow)) && !Dropped(s, DoEnqueue(s, d, flow), id)
  {
    DropReceivedQuiet(s, d.id, DropQueue, id);
  }

  lemma ReceiverQuiet(s: State, e: Event, id: nat)
    requires Enabled(s, e) && OfReceiver(e)
    ensures LogStep(s, Apply(s, e)) && !Dropped(s, Apply(s, e), id)
  {
    match e
    case Receive(_, _, _, _) =>
    case Gate => GateQuiet(s, s.receiver.d, id);
    case Check => CheckQuiet(s, s.receiver.d, id);
    case Lookup =>
    case Enqueue => EnqueueQuiet(s, s.receiver.d, s.receiver.flow, id);
  }

  lemma OthersLoseNothing(s: State, e: Event, id: nat)
    requires Enabled(s, e) && NeverLoses(e) && !OfReceiver(e)
    ensures !Dropped(s, Apply(s, e), id)
  {
  }

  lemma LosesIff(s: State, e: Event, id: nat)
    requires Sound(s) && Enabled(s, e) && !NeverLoses(e)
    ensures Dropped(s, Apply(s, e), id) <==> Loses(s, e, id)
  {
    match e
    case Begin(p) => BeginLoses(s, p, JobOf(s, p).value, id);
    case Decide(p) => DecideLoses(s, p, JobOf(s, p).value.d, id);
    case DialDone(p, result) => DialDoneLoses(s, p, JobOf(s, p).value.d, result, id);
    case WriteLock(p) => WriteLockLoses(s, p, JobOf(s, p).value.d, JobOf(s, p).value.flow, id);
  }

  /** A datagram goes missing in a step iff its worker hits one of the guards above, so never before
      cancellation. */
  lemma LostExactly(s: State, e: Event, id: nat)
    requires Sound(s) && Enabled(s, e)
    ensures Dropped(s, Apply(s, e), id) <==> Loses(s, e, id)
    ensures Loses(s, e, id) ==> s.cancelled
  {
    if OfReceiver(e) {
      ReceiverQuiet(s, e, id);
    } else if NeverLoses(e) {
      OthersLoseNothing(s, e, id);
    } else {
      LosesIff(s, e, id);
    }
  }

  // ---- Authentication ------------------------------------------------------------------------

  lemma DecideLogs(s: State, p: nat, d: Datagram)
    requires JobOf(s, p).Some?
    ensures LogStep(s, DoDecide(s, p, d))
  {
    var (t, a) := Admit(s.opt, s.t, d.key, s.now);
    DecidedLogs(s.(t := t), p, d, a);
  }

  lemma DecidedLogs(s: State, p: nat, d: Datagram, a: Admission)
    requires JobOf(s, p).Some?
    ensures LogStep(s, Decided(s, p, d, a))
  {
  }

  lemma DialDoneLogs(s: State, p: nat, d: Datagram, result: DialResult)
    requires Enabled(s, DialDone(p, result)) && JobOf(s, p) == Some(Dialing(d))
    ensures LogStep(s, DoDialDone(s, p, d, result))
  {
  }

  lemma WorkersLog(s: State, e: Event)
    requires Enabled(s, e) && !OfReceiver(e) && !e.Decide? && !e.DialDone?
    ensures LogStep(s, Apply(s, e))
  {
  }

  lemma LogGrows(s: State, e: Event)
    requires Enabled(s, e)
    ensures LogStep(s, Apply(s, e))
  {
    if e.Decide? {
      DecideLogs(s, e.p, JobOf(s, e.p).value.d);
    } else if e.DialDone? {
      DialDoneLogs(s, e.p, JobOf(s, e.p).value.d, e.result);
    } else if OfReceiver(e) {
      ReceiverQuiet(s, e, 0);
    } else {
      WorkersLog(s, e);
    }
  }

  lemma {:induction false} LogGrowsOverRun(s: State, es: seq<Event>, s': State)
    requires Run(s, es, s')
    ensures |s.log| <= |s'.log| && s'.log[..|s.log|] == s.log
    ensures s.authed ==> forall i :: |s.log| <= i < |s'.log| ==> s'.log[i].1 != DropAuth
    decreases |es|
  {
    if es != [] {
      var s1 := Apply(s, es[0]);
      LogGrows(s, es[0]);
      LogGrowsOverRun(s1, es[1..], s');
      assert s'.log[..|s.log|] == s'.log[..|s1.log|][..|s.log|];
      forall i | s.authed && |s.log| <= i < |s'.log| ensures s'.log[i].1 != DropAuth {
        if i < |s1.log| { assert s'.log[i] == s'.log[..|s1.log|][i]; }
      }
    }
  }

  lemma GateBeforeAuth(s: State, es: seq<Event>, s': State)
    requires Sound(s) && s.receiver.Arrived? && !s.authed && Run(Apply(s, Gate), es, s')
    ensures |s.log| < |s'.log| && s'.log[|s.log|] == (s.receiver.d.id, DropAuth)
  {
    var s1 := Apply(s, Gate);
    LogGrowsOverRun(s1, es, s');
    assert s1.log[|s.log|] == (s.receiver.d.id, DropAuth);
    assert s'.log[|s.log|] == s'.log[..|s1.log|][|s.log|];
  }

  lemma NotYetLogged(s: State, i: nat)
    requires Sound(s) && !s.receiver.Resting? && i < |s.log|
    ensures s.log[i].0 != s.receiver.d.id
  {
    assert At(s.place, s.log[i].0, Accounted);
  }

  lemma OnlyOneAccount(s: State, i: nat, j: nat)
    requires Sound(s) && i < |s.log| && j < |s.log| && s.log[i].0 == s.log[j].0
    ensures i == j
  {
  }

  /** The gate decides for good: a datagram that reaches it before authentication is accounted as
      unauthenticated and is never sent, in any continuation; one that reaches it later never is
      dropped for authentication. */
  lemma GateDecides(s: State, es: seq<Event>, s': State, i: nat)
    requires Reachable(s) && s.receiver.Arrived? && Run(Apply(s, Gate), es, s')
    requires i < |s'.log| && s'.log[i].0 == s.receiver.d.id
    ensures s'.log[i].1 == DropAuth <==> !s.authed
  {
    ReachableSound(s);
    SoundStep(s, Gate);
    SoundRun(Apply(s, Gate), es, s');
    if !s.authed {
      GateBeforeAuth(s, es, s');
      OnlyOneAccount(s', i, |s.log|);
    } else {
      GateAfterAuth(s, es, s', i);
    }
  }

  lemma GateAfterAuth(s: State, es: seq<Event>, s': State, i: nat)
    requires Sound(s) && s.receiver.Arrived? && s.authed && Run(Apply(s, Gate), es, s')
    requires i < |s'.log| && s'.log[i].0 == s.receiver.d.id
    ensures s'.log[i].1 != DropAuth
  {
    var s1 := Apply(s, Gate);
    LogGrows(s, Gate);
    LogGrowsOverRun(s1, es, s');
    if i < |s1.log| {
      assert s'.log[i] == s'.log[..|s1.log|][i] == s1.log[i];
      if i < |s.log| {
        assert s1.log[i] == s1.log[..|s.log|][i] == s.log[i];
        NotYetLogged(s, i);
      }
    }
  }

  /** Before authentication nothing was queued, taken or sent. */
  lemma NothingBeforeAuth(s: State)
    requires Reachable(s) && !s.authed
    ensures s.queue == [] && s.packets == [] && forall p :: p in s.procs ==> Hand(s.procs[p]).None?
    ensures forall i :: 0 <= i < |s.log| ==> s.log[i].1 == DropAuth
  {
    ReachableSound(s);
  }
}

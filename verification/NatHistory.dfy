/** Where the accounts of internal/server/udp.go come from: every datagram accounted as sent was received, passed
    the gate authenticated, passed the checks and was written to its own flow, in that order. */
module NatHistory {
  import opened Bytes
  import opened NatTables
  import opened NatMachine
  import opened NatAccounts
  import opened NatFates
  import opened NatRouting
  import opened NatTrace
  import opened NatBehind
  import opened NatLosses

  // ---- How a datagram moves on ---------------------------------------------------------------

  ghost predicate Apart(s: State, d: Datagram)
  {
    BehindOk(s, x => x != d)
  }

  /** `d` has passed the checks of `forward`. */
  ghost predicate PastCheck(s: State, d: Datagram)
  {
    || !Apart(s, d)
    || s.receiver == Checked(d)
    || (s.receiver.Routed? && s.receiver.d == d)
  }

  /** The receive loop's own steps. */
  lemma GateReceiver(s: State, d: Datagram)
    ensures DoGate(s, d).receiver == if s.authed && !d.oversize && d.wellFormed then Gated(d) else Resting
  {
  }

  lemma CheckReceiver(s: State, d: Datagram)
    ensures DoCheck(s, d).receiver == if s.authed && d.size <= s.opt.maxPayload && !s.cancelled then Checked(d) else Resting
  {
  }

  lemma EnqueueReceiver(s: State, d: Datagram, flow: Option<FlowId>)
    ensures DoEnqueue(s, d, flow).receiver == Resting
  {
  }

  lemma OthersReceive(s: State, e: Event)
    requires Enabled(s, e) && !OfReceiver(e)
    ensures Apply(s, e).receiver == s.receiver
  {
    if OfProc(e) {
      QueuesAfter(s, e);
    }
  }

  /** The receive loop after a step. */
  lemma ReceiverAfter(s: State, e: Event)
    requires Enabled(s, e)
    ensures Apply(s, e).receiver ==
            match e
            case Receive(oversize, wellFormed, key, size) => Arrived(Datagram(s.received, oversize, wellFormed, key, size))
            case Gate => (var d := s.receiver.d; if s.authed && !d.oversize && d.wellFormed then Gated(d) else Resting)
            case Check =>
              (var d := s.receiver.d; if s.authed && d.size <= s.opt.maxPayload && !s.cancelled then Checked(d) else Resting)
            case Lookup => Apply(s, e).receiver
            case Enqueue => Resting
            case _ => s.receiver
  {
    match e
    case Gate => GateReceiver(s, s.receiver.d);
    case Check => CheckReceiver(s, s.receiver.d);
    case Enqueue => EnqueueReceiver(s, s.receiver.d, s.receiver.flow);
    case _ => if !OfReceiver(e) { OthersReceive(s, e); }
  }

  lemma LookupReceiver(s: State)
    requires Enabled(s, Lookup)
    ensures Apply(s, Lookup).receiver.Routed? && Apply(s, Lookup).receiver.d == s.receiver.d
  {
  }

  /** The conditions under which each stage is passed. */
  ghost predicate Receives(s: State, e: Event, d: Datagram)
  {
    e == Receive(d.oversize, d.wellFormed, d.key, d.size) && d.id == s.received
  }

  ghost predicate PassesGate(s: State, e: Event, d: Datagram)
  {
    e == Gate && s.receiver == Arrived(d) && s.authed && !d.oversize && d.wellFormed
  }

  ghost predicate PassesCheck(s: State, e: Event, d: Datagram)
  {
    e == Check && s.receiver == Gated(d) && s.authed && d.size <= s.opt.maxPayload && !s.cancelled
  }

  lemma NewlyArrived(s: State, e: Event, d: Datagram)
    requires Enabled(s, e) && Apply(s, e).receiver == Arrived(d) && s.receiver != Arrived(d)
    ensures Receives(s, e, d)
  {
    ReceiverAfter(s, e);
    if e.Lookup? { LookupReceiver(s); }
  }

  lemma NewlyGated(s: State, e: Event, d: Datagram)
    requires Enabled(s, e) && Apply(s, e).receiver == Gated(d) && s.receiver != Gated(d)
    ensures PassesGate(s, e, d)
  {
    ReceiverAfter(s, e);
    if e.Lookup? { LookupReceiver(s); }
  }

  lemma NewlyChecked(s: State, e: Event, d: Datagram)
    requires Enabled(s, e) && PastCheck(Apply(s, e), d) && !PastCheck(s, d)
    ensures PassesCheck(s, e, d)
  {
    BehindStep(s, e, x => x != d);
    ReceiverAfter(s, e);
    if e.Lookup? { LookupReceiver(s); }
  }

  // ---- Back through a run --------------------------------------------------------------------

  /** A change happens at some step. */
  lemma {:induction false} LastBefore(f: nat -> bool, n: nat) returns (m: nat)
    requires !f(0) && f(n)
    ensures m < n && !f(m) && f(m + 1)
    decreases n
  {
    if f(n - 1) {
      m := LastBefore(f, n - 1);
    } else {
      m := n - 1;
    }
  }

  ghost predicate HasArrived(s: State, d: Datagram)
  {
    s.receiver == Arrived(d)
  }

  ghost predicate IsGated(s: State, d: Datagram)
  {
    s.receiver == Gated(d)
  }

  lemma ArrivedAt(ss: seq<State>, es: seq<Event>, m: nat, d: Datagram)
    requires Trace(ss, es) && m < |es| && !HasArrived(ss[m], d) && HasArrived(ss[m + 1], d)
    ensures Receives(ss[m], es[m], d)
  {
    StepAt(ss, es, m);
    NewlyArrived(ss[m], es[m], d);
  }

  lemma WhenArrived(ss: seq<State>, es: seq<Event>, n: nat, d: Datagram) returns (m: nat)
    requires Trace(ss, es) && n <= |es| && !HasArrived(ss[0], d) && HasArrived(ss[n], d)
    ensures m < n && Receives(ss[m], es[m], d)
  {
    m := LastBefore((k: nat) => k <= |es| && HasArrived(ss[k], d), n);
    ArrivedAt(ss, es, m, d);
  }

  lemma GatedAt(ss: seq<State>, es: seq<Event>, m: nat, d: Datagram)
    requires Trace(ss, es) && m < |es| && !IsGated(ss[m], d) && IsGated(ss[m + 1], d)
    ensures PassesGate(ss[m], es[m], d)
  {
    StepAt(ss, es, m);
    NewlyGated(ss[m], es[m], d);
  }

  lemma WhenGated(ss: seq<State>, es: seq<Event>, n: nat, d: Datagram) returns (m: nat)
    requires Trace(ss, es) && n <= |es| && !IsGated(ss[0], d) && IsGated(ss[n], d)
    ensures m < n && PassesGate(ss[m], es[m], d)
  {
    m := LastBefore((k: nat) => k <= |es| && IsGated(ss[k], d), n);
    GatedAt(ss, es, m, d);
  }

  lemma CheckedAt(ss: seq<State>, es: seq<Event>, m: nat, d: Datagram)
    requires Trace(ss, es) && m < |es| && !PastCheck(ss[m], d) && PastCheck(ss[m + 1], d)
    ensures PassesCheck(ss[m], es[m], d)
  {
    StepAt(ss, es, m);
    NewlyChecked(ss[m], es[m], d);
  }

  lemma WhenChecked(ss: seq<State>, es: seq<Event>, n: nat, d: Datagram) returns (m: nat)
    requires Trace(ss, es) && n <= |es| && !PastCheck(ss[0], d) && PastCheck(ss[n], d)
    ensures m < n && PassesCheck(ss[m], es[m], d)
  {
    m := LastBefore((k: nat) => k <= |es| && PastCheck(ss[k], d), n);
    CheckedAt(ss, es, m, d);
  }

  // ---- The account a step adds ---------------------------------------------------------------

  function Added(s: State, s': State): Option<(nat, Fate)>
  {
    if |s'.log| == |s.log| + 1 then Some(s'.log[|s.log|]) else None
  }

  lemma GateAdds(s: State, d: Datagram)
    ensures Added(s, DoGate(s, d)) ==
            if !s.authed then Some((d.id, DropAuth)) else if d.oversize then Some((d.id, DropSize))
            else if !d.wellFormed then Some((d.id, DropInvalid)) else None
  {
  }

  lemma CheckAdds(s: State, d: Datagram)
    ensures Added(s, DoCheck(s, d)) ==
            if !s.authed then Some((d.id, DropAuth)) else if d.size > s.opt.maxPayload then Some((d.id, DropSize))
            else if s.cancelled then Some((d.id, DropClosed)) else None
  {
  }

  lemma EnqueueAdds(s: State, d: Datagram, flow: Option<FlowId>)
    ensures var x := Added(s, DoEnqueue(s, d, flow)); x.Some? ==> x.value == (d.id, DropQueue)
  {
  }

  predicate FromWorker(fate: Fate)
  {
    fate in {DropQueue, DropLimit, DropRate, DropAcl, DropDns, DropSend, SentUp}
  }

  lemma DecidedAdds(s: State, p: nat, d: Datagram, a: Admission)
    requires JobOf(s, p).Some?
    ensures var x := Added(s, Decided(s, p, d, a)); x.Some? ==> x.value.0 == d.id && FromWorker(x.value.1) && x.value.1 != SentUp
  {
  }

  lemma DecideAdds(s: State, p: nat, d: Datagram)
    requires JobOf(s, p).Some?
    ensures var x := Added(s, DoDecide(s, p, d)); x.Some? ==> x.value.0 == d.id && FromWorker(x.value.1) && x.value.1 != SentUp
  {
    var (t, a) := Admit(s.opt, s.t, d.key, s.now);
    DecidedAdds(s.(t := t), p, d, a);
    assert Added(s, DoDecide(s, p, d)) == Added(s.(t := t), Decided(s.(t := t), p, d, a));
  }

  lemma DialDoneAdds(s: State, p: nat, d: Datagram, result: DialResult)
    requires Enabled(s, DialDone(p, result)) && JobOf(s, p) == Some(Dialing(d))
    ensures var x := Added(s, DoDialDone(s, p, d, result)); x.Some? ==> x.value.0 == d.id && FromWorker(x.value.1) && x.value.1 != SentUp
  {
  }

  lemma SocketWriteAdds(s: State, p: nat, d: Datagram, ok: bool)
    requires JobOf(s, p).Some?
    ensures Added(s, DoSocketWrite(s, p, d, ok)) == Some((d.id, if ok then SentUp else DropSend))
  {
  }

  lemma OthersAdd(s: State, e: Event)
    requires Enabled(s, e) && !Adds(e)
    ensures Added(s, Apply(s, e)) == None
  {
  }

  /** The datagram a worker's event is about. */
  ghost predicate Works(s: State, e: Event, d: Datagram)
  {
    (e.Decide? || e.DialDone? || e.SocketWrite?) && JobOf(s, e.p).Some? && !JobOf(s, e.p).value.Idle? && JobOf(s, e.p).value.d == d
  }

  /** Whoever adds an account has the datagram in hand, and the account fits it. */
  ghost predicate Accounting(s: State, e: Event, d: Datagram, fate: Fate)
  {
    || (e == Gate && s.receiver == Arrived(d) &&
        (fate == DropAuth || (fate == DropSize && d.oversize) || (fate == DropInvalid && !d.oversize && !d.wellFormed)))
    || (e == Check && s.receiver == Gated(d) &&
        (fate == DropAuth || fate == DropClosed || (fate == DropSize && d.size > s.opt.maxPayload)))
    || (e == Enqueue && s.receiver.Routed? && s.receiver.d == d && fate == DropQueue)
    || (Works(s, e, d) && FromWorker(fate) && (fate == SentUp <==> e.SocketWrite? && e.ok))
  }

  predicate Adds(e: Event)
  {
    e.Gate? || e.Check? || e.Enqueue? || e.Decide? || e.DialDone? || e.SocketWrite?
  }

  lemma ReceiverAdds(s: State, e: Event, id: nat, fate: Fate)
    requires Enabled(s, e) && (e.Gate? || e.Check? || e.Enqueue?) && Added(s, Apply(s, e)) == Some((id, fate))
    ensures s.receiver.d.id == id && Accounting(s, e, s.receiver.d, fate)
  {
    match e
    case Gate => GateAdds(s, s.receiver.d);
    case Check => CheckAdds(s, s.receiver.d);
    case Enqueue => EnqueueAdds(s, s.receiver.d, s.receiver.flow);
  }

  lemma WorkerAdds(s: State, e: Event, id: nat, fate: Fate)
    requires Enabled(s, e) && (e.Decide? || e.DialDone? || e.SocketWrite?) && Added(s, Apply(s, e)) == Some((id, fate))
    ensures JobOf(s, e.p).value.d.id == id && Accounting(s, e, JobOf(s, e.p).value.d, fate)
  {
    var d := JobOf(s, e.p).value.d;
    match e
    case Decide(p) => DecideAdds(s, p, d);
    case DialDone(p, result) => DialDoneAdds(s, p, d, result);
    case SocketWrite(p, ok) => SocketWriteAdds(s, p, d, ok);
  }

  lemma WhoAdds(s: State, e: Event, id: nat, fate: Fate) returns (d: Datagram)
    requires Enabled(s, e) && Added(s, Apply(s, e)) == Some((id, fate))
    ensures d.id == id && Accounting(s, e, d, fate)
  {
    if !Adds(e) {
      OthersAdd(s, e);
    }
    if e.Gate? || e.Check? || e.Enqueue? {
      ReceiverAdds(s, e, id, fate);
      d := s.receiver.d;
    } else {
      WorkerAdds(s, e, id, fate);
      d := JobOf(s, e.p).value.d;
    }
  }

  /** The step at which entry `k` of the log was added. */
  lemma WhenLogged(ss: seq<State>, es: seq<Event>, n: nat, k: nat) returns (m: nat)
    requires Trace(ss, es) && n <= |es| && |ss[0].log| <= k < |ss[n].log|
    ensures m < n && Added(ss[m], ss[m + 1]) == Some(ss[n].log[k])
  {
    m := LastBefore((i: nat) => i <= |es| && k < |ss[i].log|, n);
    LoggedAt(ss, es, m, k);
    LogKept(ss, es, m + 1, n, k);
  }

  lemma LoggedAt(ss: seq<State>, es: seq<Event>, m: nat, k: nat)
    requires Trace(ss, es) && m < |es| && |ss[m].log| <= k < |ss[m + 1].log|
    ensures Added(ss[m], ss[m + 1]) == Some(ss[m + 1].log[k])
  {
    StepAt(ss, es, m);
    LogGrows(ss[m], es[m]);
  }

  lemma LogKeptOnce(ss: seq<State>, es: seq<Event>, m: nat, k: nat)
    requires Trace(ss, es) && m < |es| && k < |ss[m].log|
    ensures k < |ss[m + 1].log| && ss[m + 1].log[k] == ss[m].log[k]
  {
    var t, t' := ss[m], ss[m + 1];
    StepAt(ss, es, m);
    LogGrows(t, es[m]);
    assert t'.log[k] == t'.log[..|t.log|][k];
  }

  lemma {:induction false} LogKept(ss: seq<State>, es: seq<Event>, m: nat, n: nat, k: nat)
    requires Trace(ss, es) && m <= n <= |es| && k < |ss[m].log|
    ensures k < |ss[n].log| && ss[n].log[k] == ss[m].log[k]
    decreases n
  {
    if m < n {
      LogKept(ss, es, m, n - 1, k);
      LogKeptOnce(ss, es, n - 1, k);
    }
  }

  // ---- What a maintainer gets ----------------------------------------------------------------

  lemma NothingAtStart(o: Options, now: real, d: Datagram)
    ensures !PastCheck(Initial(o, now), d) && !IsGated(Initial(o, now), d) && !HasArrived(Initial(o, now), d)
  {
  }

  /** A run from the start, with all its states. */
  ghost predicate FromStart(o: Options, now: real, ss: seq<State>, es: seq<Event>)
  {
    Trace(ss, es) && ss[0] == Initial(o, now)
  }

  /** The three stages of the receive loop, in order and before step `w`. */
  ghost predicate CameThrough(ss: seq<State>, es: seq<Event>, w: nat, d: Datagram, i: nat, j: nat, m: nat)
    requires w <= |es| < |ss|
  {
    i < j < m < w && Receives(ss[i], es[i], d) && PassesGate(ss[j], es[j], d) && PassesCheck(ss[m], es[m], d)
  }

  lemma Stages(o: Options, now: real, ss: seq<State>, es: seq<Event>, w: nat, d: Datagram) returns (i: nat, j: nat, m: nat)
    requires FromStart(o, now, ss, es) && w <= |es| && PastCheck(ss[w], d)
    ensures CameThrough(ss, es, w, d, i, j, m)
  {
    NothingAtStart(o, now, d);
    m := WhenChecked(ss, es, w, d);
    j := WhenGated(ss, es, m, d);
    i := WhenArrived(ss, es, j, d);
  }

  lemma HeldIsPast(s: State, p: nat, job: Job)
    requires JobOf(s, p) == Some(job) && !job.Idle?
    ensures PastCheck(s, job.d)
  {
    if Apart(s, job.d) {
      InHandOk(s, p, job, x => x != job.d);
    }
  }

  /** A successful write, to the open socket of the flow the table then holds for the datagram's key. */
  ghost predicate WritesOwn(s: State, e: Event, d: Datagram)
  {
    && e.SocketWrite? && e.ok
    && JobOf(s, e.p).Some? && JobOf(s, e.p).value.Sending? && JobOf(s, e.p).value.d == d
    && JobOf(s, e.p).value.flow in s.sockets
    && d.key in s.t.flows && s.t.flows[d.key] == JobOf(s, e.p).value.flow
  }

  lemma ReachableAt(o: Options, now: real, ss: seq<State>, es: seq<Event>, n: nat)
    requires FromStart(o, now, ss, es) && n <= |es|
    ensures Reachable(ss[n])
  {
    PrefixRuns(ss, es, n);
  }

  lemma WriteStep(s: State, e: Event, d: Datagram)
    requires Reachable(s) && Enabled(s, e) && Accounting(s, e, d, SentUp)
    ensures WritesOwn(s, e, d) && PastCheck(s, d)
  {
    WritesReachOwnFlow(s, e.p);
    HeldIsPast(s, e.p, JobOf(s, e.p).value);
  }

  /** Over every run from the start, each account of a datagram as sent has behind it, in this order: the receipt of
      that very datagram, the gate passed while authenticated, the checks passed with a payload within the limit,
      and a successful write to the socket of the flow then held for its own key. */
  lemma SentHasHistory(o: Options, now: real, ss: seq<State>, es: seq<Event>, k: nat)
    returns (d: Datagram, i: nat, j: nat, m: nat, w: nat)
    requires FromStart(o, now, ss, es) && k < |ss[|es|].log| && ss[|es|].log[k].1 == SentUp
    ensures d.id == ss[|es|].log[k].0 && w < |es|
    ensures CameThrough(ss, es, w, d, i, j, m) && WritesOwn(ss[w], es[w], d)
  {
    w := WhenLogged(ss, es, |es|, k);
    StepAt(ss, es, w);
    d := WhoAdds(ss[w], es[w], ss[|es|].log[k].0, SentUp);
    ReachableAt(o, now, ss, es, w);
    WriteStep(ss[w], es[w], d);
    i, j, m := Stages(o, now, ss, es, w, d);
  }

  lemma OptStays(s: State, e: Event)
    requires Enabled(s, e)
    ensures Apply(s, e).opt == s.opt
  {
  }

  lemma {:induction false} OptAt(ss: seq<State>, es: seq<Event>, n: nat)
    requires Trace(ss, es) && n <= |es|
    ensures ss[n].opt == ss[0].opt
    decreases n
  {
    if n > 0 {
      OptAt(ss, es, n - 1);
      StepAt(ss, es, n - 1);
      OptStays(ss[n - 1], es[n - 1]);
    }
  }

  /** What an account says about the datagram. */
  predicate Fits(maxPayload: int, d: Datagram, fate: Fate)
  {
    match fate
    case DropAuth => true
    case DropInvalid => !d.oversize && !d.wellFormed
    case DropSize => d.oversize || d.size > maxPayload
    case DropClosed => !d.oversize && d.wellFormed
    case _ => !d.oversize && d.wellFormed && d.size <= maxPayload
  }

  /** The datagram had been received before `w`. */
  lemma ArrivedBefore(o: Options, now: real, ss: seq<State>, es: seq<Event>, w: nat, d: Datagram, fate: Fate) returns (i: nat)
    requires FromStart(o, now, ss, es) && w < |es| && Accounting(ss[w], es[w], d, fate)
    ensures i < w && Receives(ss[i], es[i], d) && Fits(ss[0].opt.maxPayload, d, fate)
  {
    NothingAtStart(o, now, d);
    OptAt(ss, es, w);
    if HasArrived(ss[w], d) && es[w] == Gate {
      i := WhenArrived(ss, es, w, d);
    } else if IsGated(ss[w], d) && es[w] == Check {
      var j := WhenGated(ss, es, w, d);
      i := WhenArrived(ss, es, j, d);
    } else {
      if Works(ss[w], es[w], d) { HeldIsPast(ss[w], es[w].p, JobOf(ss[w], es[w].p).value); }
      var j, m;
      i, j, m := Stages(o, now, ss, es, w, d);
      OptAt(ss, es, m);
    }
  }

  /** Over every run from the start, each account is about a datagram that was received before, and fits what was
      received: nothing well formed and within the limits is ever dropped as invalid or oversized, and nothing else
      ever reaches admission, a socket or their reasons. */
  lemma AccountsFit(o: Options, now: real, ss: seq<State>, es: seq<Event>, k: nat) returns (d: Datagram, i: nat, w: nat)
    requires FromStart(o, now, ss, es) && k < |ss[|es|].log|
    ensures d.id == ss[|es|].log[k].0 && i < w < |es| && Receives(ss[i], es[i], d)
    ensures Fits(Defaults(o).maxPayload, d, ss[|es|].log[k].1)
  {
    var fate := ss[|es|].log[k].1;
    w := WhenLogged(ss, es, |es|, k);
    StepAt(ss, es, w);
    d := WhoAdds(ss[w], es[w], ss[|es|].log[k].0, fate);
    i := ArrivedBefore(o, now, ss, es, w, d, fate);
  }

  /** A datagram that meets the gate before authentication is out for good: in every continuation its only account
      is the missing authentication, and no worker ever has it in hand, so it is never written. */
  lemma GatedOutForGood(s: State, es: seq<Event>, s': State, p: nat)
    requires Reachable(s) && s.receiver.Arrived? && !s.authed && Run(Apply(s, Gate), es, s')
    ensures !InFlight(s', s.receiver.d.id) && Logged(s', s.receiver.d.id)
    ensures p in s'.procs ==> Hand(s'.procs[p]) != Some(s.receiver.d.id)
    ensures forall k :: 0 <= k < |s'.log| && s'.log[k].0 == s.receiver.d.id ==> s'.log[k].1 == DropAuth
  {
    var id := s.receiver.d.id;
    var s1 := Apply(s, Gate);
    ReachableSound(s);
    SoundStep(s, Gate);
    GateSettles(s);
    SettledForGood(s1, es, s', id);
    SoundRun(s1, es, s');
    PlaceDecides(s', id);
    forall k | 0 <= k < |s'.log| && s'.log[k].0 == id ensures s'.log[k].1 == DropAuth {
      GateDecides(s, es, s', k);
    }
  }

  lemma GateSettles(s: State)
    requires s.receiver.Arrived? && !s.authed
    ensures At(Apply(s, Gate).place, s.receiver.d.id, Accounted)
  {
  }
}

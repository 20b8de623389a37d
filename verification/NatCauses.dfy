/** Why internal/server/udp.go drops a datagram: over every run each account has its cause, in the situation at the
    step that adds it. */
module NatCauses {
  import opened Bytes
  import opened NatTables
  import opened NatMachine
  import opened NatSafety
  import opened NatTrace
  import opened NatHistory
  import opened NatOrder
  import opened NatBucket

  /** The queue the receive loop would put its datagram in is full. */
  predicate QueueFull(s: State)
  {
    s.receiver.Routed? && (if s.receiver.flow.Some? then |s.packets| else |s.queue|) == s.opt.queueSize
  }

  /** Another worker is dialling for the key. */
  ghost predicate DialledByOther(s: State, p: nat, key: Key)
  {
    exists q :: q in s.procs && q != p && Dials(s.procs[q]) && s.procs[q].job.d.key == key
  }

  /** The datagram that the step is about: with the receive loop, or in the worker's hands. */
  ghost predicate About(s: State, e: Event, d: Datagram)
  {
    ((e.Gate? || e.Check? || e.Enqueue?) && !s.receiver.Resting? && s.receiver.d == d) || Works(s, e, d)
  }

  /** What is the case when the account `fate` is added for `d`. */
  ghost predicate Caused(s: State, e: Event, d: Datagram, fate: Fate)
  {
    match fate
    case DropAuth => !s.authed
    case DropSize => d.oversize || d.size > s.opt.maxPayload
    case DropInvalid => !d.wellFormed
    case DropClosed => s.cancelled
    case DropQueue => (e.Enqueue? && QueueFull(s)) || (e.Decide? && DialledByOther(s, e.p, d.key))
    case DropLimit =>
      || (e.Decide? && |s.t.flows| + |s.t.pending| == s.opt.maxFlows)
      || (e.DialDone? && e.result == DialFailed(DropLimit))
    case DropRate => e.Decide? && Overspent(s.opt.newFlowsPerSecond as real, s.admits, s.now)
    case DropAcl => e.DialDone? && e.result == DialFailed(DropAcl)
    case DropDns => e.DialDone? && e.result == DialFailed(DropDns)
    case DropSend => (e.DialDone? && e.result == Dialled(false)) || (e.SocketWrite? && !e.ok)
    case SentUp => e.SocketWrite? && e.ok
  }

  lemma ReceiverCause(s: State, e: Event, id: nat, fate: Fate)
    requires Reachable(s) && Enabled(s, e) && (e.Gate? || e.Check?) && Added(s, Apply(s, e)) == Some((id, fate))
    ensures s.receiver.d.id == id && Caused(s, e, s.receiver.d, fate)
  {
    match e
    case Gate => GateAdds(s, s.receiver.d);
    case Check => CheckAdds(s, s.receiver.d);
  }

  lemma EnqueueDrops(s: State, d: Datagram, flow: Option<FlowId>)
    ensures Added(s, DoEnqueue(s, d, flow)) ==
            if (if flow.Some? then |s.packets| else |s.queue|) < s.opt.queueSize then None else Some((d.id, DropQueue))
  {
  }

  lemma EnqueueCause(s: State, id: nat, fate: Fate)
    requires Reachable(s) && Enabled(s, Enqueue) && Added(s, Apply(s, Enqueue)) == Some((id, fate))
    ensures s.receiver.d.id == id && Caused(s, Enqueue, s.receiver.d, fate)
  {
    EnqueueDrops(s, s.receiver.d, s.receiver.flow);
    QueuesInOrder(s);
  }

  lemma PendingIsDialled(s: State, p: nat, d: Datagram)
    requires Reachable(s) && JobOf(s, p) == Some(Deciding(d)) && d.key in s.t.pending
    ensures DialledByOther(s, p, d.key)
  {
    ReachableInv(s);
    assert d.key in s.dialer.Keys;
    assert s.dialer[d.key] != p;
  }

  lemma DecideCause(s: State, p: nat, d: Datagram, id: nat, fate: Fate)
    requires Reachable(s) && JobOf(s, p) == Some(Deciding(d)) && Added(s, DoDecide(s, p, d)) == Some((id, fate))
    ensures d.id == id && Caused(s, Decide(p), d, fate)
  {
    AdmissionExactly(s, p, d);
    NatBounded(s);
    if d.key in s.t.pending { PendingIsDialled(s, p, d); }
  }

  lemma DialDoneDrops(s: State, p: nat, d: Datagram, result: DialResult)
    requires JobOf(s, p) == Some(Dialing(d))
    ensures result.DialFailed? ==> Added(s, DoDialDone(s, p, d, result)) == Some((d.id, result.reason))
    ensures result.Dialled? ==>
            Added(s, DoDialDone(s, p, d, result)) == if !s.t.closed && !result.udp then Some((d.id, DropSend)) else None
  {
  }

  lemma DialDoneCause(s: State, p: nat, d: Datagram, result: DialResult, id: nat, fate: Fate)
    requires Enabled(s, DialDone(p, result)) && JobOf(s, p) == Some(Dialing(d))
    requires Added(s, DoDialDone(s, p, d, result)) == Some((id, fate))
    ensures d.id == id && Caused(s, DialDone(p, result), d, fate)
  {
    DialDoneDrops(s, p, d, result);
  }

  lemma WorkerCause(s: State, e: Event, d: Datagram, id: nat, fate: Fate)
    requires Reachable(s) && Enabled(s, e) && (e.Decide? || e.DialDone? || e.SocketWrite?)
    requires d == JobOf(s, e.p).value.d && Added(s, Apply(s, e)) == Some((id, fate))
    ensures d.id == id && Caused(s, e, d, fate)
  {
    match e
    case Decide(p) => DecideCause(s, p, d, id, fate);
    case DialDone(p, result) => DialDoneCause(s, p, d, result, id, fate);
    case SocketWrite(p, ok) => SocketWriteAdds(s, p, d, ok);
  }

  lemma StepCause(s: State, e: Event, id: nat, fate: Fate) returns (d: Datagram)
    requires Reachable(s) && Enabled(s, e) && Added(s, Apply(s, e)) == Some((id, fate))
    ensures d.id == id && About(s, e, d) && Caused(s, e, d, fate)
  {
    if !Adds(e) {
      OthersAdd(s, e);
    }
    if e.Gate? || e.Check? {
      ReceiverCause(s, e, id, fate);
      d := s.receiver.d;
    } else if e.Enqueue? {
      EnqueueCause(s, id, fate);
      d := s.receiver.d;
    } else {
      d := JobOf(s, e.p).value.d;
      WorkerCause(s, e, d, id, fate);
    }
  }

  /** Over every run from the start each account has its cause: nothing is dropped as unauthenticated once the
      connection is, as over a limit that was not reached, as throttled within the rate, for a full queue with
      room in it, for a closed NAT before it was cancelled, or for a dial or a write that did not fail. */
  lemma EveryAccountHasItsCause(o: Options, now: real, ss: seq<State>, es: seq<Event>, k: nat) returns (m: nat, d: Datagram)
    requires FromStart(o, now, ss, es) && k < |ss[|es|].log|
    ensures m < |es| && Added(ss[m], ss[m + 1]) == Some(ss[|es|].log[k])
    ensures d.id == ss[|es|].log[k].0 && About(ss[m], es[m], d) && Caused(ss[m], es[m], d, ss[|es|].log[k].1)
  {
    m := WhenLogged(ss, es, |es|, k);
    StepAt(ss, es, m);
    ReachableAt(o, now, ss, es, m);
    d := StepCause(ss[m], es[m], ss[|es|].log[k].0, ss[|es|].log[k].1);
  }
}

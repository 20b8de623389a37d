/** Isolation of flows in internal/server/udp.go: a payload is only ever written to the socket of the
    current flow of its own session and destination, however flows come and go meanwhile. */
module NatRouting {
  import opened Bytes
  import opened NatTables
  import opened NatMachine
  import opened NatSafety

  // ---- Flows in hand -------------------------------------------------------------------------

  /** If flow `f` still has a goroutine, that is the pump of a flow of key `k`. Its id is used up. */
  ghost predicate BelongsTo(procs: map<nat, Proc>, nextProc: nat, f: FlowId, k: Key)
  {
    f < nextProc && (f in procs ==> procs[f].Pump? && procs[f].key == k)
  }

  /** The flow a job is about to write to. */
  function FlowOf(job: Job): Option<FlowId>
  {
    match job
    case TookPacket(_, flow) => Some(flow)
    case Writing(_, flow) => Some(flow)
    case Sending(_, flow) => Some(flow)
    case _ => None
  }

  ghost predicate ReceiverRouted(s: State)
  {
    s.receiver.Routed? && s.receiver.flow.Some? ==> BelongsTo(s.procs, s.nextProc, s.receiver.flow.value, s.receiver.d.key)
  }

  ghost predicate PacketsRouted(s: State)
  {
    forall i :: 0 <= i < |s.packets| ==> BelongsTo(s.procs, s.nextProc, s.packets[i].flow, s.packets[i].d.key)
  }

  ghost predicate JobRouted(procs: map<nat, Proc>, nextProc: nat, proc: Proc)
  {
    !proc.Pump? && FlowOf(proc.job).Some? ==> BelongsTo(procs, nextProc, FlowOf(proc.job).value, proc.job.d.key)
  }

  ghost predicate JobsRouted(s: State)
  {
    forall p :: p in s.procs ==> JobRouted(s.procs, s.nextProc, s.procs[p])
  }

  ghost predicate Routed(s: State)
  {
    ReceiverRouted(s) && PacketsRouted(s) && JobsRouted(s)
  }

  /** Goroutines that existed keep being what they were, or are gone. */
  ghost predicate Continues(procs: map<nat, Proc>, procs': map<nat, Proc>, nextProc: nat)
  {
    forall f :: f in procs' && f < nextProc ==>
      f in procs && (procs[f].Pump? ==> procs'[f].Pump? && procs'[f].key == procs[f].key)
  }

  lemma StillBelongs(procs: map<nat, Proc>, nextProc: nat, procs': map<nat, Proc>, nextProc': nat, f: FlowId, k: Key)
    requires BelongsTo(procs, nextProc, f, k) && Continues(procs, procs', nextProc) && nextProc <= nextProc'
    ensures BelongsTo(procs', nextProc', f, k)
  {
  }

  /** What a step does to the goroutines and the flows in hand: at most one worker gets a new job, for a flow
      that belongs to its datagram. */
  ghost predicate Steps(s: State, s': State, p: nat)
  {
    && Continues(s.procs, s'.procs, s.nextProc) && s.nextProc <= s'.nextProc
    && (forall q :: q in s'.procs && q != p && !s'.procs[q].Pump? ==> q in s.procs && s'.procs[q] == s.procs[q])
    && (p in s'.procs ==> JobRouted(s'.procs, s'.nextProc, s'.procs[p]))
  }

  lemma JobsStay(s: State, s': State, p: nat)
    requires JobsRouted(s) && Steps(s, s', p)
    ensures JobsRouted(s')
  {
    forall q | q in s'.procs ensures JobRouted(s'.procs, s'.nextProc, s'.procs[q]) {
      if q != p && !s'.procs[q].Pump? && FlowOf(s'.procs[q].job).Some? {
        assert JobRouted(s.procs, s.nextProc, s.procs[q]);
        StillBelongs(s.procs, s.nextProc, s'.procs, s'.nextProc, FlowOf(s'.procs[q].job).value, s'.procs[q].job.d.key);
      }
    }
  }

  lemma TableBelongs(s: State, k: Key)
    requires Inv(s) && k in s.t.flows
    ensures BelongsTo(s.procs, s.nextProc, s.t.flows[k], k)
  {
    assert CoreOf(s).t.flows[k] in s.procs;
  }

  // ---- Every event ---------------------------------------------------------------------------

  /** One worker gets a job and nothing else changes among the goroutines. */
  lemma RejobSteps(s: State, s': State, p: nat, job: Job)
    requires JobOf(s, p).Some? && s'.procs == s.procs[p := WithJob(s.procs[p], job)] && s'.nextProc == s.nextProc
    requires FlowOf(job).Some? ==> BelongsTo(s.procs, s.nextProc, FlowOf(job).value, job.d.key)
    ensures Steps(s, s', p)
  {
    assert Continues(s.procs, s'.procs, s.nextProc);
    if FlowOf(job).Some? {
      StillBelongs(s.procs, s.nextProc, s'.procs, s'.nextProc, FlowOf(job).value, job.d.key);
    }
  }

  /** The flow of the job in hand belongs to its datagram. */
  lemma InHand(s: State, p: nat, job: Job)
    requires JobsRouted(s) && JobOf(s, p) == Some(job) && FlowOf(job).Some?
    ensures BelongsTo(s.procs, s.nextProc, FlowOf(job).value, job.d.key)
  {
    assert JobRouted(s.procs, s.nextProc, s.procs[p]);
  }

  lemma TakeSteps(s: State, p: nat)
    requires PacketsRouted(s) && Enabled(s, Take(p))
    ensures Steps(s, DoTake(s, p), p)
  {
    if s.procs[p].Worker? {
      RejobSteps(s, DoTake(s, p), p, TookNew(s.queue[0]));
    } else {
      assert BelongsTo(s.procs, s.nextProc, s.packets[0].flow, s.packets[0].d.key);
      RejobSteps(s, DoTake(s, p), p, TookPacket(s.packets[0].d, s.packets[0].flow));
    }
  }

  lemma BeginSteps(s: State, p: nat, job: Job)
    requires JobsRouted(s) && JobOf(s, p) == Some(job) && (job.TookNew? || job.TookPacket?)
    ensures Steps(s, DoBegin(s, p, job), p)
  {
    var s' := DoBegin(s, p, job);
    if s.cancelled || (job.TookNew? && !s.authed) {
      RejobSteps(s, s', p, Idle);
    } else if job.TookNew? {
      RejobSteps(s, s', p, Deciding(job.d));
    } else {
      InHand(s, p, job);
      RejobSteps(s, s', p, Writing(job.d, job.flow));
    }
  }

  lemma DecideSteps(s: State, p: nat, d: Datagram)
    requires Inv(s) && JobOf(s, p).Some?
    ensures Steps(s, DoDecide(s, p, d), p)
  {
    var (t, a) := Admit(s.opt, s.t, d.key, s.now);
    if a.Existing? {
      TableBelongs(s, d.key);
    }
    DecidedSteps(s, s.(t := t), p, d, a);
  }

  lemma DecidedSteps(s: State, r: State, p: nat, d: Datagram, a: Admission)
    requires JobOf(s, p).Some? && r == s.(t := r.t)
    requires a.Existing? ==> BelongsTo(s.procs, s.nextProc, a.flow, d.key)
    ensures Steps(s, Decided(r, p, d, a), p)
  {
    match a
    case Existing(flow) => RejobSteps(s, Decided(r, p, d, a), p, Writing(d, flow));
    case Admitted => RejobSteps(s, Decided(r, p, d, a), p, Dialing(d));
    case _ => RejobSteps(s, Decided(r, p, d, a), p, Idle);
  }

  lemma DialDoneSteps(s: State, p: nat, d: Datagram, result: DialResult)
    requires Inv(s) && JobOf(s, p) == Some(Dialing(d))
    ensures Steps(s, DoDialDone(s, p, d, result), p)
  {
    var s' := DoDialDone(s, p, d, result);
    if result == Dialled(true) && !s.t.closed {
      FlowCore(s, p, d);
      assert CoreOf(s').procs == s'.procs && CoreOf(s').nextProc == s'.nextProc;
      NewFlowSteps(s, s', p, d);
    } else {
      NoFlowCore(s, p, d, result);
      assert CoreOf(s').procs == s'.procs && CoreOf(s').nextProc == s'.nextProc;
      RejobSteps(s, s', p, Idle);
    }
  }

  lemma NewFlowSteps(s: State, s': State, p: nat, d: Datagram)
    requires JobOf(s, p).Some? && p < s.nextProc
    requires s'.procs == s.procs[p := WithJob(s.procs[p], Writing(d, s.nextProc))][s.nextProc := Pump(d.key, Pumping)]
    requires s'.nextProc == s.nextProc + 1
    ensures Steps(s, s', p)
  {
  }

  lemma WriteLockSteps(s: State, p: nat, d: Datagram, flow: FlowId)
    requires JobsRouted(s) && JobOf(s, p) == Some(Writing(d, flow))
    ensures Steps(s, DoWriteLock(s, p, d, flow), p)
  {
    if s.t.closed {
      RejobSteps(s, DoWriteLock(s, p, d, flow), p, Idle);
    } else {
      InHand(s, p, Writing(d, flow));
      RejobSteps(s, DoWriteLock(s, p, d, flow), p, Sending(d, flow));
    }
  }

  lemma SocketWriteSteps(s: State, p: nat, d: Datagram, ok: bool)
    requires JobOf(s, p).Some?
    ensures Steps(s, DoSocketWrite(s, p, d, ok), p)
  {
    RejobSteps(s, DoSocketWrite(s, p, d, ok), p, Idle);
  }

  lemma ExitSteps(s: State, p: nat)
    ensures Steps(s, Exit(s, p), p)
  {
  }

  lemma PumpSteps(s: State, s': State, p: nat, phase: Phase)
    requires p in s.procs && s.procs[p].Pump?
    requires s'.procs == s.procs[p := s.procs[p].(phase := phase)] && s'.nextProc == s.nextProc
    ensures Steps(s, s', p)
  {
  }

  /** Events of one goroutine. */
  predicate OfProc(e: Event)
  {
    JobOnly(e) || e.Decide? || e.DialDone? || e.WorkerExit? || e.PumpLeave? || e.PumpRetire? || e.PumpExit?
  }

  lemma ProcSteps(s: State, e: Event)
    requires Inv(s) && Routed(s) && Enabled(s, e) && OfProc(e)
    ensures Steps(s, Apply(s, e), e.p)
  {
    match e
    case Take(p) => TakeSteps(s, p);
    case Begin(p) => BeginSteps(s, p, JobOf(s, p).value);
    case Decide(p) => DecideSteps(s, p, JobOf(s, p).value.d);
    case DialDone(p, result) => DialDoneSteps(s, p, JobOf(s, p).value.d, result);
    case WriteLock(p) => WriteLockSteps(s, p, JobOf(s, p).value.d, JobOf(s, p).value.flow);
    case SocketWrite(p, ok) => SocketWriteSteps(s, p, JobOf(s, p).value.d, ok);
    case WorkerExit(p) => ExitSteps(s, p);
    case PumpExit(p) => ExitSteps(s, p);
    case PumpLeave(p) => PumpSteps(s, Apply(s, e), p, Leaving);
    case PumpRetire(p) => PumpSteps(s, Apply(s, e), p, Gone);
  }

  predicate SameQueues(s: State, s': State)
  {
    s'.receiver == s.receiver && s'.packets == s.packets
  }

  lemma DecideQueues(s: State, p: nat, d: Datagram)
    requires JobOf(s, p).Some?
    ensures SameQueues(s, DoDecide(s, p, d))
  {
    var (t, a) := Admit(s.opt, s.t, d.key, s.now);
    DecidedQueues(s.(t := t), p, d, a);
  }

  lemma DecidedQueues(s: State, p: nat, d: Datagram, a: Admission)
    requires JobOf(s, p).Some?
    ensures SameQueues(s, Decided(s, p, d, a))
  {
  }

  lemma DialDoneQueues(s: State, p: nat, d: Datagram, result: DialResult)
    requires JobOf(s, p).Some?
    ensures SameQueues(s, DoDialDone(s, p, d, result)) && DoDialDone(s, p, d, result).queue == s.queue
  {
  }

  lemma TakeQueues(s: State, p: nat)
    requires Enabled(s, Take(p))
    ensures var s' := DoTake(s, p);
            s'.receiver == s.receiver && (s'.packets == s.packets || (s.packets != [] && s'.packets == s.packets[1..]))
  {
  }

  lemma OtherQueues(s: State, e: Event)
    requires Enabled(s, e) && OfProc(e) && !e.Decide? && !e.DialDone? && !e.Take?
    ensures SameQueues(s, Apply(s, e))
  {
  }

  lemma QueuesAfter(s: State, e: Event)
    requires Enabled(s, e) && OfProc(e)
    ensures Apply(s, e).receiver == s.receiver
    ensures Apply(s, e).packets == s.packets || (s.packets != [] && Apply(s, e).packets == s.packets[1..])
  {
    if e.Decide? {
      DecideQueues(s, e.p, JobOf(s, e.p).value.d);
    } else if e.DialDone? {
      DialDoneQueues(s, e.p, JobOf(s, e.p).value.d, e.result);
    } else if e.Take? {
      TakeQueues(s, e.p);
    } else {
      OtherQueues(s, e);
    }
  }

  lemma WaitingStay(s: State, s': State)
    requires ReceiverRouted(s) && PacketsRouted(s) && s'.receiver == s.receiver
    requires s'.packets == s.packets || (s.packets != [] && s'.packets == s.packets[1..])
    requires Continues(s.procs, s'.procs, s.nextProc) && s.nextProc <= s'.nextProc
    ensures ReceiverRouted(s') && PacketsRouted(s')
  {
    forall i | 0 <= i < |s'.packets| ensures BelongsTo(s'.procs, s'.nextProc, s'.packets[i].flow, s'.packets[i].d.key) {
      var j := if s'.packets == s.packets then i else i + 1;
      assert s'.packets[i] == s.packets[j];
      StillBelongs(s.procs, s.nextProc, s'.procs, s'.nextProc, s.packets[j].flow, s.packets[j].d.key);
    }
    if s.receiver.Routed? && s.receiver.flow.Some? {
      StillBelongs(s.procs, s.nextProc, s'.procs, s'.nextProc, s.receiver.flow.value, s.receiver.d.key);
    }
  }

  lemma EnqueueRouted(s: State, d: Datagram, flow: Option<FlowId>)
    requires Routed(s) && (flow.Some? ==> BelongsTo(s.procs, s.nextProc, flow.value, d.key))
    ensures Routed(DoEnqueue(s, d, flow))
  {
    EnqueueCore(s, d, flow);
    var s' := DoEnqueue(s, d, flow);
    assert CoreOf(s').procs == s'.procs && CoreOf(s').nextProc == s'.nextProc;
    assert s'.receiver.Resting?;
    assert s'.packets == s.packets || (flow.Some? && s'.packets == s.packets + [Packet(d, flow.value)]);
  }

  /** Steps that touch neither the goroutines nor the packet queue, and route nothing. */
  lemma QuietRouted(s: State, s': State)
    requires Routed(s) && s'.procs == s.procs && s'.nextProc == s.nextProc && s'.packets == s.packets
    requires s'.receiver == s.receiver || !s'.receiver.Routed?
    ensures Routed(s')
  {
  }

  lemma QuietStep(s: State, e: Event)
    requires Enabled(s, e) && !OfProc(e) && !e.Enqueue? && !e.Lookup?
    ensures var s' := Apply(s, e);
            && s'.procs == s.procs && s'.nextProc == s.nextProc && s'.packets == s.packets
            && (s'.receiver == s.receiver || !s'.receiver.Routed?)
  {
  }

  lemma RoutedStep(s: State, e: Event)
    requires Inv(s) && Routed(s) && Enabled(s, e)
    ensures Routed(Apply(s, e))
  {
    var s' := Apply(s, e);
    if OfProc(e) {
      ProcSteps(s, e);
      JobsStay(s, s', e.p);
      QueuesAfter(s, e);
      WaitingStay(s, s');
    } else if e.Enqueue? {
      EnqueueRouted(s, s.receiver.d, s.receiver.flow);
    } else if e.Lookup? {
      if s.receiver.d.key in s.t.flows { TableBelongs(s, s.receiver.d.key); }
    } else {
      QuietStep(s, e);
      QuietRouted(s, s');
    }
  }

  lemma {:induction false} RoutedRun(s: State, es: seq<Event>, s': State)
    requires Inv(s) && Routed(s) && Run(s, es, s')
    ensures Inv(s') && Routed(s')
    decreases |es|
  {
    if es != [] {
      InvStep(s, es[0]);
      RoutedStep(s, es[0]);
      RoutedRun(Apply(s, es[0]), es[1..], s');
    }
  }

  lemma ReachableRouted(s: State)
    requires Reachable(s)
    ensures Inv(s) && Routed(s)
  {
    var o, now, es :| Run(Initial(o, now), es, s);
    InitialInv(o, now);
    RoutedRun(Initial(o, now), es, s);
  }

  /** A successful write goes to the open socket of the flow that the table now holds for the datagram's own
      key, whatever happened to that flow since the datagram was routed. */
  lemma WritesReachOwnFlow(s: State, p: nat)
    requires Reachable(s) && Enabled(s, SocketWrite(p, true))
    ensures var job := JobOf(s, p).value;
            && job.flow in s.sockets && job.flow in s.procs && s.procs[job.flow] == Pump(job.d.key, Pumping)
            && job.d.key in s.t.flows && s.t.flows[job.d.key] == job.flow
  {
    ReachableRouted(s);
    var job := JobOf(s, p).value;
    InHand(s, p, job);
    assert CoreOf(s).sockets == s.sockets && LivePump(s.procs[job.flow]);
  }
}

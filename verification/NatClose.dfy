/** `close` in internal/server/udp.go returns: once the NAT is closed, every goroutine it waits for always has a
    step to take, and together they have only so many left. */
module NatClose {
  import opened Bytes
  import opened NatTables
  import opened NatMachine
  import opened NatSafety
  import opened NatRouting

  /** Steps a goroutine has left on its own in a closed NAT. */
  function StepsOf(proc: Proc): nat
  {
    match proc
    case Worker(job) => if job.Idle? then 1 else 2
    case PacketWorker(job) => if job.Idle? then 1 else 2
    case Pump(_, phase) => match phase { case Pumping => 3 case Leaving => 2 case Gone => 1 }
  }

  /** The same for the goroutines with ids below `n`. */
  function StepsBelow(procs: map<nat, Proc>, n: nat): nat
  {
    if n == 0 then 0 else StepsBelow(procs, n - 1) + if n - 1 in procs then StepsOf(procs[n - 1]) else 0
  }

  /** A datagram past the checks can still be enqueued; later ones are turned away. */
  function StepsOfReceiver(r: Receiver): nat
  {
    match r
    case Checked(_) => 4
    case Routed(_, _) => 3
    case _ => 0
  }

  function StepsLeft(s: State): nat
  {
    StepsBelow(s.procs, s.nextProc) + 2 * |s.queue| + 2 * |s.packets| + StepsOfReceiver(s.receiver)
  }

  /** A step of the NAT's own goroutines, or of the receive loop on its way to a queue. */
  predicate Internal(e: Event)
  {
    OfProc(e) || e.Lookup? || e.Enqueue?
  }

  lemma {:induction false} StepsSame(procs: map<nat, Proc>, procs': map<nat, Proc>, n: nat)
    requires forall q :: 0 <= q < n ==> (q in procs <==> q in procs') && (q in procs ==> procs[q] == procs'[q])
    ensures StepsBelow(procs, n) == StepsBelow(procs', n)
    decreases n
  {
    if n > 0 {
      StepsSame(procs, procs', n - 1);
    }
  }

  lemma {:induction false} StepsUpdate(procs: map<nat, Proc>, p: nat, proc: Proc, n: nat)
    requires p in procs && p < n
    ensures StepsBelow(procs[p := proc], n) + StepsOf(procs[p]) == StepsBelow(procs, n) + StepsOf(proc)
    decreases n
  {
    if p == n - 1 {
      StepsSame(procs, procs[p := proc], n - 1);
    } else {
      StepsUpdate(procs, p, proc, n - 1);
    }
  }

  lemma {:induction false} StepsRemove(procs: map<nat, Proc>, p: nat, n: nat)
    requires p in procs && p < n
    ensures StepsBelow(procs - {p}, n) + StepsOf(procs[p]) == StepsBelow(procs, n)
    decreases n
  {
    if p == n - 1 {
      StepsSame(procs, procs - {p}, n - 1);
    } else {
      StepsRemove(procs, p, n - 1);
    }
  }

  /** The NAT is closed, and so cancelled. */
  ghost predicate IsClosed(s: State)
  {
    Inv(s) && s.t.closed
  }

  lemma ClosedFacts(s: State)
    requires IsClosed(s)
    ensures s.cancelled && forall p :: p in s.procs ==> p < s.nextProc
  {
    assert CoreOf(s).procs == s.procs && CoreOf(s).nextProc == s.nextProc && CoreOf(s).cancelled == s.cancelled;
  }

  /** A worker's turn ends: whatever it held, in a closed NAT it goes back to the queues. */
  lemma TurnEnds(s: State, s': State, p: nat)
    requires JobOf(s, p).Some? && !JobOf(s, p).value.Idle? && p < s.nextProc
    requires s'.procs == s.procs[p := WithJob(s.procs[p], Idle)] && s'.nextProc == s.nextProc
    requires s'.queue == s.queue && SameQueues(s, s')
    ensures StepsLeft(s') < StepsLeft(s)
  {
    StepsUpdate(s.procs, p, WithJob(s.procs[p], Idle), s.nextProc);
  }

  lemma BeginEnds(s: State, p: nat, job: Job)
    requires JobOf(s, p) == Some(job) && (job.TookNew? || job.TookPacket?) && s.cancelled && p < s.nextProc
    ensures StepsLeft(DoBegin(s, p, job)) < StepsLeft(s) && DoBegin(s, p, job).t == s.t
  {
    TurnEnds(s, DoBegin(s, p, job), p);
  }

  lemma DecideEnds(s: State, p: nat, d: Datagram)
    requires JobOf(s, p) == Some(Deciding(d)) && s.t.closed && p < s.nextProc
    ensures StepsLeft(DoDecide(s, p, d)) < StepsLeft(s) && DoDecide(s, p, d).t == s.t
  {
    assert Admit(s.opt, s.t, d.key, s.now) == (s.t, Closed);
    assert s.(t := s.t) == s;
    TurnEnds(s, DoDecide(s, p, d), p);
  }

  lemma DialDoneEnds(s: State, p: nat, d: Datagram, result: DialResult)
    requires JobOf(s, p) == Some(Dialing(d)) && s.t.closed && p < s.nextProc
    ensures StepsLeft(DoDialDone(s, p, d, result)) < StepsLeft(s) && DoDialDone(s, p, d, result).t.closed
  {
    var s' := DoDialDone(s, p, d, result);
    NoFlowCore(s, p, d, result);
    assert CoreOf(s').procs == s'.procs && CoreOf(s').nextProc == s'.nextProc && CoreOf(s').t == s'.t;
    DialDoneQueues(s, p, d, result);
    TurnEnds(s, s', p);
  }

  lemma WriteEnds(s: State, e: Event)
    requires Enabled(s, e) && (e.WriteLock? || e.SocketWrite?) && s.t.closed && e.p < s.nextProc
    ensures StepsLeft(Apply(s, e)) < StepsLeft(s) && Apply(s, e).t == s.t
  {
    TurnEnds(s, Apply(s, e), e.p);
  }

  lemma TakeCounts(s: State, p: nat)
    requires Enabled(s, Take(p)) && p < s.nextProc
    ensures StepsLeft(DoTake(s, p)) < StepsLeft(s) && DoTake(s, p).t == s.t
  {
    if s.procs[p].Worker? {
      StepsUpdate(s.procs, p, Worker(TookNew(s.queue[0])), s.nextProc);
    } else {
      StepsUpdate(s.procs, p, PacketWorker(TookPacket(s.packets[0].d, s.packets[0].flow)), s.nextProc);
    }
  }

  lemma ExitCounts(s: State, p: nat)
    requires p in s.procs && p < s.nextProc
    ensures StepsLeft(Exit(s, p)) < StepsLeft(s)
  {
    StepsRemove(s.procs, p, s.nextProc);
  }

  lemma PumpCounts(s: State, s': State, p: nat, phase: Phase)
    requires p in s.procs && p < s.nextProc && s.procs[p].Pump? && StepsOf(s.procs[p].(phase := phase)) < StepsOf(s.procs[p])
    requires s'.procs == s.procs[p := s.procs[p].(phase := phase)] && s'.nextProc == s.nextProc
    requires s'.queue == s.queue && SameQueues(s, s')
    ensures StepsLeft(s') < StepsLeft(s)
  {
    StepsUpdate(s.procs, p, s.procs[p].(phase := phase), s.nextProc);
  }

  lemma LeaveCounts(s: State, p: nat)
    requires Enabled(s, PumpLeave(p)) && p < s.nextProc
    ensures StepsLeft(Apply(s, PumpLeave(p))) < StepsLeft(s) && Apply(s, PumpLeave(p)).t == s.t
  {
    PumpCounts(s, Apply(s, PumpLeave(p)), p, Leaving);
  }

  lemma RetireCounts(s: State, p: nat)
    requires Enabled(s, PumpRetire(p)) && p < s.nextProc
    ensures StepsLeft(Apply(s, PumpRetire(p))) < StepsLeft(s) && Apply(s, PumpRetire(p)).t.closed == s.t.closed
  {
    PumpCounts(s, Apply(s, PumpRetire(p)), p, Gone);
  }

  lemma EnqueueCounts(s: State, d: Datagram, flow: Option<FlowId>)
    requires s.receiver == Routed(d, flow)
    ensures StepsLeft(DoEnqueue(s, d, flow)) < StepsLeft(s)
  {
    EnqueueCore(s, d, flow);
    var s' := DoEnqueue(s, d, flow);
    assert CoreOf(s').procs == s'.procs && CoreOf(s').nextProc == s'.nextProc;
    assert |s'.queue| + |s'.packets| <= |s.queue| + |s.packets| + 1;
  }

  /** Every step of the NAT's own in a closed NAT counts down. */
  lemma InternalCounts(s: State, e: Event)
    requires IsClosed(s) && Enabled(s, e) && Internal(e)
    ensures StepsLeft(Apply(s, e)) < StepsLeft(s) && Apply(s, e).t.closed
  {
    ClosedFacts(s);
    match e
    case Take(p) => TakeCounts(s, p);
    case Begin(p) => BeginEnds(s, p, JobOf(s, p).value);
    case Decide(p) => DecideEnds(s, p, JobOf(s, p).value.d);
    case DialDone(p, result) => DialDoneEnds(s, p, JobOf(s, p).value.d, result);
    case WriteLock(_) => WriteEnds(s, e);
    case SocketWrite(_, _) => WriteEnds(s, e);
    case WorkerExit(p) => ExitCounts(s, p);
    case PumpExit(p) => ExitCounts(s, p);
    case PumpLeave(p) => LeaveCounts(s, p);
    case PumpRetire(p) => RetireCounts(s, p);
    case Enqueue => EnqueueCounts(s, s.receiver.d, s.receiver.flow);
    case Lookup =>
  }

  /** The others, all outside the NAT, do not set it back: what arrives now is turned away at the checks. */
  lemma OutsideKeeps(s: State, e: Event)
    requires s.t.closed && s.cancelled && Enabled(s, e) && !Internal(e)
    ensures StepsLeft(Apply(s, e)) == StepsLeft(s) && Apply(s, e).t == s.t
  {
  }

  /** Every goroutine `close` waits for has a step. */
  lemma HasStep(s: State, p: nat) returns (e: Event)
    requires s.cancelled && p in s.procs
    ensures OfProc(e) && e.p == p && Enabled(s, e)
  {
    match s.procs[p]
    case Pump(_, phase) =>
      e := match phase { case Pumping => PumpLeave(p) case Leaving => PumpRetire(p) case Gone => PumpExit(p) };
    case _ =>
      e := match JobOf(s, p).value {
        case Idle => WorkerExit(p)
        case TookNew(_) => Begin(p)
        case TookPacket(_, _) => Begin(p)
        case Deciding(_) => Decide(p)
        case Dialing(_) => DialDone(p, Dialled(false))
        case Writing(_, _) => WriteLock(p)
        case Sending(_, _) => SocketWrite(p, false)
      };
  }

  function InternalSteps(es: seq<Event>): nat
  {
    if |es| == 0 then 0 else (if Internal(es[0]) then 1 else 0) + InternalSteps(es[1..])
  }

  lemma {:induction false} CountsDown(s: State, es: seq<Event>, s': State)
    requires IsClosed(s) && Run(s, es, s')
    ensures IsClosed(s') && InternalSteps(es) + StepsLeft(s') <= StepsLeft(s)
    decreases |es|
  {
    if |es| > 0 {
      InvStep(s, es[0]);
      ClosedFacts(s);
      if Internal(es[0]) {
        InternalCounts(s, es[0]);
      } else {
        OutsideKeeps(s, es[0]);
      }
      CountsDown(Apply(s, es[0]), es[1..], s');
    }
  }

  /** `close` returns: from a closed NAT no run has more than `StepsLeft` steps of its goroutines, and as long as
      the wait group is not at zero one of them has a step to take. */
  lemma CloseReturns(s: State, es: seq<Event>, s': State)
    requires Reachable(s) && s.t.closed && Run(s, es, s')
    ensures InternalSteps(es) <= StepsLeft(s)
    ensures s'.wg > 0 ==> exists e :: OfProc(e) && Enabled(s', e)
  {
    ReachableInv(s);
    CountsDown(s, es, s');
    if s'.wg > 0 {
      assert CoreOf(s').wg == s'.wg && CoreOf(s').procs == s'.procs;
      assert s'.procs.Keys != {};
      var p :| p in s'.procs;
      ClosedFacts(s');
      var e := HasStep(s', p);
    }
  }
}

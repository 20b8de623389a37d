/** The two queues of internal/server/udp.go: within their bound, served in the order of arrival, and closed to
    whatever arrives after cancellation. */
module NatOrder {
  import opened Bytes
  import opened NatTables
  import opened NatMachine
  import opened NatSafety
  import opened NatAccounts
  import opened NatFates
  import opened NatRouting
  import opened NatTrace
  import opened NatBehind
  import opened NatHistory

  /** The receive loop, the queues behind it, and whether the context is cancelled. */
  datatype Lines = Lines(receiver: Receiver, received: nat, queue: seq<Datagram>, packets: seq<Packet>, cancelled: bool)

  function LinesOf(s: State): Lines
  {
    Lines(s.receiver, s.received, s.queue, s.packets, s.cancelled)
  }

  /** The receive loop goes on with what it has, puts it down, or receives the next datagram. */
  predicate Goes(l: Lines, l': Lines)
  {
    || (l'.receiver.Resting? && l'.received == l.received)
    || (!l.receiver.Resting? && !l'.receiver.Resting? && l'.receiver.d == l.receiver.d && l'.received == l.received)
    || (l.receiver.Resting? && !l'.receiver.Resting? && l'.receiver.d.id == l.received && l'.received == l.received + 1)
  }

  predicate Pops(l: Lines, l': Lines)
  {
    || (l.queue != [] && l' == l.(queue := l.queue[1..]))
    || (l.packets != [] && l' == l.(packets := l.packets[1..]))
  }

  predicate Pushes(size: int, l: Lines, l': Lines)
  {
    && !l.receiver.Resting?
    && (|| (|l.queue| < size && l' == l.(receiver := Resting, queue := l.queue + [l.receiver.d]))
        || (|l.packets| < size && l.receiver.Routed? && l.receiver.flow.Some?
            && l' == l.(receiver := Resting, packets := l.packets + [Packet(l.receiver.d, l.receiver.flow.value)])))
  }

  predicate Moves(size: int, l: Lines, l': Lines)
  {
    || (Goes(l, l') && l'.queue == l.queue && l'.packets == l.packets && (l.cancelled ==> l'.cancelled))
    || Pops(l, l') || Pushes(size, l, l')
  }

  lemma DropLines(s: State, id: nat, fate: Fate)
    ensures LinesOf(DropReceived(s, id, fate)) == LinesOf(s).(receiver := Resting)
  {
  }

  lemma GateLines(s: State, d: Datagram)
    requires s.receiver == Arrived(d)
    ensures Moves(s.opt.queueSize, LinesOf(s), LinesOf(DoGate(s, d)))
  {
    DropLines(s, d.id, DropAuth);
    DropLines(s, d.id, DropSize);
    DropLines(s, d.id, DropInvalid);
  }

  lemma CheckLines(s: State, d: Datagram)
    requires s.receiver == Gated(d)
    ensures Moves(s.opt.queueSize, LinesOf(s), LinesOf(DoCheck(s, d)))
  {
    DropLines(s, d.id, DropAuth);
    DropLines(s, d.id, DropSize);
    DropLines(s, d.id, DropClosed);
  }

  lemma EnqueueLines(s: State, d: Datagram, flow: Option<FlowId>)
    requires s.receiver == Routed(d, flow)
    ensures Moves(s.opt.queueSize, LinesOf(s), LinesOf(DoEnqueue(s, d, flow)))
  {
    DropLines(s, d.id, DropQueue);
  }

  lemma DecidedLines(s: State, p: nat, d: Datagram, a: Admission)
    requires JobOf(s, p).Some?
    ensures LinesOf(Decided(s, p, d, a)) == LinesOf(s)
  {
  }

  lemma DecideLines(s: State, p: nat, d: Datagram)
    requires JobOf(s, p).Some?
    ensures LinesOf(DoDecide(s, p, d)) == LinesOf(s)
  {
    var (t, a) := Admit(s.opt, s.t, d.key, s.now);
    DecidedLines(s.(t := t), p, d, a);
  }

  lemma DialDoneLines(s: State, p: nat, d: Datagram, result: DialResult)
    requires JobOf(s, p).Some?
    ensures LinesOf(DoDialDone(s, p, d, result)) == LinesOf(s)
  {
  }

  lemma TakeLines(s: State, p: nat)
    requires Enabled(s, Take(p))
    ensures LinesOf(DoTake(s, p)) ==
            if s.procs[p].Worker? then LinesOf(s).(queue := s.queue[1..]) else LinesOf(s).(packets := s.packets[1..])
  {
  }

  lemma OtherLines(s: State, e: Event)
    requires Enabled(s, e) && !OfReceiver(e) && !e.Decide? && !e.DialDone? && !e.Take? && !e.Cancel?
    ensures LinesOf(Apply(s, e)) == LinesOf(s)
  {
  }

  lemma LinesStep(s: State, e: Event)
    requires Enabled(s, e)
    ensures Moves(s.opt.queueSize, LinesOf(s), LinesOf(Apply(s, e)))
  {
    match e
    case Cancel =>
    case Receive(_, _, _, _) =>
    case Gate => GateLines(s, s.receiver.d);
    case Check => CheckLines(s, s.receiver.d);
    case Lookup =>
    case Enqueue => EnqueueLines(s, s.receiver.d, s.receiver.flow);
    case Take(p) => TakeLines(s, p);
    case Decide(p) => DecideLines(s, p, JobOf(s, p).value.d);
    case DialDone(p, result) => DialDoneLines(s, p, JobOf(s, p).value.d, result);
    case _ => OtherLines(s, e);
  }

  // ---- In order and within bounds ------------------------------------------------------------

  /** What is yet to be enqueued is numbered from here on. */
  function Front(l: Lines): nat
  {
    if l.receiver.Resting? then l.received else l.receiver.d.id
  }

  /** The queues hold earlier datagrams before later ones, and at most as many as they may. */
  ghost predicate InOrder(size: int, l: Lines)
  {
    && Front(l) <= l.received && (!l.receiver.Resting? ==> l.receiver.d.id < l.received)
    && |l.queue| <= size && |l.packets| <= size
    && (forall i, j :: 0 <= i < j < |l.queue| ==> l.queue[i].id < l.queue[j].id)
    && (forall i, j :: 0 <= i < j < |l.packets| ==> l.packets[i].d.id < l.packets[j].d.id)
    && (forall i :: 0 <= i < |l.queue| ==> l.queue[i].id < Front(l))
    && (forall i :: 0 <= i < |l.packets| ==> l.packets[i].d.id < Front(l))
  }

  lemma InOrderStep(size: int, l: Lines, l': Lines)
    requires InOrder(size, l) && Moves(size, l, l')
    ensures InOrder(size, l')
  {
  }

  lemma {:induction false} InOrderRun(s: State, es: seq<Event>, s': State)
    requires InOrder(s.opt.queueSize, LinesOf(s)) && Run(s, es, s')
    ensures InOrder(s'.opt.queueSize, LinesOf(s'))
    decreases |es|
  {
    if |es| > 0 {
      var t := Apply(s, es[0]);
      LinesStep(s, es[0]);
      OptStays(s, es[0]);
      InOrderStep(s.opt.queueSize, LinesOf(s), LinesOf(t));
      InOrderRun(t, es[1..], s');
    }
  }

  /** In every reachable state both queues are within their bound and in the order of arrival. */
  lemma QueuesInOrder(s: State)
    requires Reachable(s)
    ensures InOrder(s.opt.queueSize, LinesOf(s))
  {
    var o, now, es :| Run(Initial(o, now), es, s);
    InOrderRun(Initial(o, now), es, s);
  }

  // ---- Served in order -----------------------------------------------------------------------

  /** Every datagram the admission workers have yet to take came after `x`. */
  ghost predicate QueueAfter(l: Lines, x: nat)
  {
    Front(l) > x && forall i :: 0 <= i < |l.queue| ==> l.queue[i].id > x
  }

  ghost predicate PacketsAfter(l: Lines, x: nat)
  {
    Front(l) > x && forall i :: 0 <= i < |l.packets| ==> l.packets[i].d.id > x
  }

  lemma AfterStep(size: int, l: Lines, l': Lines, x: nat)
    requires Moves(size, l, l') && InOrder(size, l)
    ensures QueueAfter(l, x) ==> QueueAfter(l', x)
    ensures PacketsAfter(l, x) ==> PacketsAfter(l', x)
  {
  }

  ghost predicate WorkerTakes(s: State, e: Event, d: Datagram)
  {
    e.Take? && Enabled(s, e) && s.procs[e.p].Worker? && s.queue[0] == d
  }

  lemma QueueAfterTake(s: State, e: Event, d: Datagram)
    requires Reachable(s) && WorkerTakes(s, e, d)
    ensures QueueAfter(LinesOf(Apply(s, e)), d.id)
  {
    QueuesInOrder(s);
    TakeLines(s, e.p);
  }

  lemma LinesAt(o: Options, now: real, ss: seq<State>, es: seq<Event>, n: nat, x: nat)
    requires FromStart(o, now, ss, es) && n < |es|
    ensures QueueAfter(LinesOf(ss[n]), x) ==> QueueAfter(LinesOf(ss[n + 1]), x)
    ensures PacketsAfter(LinesOf(ss[n]), x) ==> PacketsAfter(LinesOf(ss[n + 1]), x)
  {
    ReachableAt(o, now, ss, es, n);
    QueuesInOrder(ss[n]);
    StepAt(ss, es, n);
    LinesStep(ss[n], es[n]);
    AfterStep(ss[n].opt.queueSize, LinesOf(ss[n]), LinesOf(ss[n + 1]), x);
  }

  lemma {:induction false} QueueAfterAt(o: Options, now: real, ss: seq<State>, es: seq<Event>, m: nat, n: nat, x: nat)
    requires FromStart(o, now, ss, es) && m <= n <= |es| && QueueAfter(LinesOf(ss[m]), x)
    ensures QueueAfter(LinesOf(ss[n]), x)
    decreases n
  {
    if m < n {
      QueueAfterAt(o, now, ss, es, m, n - 1, x);
      LinesAt(o, now, ss, es, n - 1, x);
    }
  }

  /** Over every run the admission workers together take datagrams in the order of arrival. */
  lemma TakenInOrder(o: Options, now: real, ss: seq<State>, es: seq<Event>, m: nat, n: nat, d: Datagram, d': Datagram)
    requires FromStart(o, now, ss, es) && m < n < |es|
    requires WorkerTakes(ss[m], es[m], d) && WorkerTakes(ss[n], es[n], d')
    ensures d.id < d'.id
  {
    ReachableAt(o, now, ss, es, m);
    StepAt(ss, es, m);
    QueueAfterTake(ss[m], es[m], d);
    QueueAfterAt(o, now, ss, es, m + 1, n, d.id);
  }

  // ---- The packet worker ---------------------------------------------------------------------

  /** The datagram in the packet worker's hands. */
  function PacketHand(procs: map<nat, Proc>): Option<nat>
  {
    if 0 in procs then Hand(procs[0]) else None
  }

  /** There is one packet worker. */
  ghost predicate OnePacketWorker(procs: map<nat, Proc>)
  {
    (0 in procs ==> procs[0].PacketWorker?) && forall p :: p in procs && procs[p].PacketWorker? ==> p == 0
  }

  /** The packet worker keeps what it has in hand, or puts it down. */
  ghost predicate HandKept(procs: map<nat, Proc>, procs': map<nat, Proc>)
  {
    OnePacketWorker(procs') && (PacketHand(procs').None? || PacketHand(procs') == PacketHand(procs))
  }

  /** Or it takes the first packet. */
  ghost predicate HandFilled(packets: seq<Packet>, procs': map<nat, Proc>)
  {
    OnePacketWorker(procs') && packets != [] && PacketHand(procs') == Some(packets[0].d.id)
  }

  lemma RejobHand(s: State, p: nat, job: Job)
    requires OnePacketWorker(s.procs) && JobOf(s, p).Some?
    requires job.Idle? || Hand(s.procs[p]) == Some(job.d.id)
    ensures HandKept(s.procs, s.procs[p := WithJob(s.procs[p], job)])
  {
  }

  lemma SetJobHand(s: State, p: nat, id: nat, fate: Fate, job: Job)
    requires OnePacketWorker(s.procs) && JobOf(s, p).Some?
    requires job.Idle? || Hand(s.procs[p]) == Some(job.d.id)
    ensures HandKept(s.procs, SetJob(s, p, job).procs)
    ensures HandKept(s.procs, Settle(s, p, id, fate).procs)
    ensures HandKept(s.procs, Abandon(s, p, id).procs)
  {
    JobCores(s, p, id, fate, job);
    RejobHand(s, p, job);
    RejobHand(s, p, Idle);
    assert CoreOf(SetJob(s, p, job)).procs == SetJob(s, p, job).procs;
    assert CoreOf(Settle(s, p, id, fate)).procs == Settle(s, p, id, fate).procs;
    assert CoreOf(Abandon(s, p, id)).procs == Abandon(s, p, id).procs;
  }

  lemma DecidedHand(s: State, p: nat, d: Datagram, a: Admission)
    requires OnePacketWorker(s.procs) && JobOf(s, p) == Some(Deciding(d))
    ensures HandKept(s.procs, Decided(s, p, d, a).procs)
  {
    match a
    case Existing(flow) => SetJobHand(s, p, d.id, SentUp, Writing(d, flow));
    case Admitted => SetJobHand(s, p, d.id, SentUp, Dialing(d));
    case Busy => SetJobHand(s, p, d.id, DropQueue, Idle);
    case AtLimit => SetJobHand(s, p, d.id, DropLimit, Idle);
    case Throttled => SetJobHand(s, p, d.id, DropRate, Idle);
    case Closed => SetJobHand(s, p, d.id, SentUp, Idle);
  }

  lemma DecideHand(s: State, p: nat, d: Datagram)
    requires OnePacketWorker(s.procs) && JobOf(s, p) == Some(Deciding(d))
    ensures HandKept(s.procs, DoDecide(s, p, d).procs)
  {
    var (t, a) := Admit(s.opt, s.t, d.key, s.now);
    DecidedHand(s.(t := t), p, d, a);
  }

  lemma PumpAddsNoHand(procs: map<nat, Proc>, f: nat, pump: Proc)
    requires OnePacketWorker(procs) && f > 0 && pump.Pump?
    ensures OnePacketWorker(procs[f := pump]) && PacketHand(procs[f := pump]) == PacketHand(procs)
  {
  }

  lemma DialDoneHand(s: State, p: nat, d: Datagram, result: DialResult)
    requires OnePacketWorker(s.procs) && JobOf(s, p) == Some(Dialing(d)) && p < s.nextProc
    ensures HandKept(s.procs, DoDialDone(s, p, d, result).procs)
  {
    var s' := DoDialDone(s, p, d, result);
    assert CoreOf(s').procs == s'.procs;
    if result == Dialled(true) && !s.t.closed {
      var procs := s.procs[p := WithJob(s.procs[p], Writing(d, s.nextProc))];
      FlowCore(s, p, d);
      RejobHand(s, p, Writing(d, s.nextProc));
      PumpAddsNoHand(procs, s.nextProc, Pump(d.key, Pumping));
    } else {
      NoFlowCore(s, p, d, result);
      RejobHand(s, p, Idle);
    }
  }

  lemma ProcsUsed(s: State, p: nat)
    requires Inv(s) && p in s.procs
    ensures p < s.nextProc
  {
  }

  lemma TakeHand(s: State, p: nat)
    requires OnePacketWorker(s.procs) && Enabled(s, Take(p))
    ensures HandKept(s.procs, DoTake(s, p).procs) || (p == 0 && HandFilled(s.packets, DoTake(s, p).procs))
  {
  }

  lemma BeginHand(s: State, p: nat, job: Job)
    requires OnePacketWorker(s.procs) && JobOf(s, p) == Some(job) && (job.TookNew? || job.TookPacket?)
    ensures HandKept(s.procs, DoBegin(s, p, job).procs)
  {
    SetJobHand(s, p, job.d.id, SentUp, if job.TookNew? then Deciding(job.d) else Writing(job.d, job.flow));
  }

  lemma WriteHand(s: State, e: Event)
    requires OnePacketWorker(s.procs) && Enabled(s, e) && (e.WriteLock? || e.SocketWrite?)
    ensures HandKept(s.procs, Apply(s, e).procs)
  {
    var job := JobOf(s, e.p).value;
    SetJobHand(s, e.p, job.d.id, if e.SocketWrite? && e.ok then SentUp else DropSend,
               if e.WriteLock? then Sending(job.d, job.flow) else Idle);
  }

  lemma PumpHand(s: State, e: Event)
    requires OnePacketWorker(s.procs) && Enabled(s, e)
    requires e.WorkerExit? || e.PumpLeave? || e.PumpRetire? || e.PumpExit?
    ensures HandKept(s.procs, Apply(s, e).procs)
  {
  }

  lemma QuietHand(s: State, e: Event)
    requires OnePacketWorker(s.procs) && Enabled(s, e) && !OfProc(e)
    ensures HandKept(s.procs, Apply(s, e).procs)
  {
    if e.Enqueue? {
      EnqueueCore(s, s.receiver.d, s.receiver.flow);
      assert CoreOf(Apply(s, e)).procs == s.procs;
    } else if !e.Lookup? {
      QuietStep(s, e);
    }
  }

  /** Only a take fills the packet worker's hands, with the first packet. */
  lemma HandStep(s: State, e: Event)
    requires Inv(s) && OnePacketWorker(s.procs) && Enabled(s, e)
    ensures HandKept(s.procs, Apply(s, e).procs) || (e == Take(0) && HandFilled(s.packets, Apply(s, e).procs))
  {
    match e
    case Take(p) => TakeHand(s, p);
    case Begin(p) => BeginHand(s, p, JobOf(s, p).value);
    case Decide(p) => DecideHand(s, p, JobOf(s, p).value.d);
    case DialDone(p, result) =>
      ProcsUsed(s, p);
      DialDoneHand(s, p, JobOf(s, p).value.d, result);
    case WriteLock(_) => WriteHand(s, e);
    case SocketWrite(_, _) => WriteHand(s, e);
    case WorkerExit(_) => PumpHand(s, e);
    case PumpLeave(_) => PumpHand(s, e);
    case PumpRetire(_) => PumpHand(s, e);
    case PumpExit(_) => PumpHand(s, e);
    case _ => QuietHand(s, e);
  }

  /** The packets left are later than the one in the packet worker's hands. */
  ghost predicate HandInOrder(s: State)
  {
    OnePacketWorker(s.procs) && (PacketHand(s.procs).Some? ==> PacketsAfter(LinesOf(s), PacketHand(s.procs).value))
  }

  lemma AfterFirst(size: int, l: Lines, packets: seq<Packet>)
    requires InOrder(size, l) && l.packets != [] && packets == l.packets[1..]
    ensures PacketsAfter(l.(packets := packets), l.packets[0].d.id)
  {
  }

  lemma HandInOrderStep(s: State, e: Event)
    requires Inv(s) && InOrder(s.opt.queueSize, LinesOf(s)) && HandInOrder(s) && Enabled(s, e)
    ensures HandInOrder(Apply(s, e))
  {
    var s' := Apply(s, e);
    HandStep(s, e);
    LinesStep(s, e);
    if !HandKept(s.procs, s'.procs) {
      TakeLines(s, 0);
      AfterFirst(s.opt.queueSize, LinesOf(s), s'.packets);
    } else if PacketHand(s'.procs).Some? {
      AfterStep(s.opt.queueSize, LinesOf(s), LinesOf(s'), PacketHand(s.procs).value);
    }
  }

  lemma {:induction false} HandInOrderRun(s: State, es: seq<Event>, s': State)
    requires Inv(s) && InOrder(s.opt.queueSize, LinesOf(s)) && HandInOrder(s) && Run(s, es, s')
    ensures HandInOrder(s')
    decreases |es|
  {
    if |es| > 0 {
      var t := Apply(s, es[0]);
      HandInOrderStep(s, es[0]);
      InvStep(s, es[0]);
      LinesStep(s, es[0]);
      OptStays(s, es[0]);
      InOrderStep(s.opt.queueSize, LinesOf(s), LinesOf(t));
      HandInOrderRun(t, es[1..], s');
    }
  }

  lemma ReachableHandInOrder(s: State)
    requires Reachable(s)
    ensures HandInOrder(s)
  {
    var o, now, es :| Run(Initial(o, now), es, s);
    InitialInv(o, now);
    HandInOrderRun(Initial(o, now), es, s);
  }

  /** How a step changes the lines and the packet worker's hands. */
  lemma ReachableMoves(s: State, e: Event)
    requires Reachable(s) && Enabled(s, e)
    ensures InOrder(s.opt.queueSize, LinesOf(s)) && Moves(s.opt.queueSize, LinesOf(s), LinesOf(Apply(s, e)))
    ensures HandKept(s.procs, Apply(s, e).procs) || HandFilled(s.packets, Apply(s, e).procs)
  {
    ReachableHandInOrder(s);
    ReachableInv(s);
    QueuesInOrder(s);
    HandStep(s, e);
    LinesStep(s, e);
  }

  /** The packet worker is past `x`: nothing it has in hand or will take came before. */
  ghost predicate Past(l: Lines, procs: map<nat, Proc>, x: nat)
  {
    PacketsAfter(l, x) && (PacketHand(procs).Some? ==> PacketHand(procs).value > x)
  }

  lemma PastMoves(size: int, l: Lines, l': Lines, procs: map<nat, Proc>, procs': map<nat, Proc>, x: nat)
    requires InOrder(size, l) && Moves(size, l, l') && (HandKept(procs, procs') || HandFilled(l.packets, procs'))
    requires Past(l, procs, x)
    ensures Past(l', procs', x)
  {
    AfterStep(size, l, l', x);
  }

  lemma PastStep(s: State, e: Event, x: nat)
    requires Reachable(s) && Past(LinesOf(s), s.procs, x) && Enabled(s, e)
    ensures Past(LinesOf(Apply(s, e)), Apply(s, e).procs, x)
  {
    ReachableMoves(s, e);
    PastMoves(s.opt.queueSize, LinesOf(s), LinesOf(Apply(s, e)), s.procs, Apply(s, e).procs, x);
  }

  lemma PastNext(o: Options, now: real, ss: seq<State>, es: seq<Event>, n: nat, x: nat)
    requires FromStart(o, now, ss, es) && n < |es| && Past(LinesOf(ss[n]), ss[n].procs, x)
    ensures Past(LinesOf(ss[n + 1]), ss[n + 1].procs, x)
  {
    ReachableAt(o, now, ss, es, n);
    StepAt(ss, es, n);
    PastStep(ss[n], es[n], x);
  }

  lemma {:induction false} PastAt(o: Options, now: real, ss: seq<State>, es: seq<Event>, m: nat, n: nat, x: nat)
    requires FromStart(o, now, ss, es) && m <= n <= |es| && Past(LinesOf(ss[m]), ss[m].procs, x)
    ensures Past(LinesOf(ss[n]), ss[n].procs, x)
    decreases n
  {
    if m < n {
      PastAt(o, now, ss, es, m, n - 1, x);
      PastNext(o, now, ss, es, n - 1, x);
    }
  }

  /** The packet worker writes `d` to its flow's socket. */
  ghost predicate PacketWrite(s: State, e: Event, d: Datagram)
  {
    e.SocketWrite? && Enabled(s, e) && s.procs[e.p].PacketWorker? && JobOf(s, e.p).value.d == d
  }

  lemma WriterHand(s: State, e: Event, d: Datagram)
    requires OnePacketWorker(s.procs) && PacketWrite(s, e, d)
    ensures PacketHand(s.procs) == Some(d.id) && PacketHand(Apply(s, e).procs) == None
  {
  }

  lemma PastWrite(s: State, e: Event, d: Datagram)
    requires Reachable(s) && PacketWrite(s, e, d)
    ensures PacketHand(s.procs) == Some(d.id) && Past(LinesOf(Apply(s, e)), Apply(s, e).procs, d.id)
  {
    ReachableHandInOrder(s);
    WriterHand(s, e, d);
    ReachableMoves(s, e);
    AfterStep(s.opt.queueSize, LinesOf(s), LinesOf(Apply(s, e)), d.id);
  }

  lemma WriteAt(o: Options, now: real, ss: seq<State>, es: seq<Event>, n: nat, d: Datagram)
    requires FromStart(o, now, ss, es) && n < |es| && PacketWrite(ss[n], es[n], d)
    ensures PacketHand(ss[n].procs) == Some(d.id) && Past(LinesOf(ss[n + 1]), ss[n + 1].procs, d.id)
  {
    ReachableAt(o, now, ss, es, n);
    StepAt(ss, es, n);
    PastWrite(ss[n], es[n], d);
  }

  /** Over every run the datagrams of existing flows are written in the order of arrival. */
  lemma WrittenInOrder(o: Options, now: real, ss: seq<State>, es: seq<Event>, m: nat, n: nat, d: Datagram, d': Datagram)
    requires FromStart(o, now, ss, es) && m < n < |es|
    requires PacketWrite(ss[m], es[m], d) && PacketWrite(ss[n], es[n], d')
    ensures d.id < d'.id
  {
    WriteAt(o, now, ss, es, m, d);
    PastAt(o, now, ss, es, m + 1, n, d.id);
    WriteAt(o, now, ss, es, n, d');
  }

  // ---- Nothing new after cancellation --------------------------------------------------------

  /** The context is cancelled and nothing numbered from `x` on has passed the checks. */
  ghost predicate Stopped(s: State, x: nat)
  {
    && s.cancelled && BehindOk(s, (d: Datagram) => d.id < x)
    && (s.receiver.Checked? || s.receiver.Routed? ==> s.receiver.d.id < x)
  }

  lemma CancelledStays(s: State, e: Event)
    requires Enabled(s, e) && s.cancelled
    ensures Apply(s, e).cancelled
  {
    LinesStep(s, e);
    assert LinesOf(Apply(s, e)).cancelled;
  }

  lemma StoppedStep(s: State, e: Event, x: nat)
    requires Stopped(s, x) && Enabled(s, e)
    ensures Stopped(Apply(s, e), x)
  {
    CancelledStays(s, e);
    BehindStep(s, e, (d: Datagram) => d.id < x);
    ReceiverAfter(s, e);
    if e.Lookup? { LookupReceiver(s); }
  }

  lemma {:induction false} StoppedRun(s: State, es: seq<Event>, s': State, x: nat)
    requires Stopped(s, x) && Run(s, es, s')
    ensures Stopped(s', x)
    decreases |es|
  {
    if |es| > 0 {
      StoppedStep(s, es[0], x);
      StoppedRun(Apply(s, es[0]), es[1..], s', x);
    }
  }

  lemma EarlierBehind(s: State)
    requires Accounts(s)
    ensures BehindOk(s, (d: Datagram) => d.id < s.received)
  {
    forall i | 0 <= i < |s.queue| ensures s.queue[i].id < s.received { assert At(s.place, s.queue[i].id, InQueue); }
    forall i | 0 <= i < |s.packets| ensures s.packets[i].d.id < s.received { assert At(s.place, s.packets[i].d.id, InPackets); }
    forall p | p in s.procs && !s.procs[p].Pump? && !s.procs[p].job.Idle? ensures s.procs[p].job.d.id < s.received {
      assert Hand(s.procs[p]) == Some(s.procs[p].job.d.id);
      assert At(s.place, s.procs[p].job.d.id, With(p));
    }
  }

  /** What arrives after cancellation is never queued and never in a worker's hands. */
  lemma NothingQueuedAfterCancel(s: State, es: seq<Event>, s': State)
    requires Reachable(s) && s.cancelled && Run(s, es, s')
    ensures BehindOk(s', (d: Datagram) => d.id < s.received)
  {
    ReachableSound(s);
    EarlierBehind(s);
    StoppedRun(s, es, s', s.received);
  }
}

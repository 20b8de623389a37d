/** What internal/server/udp.go can always do: while it is authenticated and not cancelled, a datagram of an open flow
    can be delivered from every reachable state, and so can one that a new flow is admitted for. */
module NatDelivery {
  import opened Bytes
  import opened NatTables
  import opened NatMachine
  import opened NatSafety
  import opened NatTrace
  import opened NatRouting
  import opened NatOrder
  import opened NatBucket

  predicate Up(s: State)
  {
    s.authed && !s.cancelled
  }

  lemma RunThen(s: State, es: seq<Event>, s1: State, fs: seq<Event>, s2: State) returns (all: seq<Event>)
    requires Run(s, es, s1) && Run(s1, fs, s2)
    ensures Run(s, all, s2)
  {
    RunJoin(s, es, s1, fs, s2);
    all := es + fs;
  }

  // ---- The workers stay ----------------------------------------------------------------------

  predicate SameKind(proc: Proc, proc': Proc)
  {
    (proc.Worker? <==> proc'.Worker?) && (proc.PacketWorker? <==> proc'.PacketWorker?)
  }

  /** A worker is still there, and still of its kind. */
  predicate Stays(procs: map<nat, Proc>, procs': map<nat, Proc>, p: nat)
  {
    p in procs ==> p in procs' && SameKind(procs[p], procs'[p])
  }

  lemma RejobStays(procs: map<nat, Proc>, q: nat, job: Job, p: nat)
    requires q in procs && !procs[q].Pump?
    ensures Stays(procs, procs[q := WithJob(procs[q], job)], p)
  {
  }

  lemma SetJobStays(s: State, q: nat, id: nat, fate: Fate, job: Job, p: nat)
    requires JobOf(s, q).Some?
    ensures Stays(s.procs, SetJob(s, q, job).procs, p)
    ensures Stays(s.procs, Settle(s, q, id, fate).procs, p)
    ensures Stays(s.procs, Abandon(s, q, id).procs, p)
  {
    JobCores(s, q, id, fate, job);
    RejobStays(s.procs, q, job, p);
    RejobStays(s.procs, q, Idle, p);
    assert CoreOf(SetJob(s, q, job)).procs == SetJob(s, q, job).procs;
    assert CoreOf(Settle(s, q, id, fate)).procs == Settle(s, q, id, fate).procs;
    assert CoreOf(Abandon(s, q, id)).procs == Abandon(s, q, id).procs;
  }

  lemma DecidedStays(s: State, q: nat, d: Datagram, a: Admission, p: nat)
    requires JobOf(s, q).Some?
    ensures Stays(s.procs, Decided(s, q, d, a).procs, p)
  {
    match a
    case Existing(flow) => SetJobStays(s, q, d.id, SentUp, Writing(d, flow), p);
    case Admitted => SetJobStays(s, q, d.id, SentUp, Dialing(d), p);
    case Busy => SetJobStays(s, q, d.id, DropQueue, Idle, p);
    case AtLimit => SetJobStays(s, q, d.id, DropLimit, Idle, p);
    case Throttled => SetJobStays(s, q, d.id, DropRate, Idle, p);
    case Closed => SetJobStays(s, q, d.id, SentUp, Idle, p);
  }

  lemma DecideStays(s: State, q: nat, d: Datagram, p: nat)
    requires JobOf(s, q).Some?
    ensures Stays(s.procs, DoDecide(s, q, d).procs, p)
  {
    var (t, a) := Admit(s.opt, s.t, d.key, s.now);
    DecidedStays(s.(t := t), q, d, a, p);
  }

  lemma DialDoneStays(s: State, q: nat, d: Datagram, result: DialResult, p: nat)
    requires Inv(s) && JobOf(s, q) == Some(Dialing(d))
    ensures Stays(s.procs, DoDialDone(s, q, d, result).procs, p)
  {
    var s' := DoDialDone(s, q, d, result);
    assert CoreOf(s').procs == s'.procs;
    if result == Dialled(true) && !s.t.closed {
      FlowCore(s, q, d);
      RejobStays(s.procs, q, Writing(d, s.nextProc), p);
      NextIsNew(s);
    } else {
      NoFlowCore(s, q, d, result);
      RejobStays(s.procs, q, Idle, p);
    }
  }

  lemma NextIsNew(s: State)
    requires Inv(s)
    ensures s.nextProc !in s.procs
  {
  }

  lemma TakeStays(s: State, q: nat, p: nat)
    requires Enabled(s, Take(q))
    ensures Stays(s.procs, DoTake(s, q).procs, p)
  {
  }

  lemma JobOnlyStays(s: State, e: Event, p: nat)
    requires Enabled(s, e) && JobOnly(e)
    ensures Stays(s.procs, Apply(s, e).procs, p)
  {
    if e.Take? {
      TakeStays(s, e.p, p);
    } else {
      var job := JobOf(s, e.p).value;
      SetJobStays(s, e.p, job.d.id, if e.SocketWrite? && e.ok then SentUp else DropSend,
                  match job
                  case TookNew(d) => Deciding(d)
                  case TookPacket(d, flow) => Writing(d, flow)
                  case Writing(d, flow) => Sending(d, flow)
                  case _ => Idle, p);
    }
  }

  lemma PumpStays(s: State, e: Event, p: nat)
    requires Enabled(s, e) && (e.PumpLeave? || e.PumpRetire? || e.PumpExit?) && p in s.procs && !s.procs[p].Pump?
    ensures Stays(s.procs, Apply(s, e).procs, p)
  {
  }

  lemma QuietStays(s: State, e: Event)
    requires Enabled(s, e) && !OfProc(e)
    ensures Apply(s, e).procs == s.procs
  {
    if e.Enqueue? {
      EnqueueCore(s, s.receiver.d, s.receiver.flow);
      assert CoreOf(Apply(s, e)).procs == s.procs;
    } else if !e.Lookup? {
      QuietStep(s, e);
    }
  }

  lemma WorkerStays(s: State, e: Event, p: nat)
    requires Inv(s) && Enabled(s, e) && !s.cancelled && p in s.procs && !s.procs[p].Pump?
    ensures Stays(s.procs, Apply(s, e).procs, p)
  {
    if e.Decide? {
      DecideStays(s, e.p, JobOf(s, e.p).value.d, p);
    } else if e.DialDone? {
      DialDoneStays(s, e.p, JobOf(s, e.p).value.d, e.result, p);
    } else if JobOnly(e) {
      JobOnlyStays(s, e, p);
    } else if OfProc(e) {
      PumpStays(s, e, p);
    } else {
      QuietStays(s, e);
    }
  }

  /** Until cancellation the packet worker and an admission worker are there. */
  ghost predicate Staffed(s: State)
  {
    !s.cancelled ==> 0 in s.procs && s.procs[0].PacketWorker? && 1 in s.procs && s.procs[1].Worker?
  }

  lemma StaffedStep(s: State, e: Event)
    requires Inv(s) && Staffed(s) && Enabled(s, e)
    ensures Staffed(Apply(s, e))
  {
    if s.cancelled {
      CancelledStays(s, e);
    } else {
      WorkerStays(s, e, 0);
      WorkerStays(s, e, 1);
    }
  }

  lemma {:induction false} StaffedRun(s: State, es: seq<Event>, s': State)
    requires Inv(s) && Staffed(s) && Run(s, es, s')
    ensures Inv(s') && Staffed(s')
    decreases |es|
  {
    if |es| > 0 {
      InvStep(s, es[0]);
      StaffedStep(s, es[0]);
      StaffedRun(Apply(s, es[0]), es[1..], s');
    }
  }

  lemma ReachableStaffed(s: State)
    requires Reachable(s)
    ensures Inv(s) && Staffed(s)
  {
    var o, now, es :| Run(Initial(o, now), es, s);
    InitialInv(o, now);
    StaffedRun(Initial(o, now), es, s);
  }

  // ---- A worker gets done --------------------------------------------------------------------

  /** Everything but the worker's own doings is as before. */
  predicate Undisturbed(s: State, s': State)
  {
    && s'.authed == s.authed && s'.cancelled == s.cancelled && s'.opt == s.opt
    && s'.sockets == s.sockets && s'.t.flows == s.t.flows && s'.t.closed == s.t.closed
    && LinesOf(s') == LinesOf(s)
  }

  function StepsLeft(job: Job): nat
  {
    match job
    case Idle => 0
    case TookNew(_) => 5
    case TookPacket(_, _) => 5
    case Deciding(_) => 4
    case Dialing(_) => 1
    case Writing(_, _) => 2
    case Sending(_, _) => 1
  }

  /** The next step of a worker when dials and writes fail. */
  function NextStep(p: nat, job: Job): Event
  {
    match job
    case Idle => Take(p)
    case TookNew(_) => Begin(p)
    case TookPacket(_, _) => Begin(p)
    case Deciding(_) => Decide(p)
    case Dialing(_) => DialDone(p, DialFailed(DropDns))
    case Writing(_, _) => WriteLock(p)
    case Sending(_, _) => SocketWrite(p, false)
  }

  predicate Nearer(s: State, s': State, p: nat, job: Job)
  {
    Undisturbed(s, s') && JobOf(s', p).Some? && StepsLeft(JobOf(s', p).value) < StepsLeft(job)
  }

  lemma DecidedNearer(s: State, t: Tables, p: nat, d: Datagram, a: Admission)
    requires JobOf(s, p) == Some(Deciding(d)) && t.flows == s.t.flows && t.closed == s.t.closed
    ensures Nearer(s, Decided(s.(t := t), p, d, a), p, Deciding(d))
  {
  }

  lemma DecideNearer(s: State, p: nat, d: Datagram)
    requires Inv(s) && JobOf(s, p) == Some(Deciding(d))
    ensures Nearer(s, DoDecide(s, p, d), p, Deciding(d))
  {
    AdmitShape(s.opt, s.t, d.key, s.now);
    var (t, a) := Admit(s.opt, s.t, d.key, s.now);
    DecidedNearer(s, t, p, d, a);
  }

  lemma FailedDialNearer(s: State, p: nat, d: Datagram)
    requires JobOf(s, p) == Some(Dialing(d))
    ensures Nearer(s, DoDialDone(s, p, d, DialFailed(DropDns)), p, Dialing(d))
  {
  }

  lemma BeginNearer(s: State, p: nat, job: Job)
    requires JobOf(s, p) == Some(job) && (job.TookNew? || job.TookPacket?)
    ensures Nearer(s, DoBegin(s, p, job), p, job)
  {
  }

  lemma WriteNearer(s: State, p: nat, d: Datagram, flow: FlowId)
    ensures JobOf(s, p) == Some(Writing(d, flow)) ==> Nearer(s, DoWriteLock(s, p, d, flow), p, Writing(d, flow))
    ensures JobOf(s, p) == Some(Sending(d, flow)) ==> Nearer(s, DoSocketWrite(s, p, d, false), p, Sending(d, flow))
  {
  }

  lemma NextNearer(s: State, p: nat, job: Job)
    requires Inv(s) && JobOf(s, p) == Some(job) && !job.Idle?
    ensures Enabled(s, NextStep(p, job)) && Nearer(s, Apply(s, NextStep(p, job)), p, job)
  {
    match job
    case Deciding(d) => DecideNearer(s, p, d);
    case Dialing(d) => FailedDialNearer(s, p, d);
    case Writing(d, flow) => WriteNearer(s, p, d, flow);
    case Sending(d, flow) => WriteNearer(s, p, d, flow);
    case _ => BeginNearer(s, p, job);
  }

  /** Whatever a worker is doing, it can get done with it. */
  lemma {:induction false} GetsDone(s: State, p: nat) returns (es: seq<Event>, s': State)
    requires Inv(s) && JobOf(s, p).Some?
    ensures Run(s, es, s') && Undisturbed(s, s') && JobOf(s', p) == Some(Idle)
    decreases StepsLeft(JobOf(s, p).value)
  {
    var job := JobOf(s, p).value;
    if job.Idle? {
      es, s' := [], s;
    } else {
      NextNearer(s, p, job);
      var e := NextStep(p, job);
      InvStep(s, e);
      var rest;
      rest, s' := GetsDone(Apply(s, e), p);
      RunCons(s, e, rest, s');
      es := [e] + rest;
    }
  }

  // ---- Through the queues --------------------------------------------------------------------

  /** The account of `id` as sent is in the log. */
  ghost predicate Sent(s: State, id: nat)
  {
    exists k :: 0 <= k < |s.log| && s.log[k] == (id, SentUp)
  }

  lemma WriteSends(s: State, p: nat, d: Datagram, flow: FlowId)
    requires !s.t.closed && JobOf(s, p) == Some(Writing(d, flow)) && flow in s.sockets
    ensures Enabled(s, WriteLock(p))
    ensures var s1 := Apply(s, WriteLock(p)); Enabled(s1, SocketWrite(p, true)) && Sent(Apply(s1, SocketWrite(p, true)), d.id)
  {
    var s1 := Apply(s, WriteLock(p));
    var s2 := Apply(s1, SocketWrite(p, true));
    assert s2.log[|s1.log|] == (d.id, SentUp);
  }

  lemma WriteRun(s: State, p: nat, d: Datagram, flow: FlowId) returns (es: seq<Event>, s': State)
    requires !s.t.closed && JobOf(s, p) == Some(Writing(d, flow)) && flow in s.sockets
    ensures Run(s, es, s') && Sent(s', d.id)
  {
    WriteSends(s, p, d, flow);
    var s1 := Apply(s, WriteLock(p));
    s' := Apply(s1, SocketWrite(p, true));
    RunOne(s1, SocketWrite(p, true));
    RunCons(s, WriteLock(p), [SocketWrite(p, true)], s');
    es := [WriteLock(p)] + [SocketWrite(p, true)];
  }

  /** The first packet is taken. */
  lemma PacketTaken(s: State)
    requires Inv(s) && Up(s) && JobOf(s, 0) == Some(Idle) && s.procs[0].PacketWorker? && s.packets != []
    ensures Enabled(s, Take(0))
    ensures var s' := Apply(s, Take(0));
            && Inv(s') && JobOf(s', 0) == Some(TookPacket(s.packets[0].d, s.packets[0].flow)) && s'.procs[0].PacketWorker?
            && s'.packets == s.packets[1..] && Up(s') && s'.sockets == s.sockets && s'.t == s.t
  {
    InvStep(s, Take(0));
  }

  lemma PacketBegins(s: State, d: Datagram, flow: FlowId)
    requires Up(s) && JobOf(s, 0) == Some(TookPacket(d, flow))
    ensures Enabled(s, Begin(0))
    ensures var s' := Apply(s, Begin(0)); JobOf(s', 0) == Some(Writing(d, flow)) && s'.t == s.t && s'.sockets == s.sockets
  {
  }

  ghost predicate Ready(s: State)
  {
    Reachable(s) && Up(s)
  }

  /** The NAT is open, with its workers there. */
  lemma ReadyIs(s: State)
    requires Reachable(s) && Up(s)
    ensures Inv(s) && !s.t.closed
    ensures 0 in s.procs && s.procs[0].PacketWorker? && 1 in s.procs && s.procs[1].Worker?
  {
    ReachableStaffed(s);
  }

  lemma ReachableThen(s: State, es: seq<Event>, s': State)
    requires Reachable(s) && Run(s, es, s')
    ensures Reachable(s')
  {
    var o, now, before :| Run(Initial(o, now), before, s);
    RunJoin(Initial(o, now), before, s, es, s');
  }

  lemma KindKept(s: State, es: seq<Event>, s': State, p: nat)
    requires Inv(s) && Run(s, es, s') && !s'.cancelled && p in s.procs && !s.procs[p].Pump?
    ensures Inv(s') && Stays(s.procs, s'.procs, p)
    decreases |es|
  {
    if |es| > 0 {
      InvStep(s, es[0]);
      NotCancelledBefore(s, es, s');
      WorkerStays(s, es[0], p);
      KindKept(Apply(s, es[0]), es[1..], s', p);
    }
  }

  lemma {:induction false} NotCancelledBefore(s: State, es: seq<Event>, s': State)
    requires Run(s, es, s') && !s'.cancelled
    ensures !s.cancelled
    decreases |es|
  {
    if |es| > 0 {
      NotCancelledBefore(Apply(s, es[0]), es[1..], s');
      if s.cancelled { CancelledStays(s, es[0]); }
    }
  }

  /** The packet worker gets to the next packet. */
  lemma NextPacket(s: State) returns (es: seq<Event>, s': State)
    requires Ready(s) && s.packets != []
    ensures Run(s, es, s') && Ready(s') && s'.packets == s.packets[1..] && s'.sockets == s.sockets
    ensures JobOf(s', 0) == Some(TookPacket(s.packets[0].d, s.packets[0].flow))
  {
    ReadyIs(s);
    var es1, s1 := GetsDone(s, 0);
    KindKept(s, es1, s1, 0);
    PacketTaken(s1);
    s' := Apply(s1, Take(0));
    OneMore(s, es1, s1, Take(0));
    es := es1 + [Take(0)];
    ReachableThen(s, es, s');
  }

  lemma TakenDelivered(s: State, d: Datagram, flow: FlowId) returns (es: seq<Event>, s': State)
    requires Ready(s) && JobOf(s, 0) == Some(TookPacket(d, flow)) && flow in s.sockets
    ensures Run(s, es, s') && Sent(s', d.id)
  {
    ReadyIs(s);
    PacketBegins(s, d, flow);
    var rest;
    rest, s' := WriteRun(Apply(s, Begin(0)), 0, d, flow);
    RunCons(s, Begin(0), rest, s');
    es := [Begin(0)] + rest;
  }

  lemma FirstDelivered(s: State, x: Packet) returns (es: seq<Event>, s': State)
    requires Ready(s) && s.packets != [] && s.packets[0] == x && x.flow in s.sockets
    ensures Run(s, es, s') && Sent(s', x.d.id)
  {
    var es1, s1 := NextPacket(s);
    var rest;
    rest, s' := TakenDelivered(s1, x.d, x.flow);
    RunJoin(s, es1, s1, rest, s');
    es := es1 + rest;
  }

  /** The packet at `i` in the queue. */
  ghost predicate Waits(s: State, i: nat, x: Packet)
  {
    Ready(s) && i < |s.packets| && s.packets[i] == x && x.flow in s.sockets
  }

  lemma MovesUp(s: State, i: nat, x: Packet) returns (es: seq<Event>, s': State)
    requires Waits(s, i, x) && i > 0
    ensures Run(s, es, s') && Waits(s', i - 1, x)
  {
    es, s' := NextPacket(s);
  }

  lemma {:induction false} GetsToFront(s: State, i: nat, x: Packet) returns (es: seq<Event>, s': State)
    requires Waits(s, i, x)
    ensures Run(s, es, s') && Waits(s', 0, x)
    decreases i
  {
    if i == 0 {
      es, s' := [], s;
    } else {
      var es1, s1 := MovesUp(s, i, x);
      var rest, s2 := GetsToFront(s1, i - 1, x);
      es := RunThen(s, es1, s1, rest, s2);
      s' := s2;
    }
  }

  /** Every queued packet of an open flow can be delivered. */
  lemma PacketDelivered(s: State, i: nat, x: Packet) returns (es: seq<Event>, s': State)
    requires Waits(s, i, x)
    ensures Run(s, es, s') && Sent(s', x.d.id)
  {
    var es1, s1 := GetsToFront(s, i, x);
    var rest, s2 := FirstDelivered(s1, x);
    es := RunThen(s, es1, s1, rest, s2);
    s' := s2;
  }

  /** The first new datagram is taken. */
  lemma NewTaken(s: State)
    requires Inv(s) && Up(s) && JobOf(s, 1) == Some(Idle) && s.procs[1].Worker? && s.queue != []
    ensures Enabled(s, Take(1))
    ensures var s' := Apply(s, Take(1));
            && Inv(s') && JobOf(s', 1) == Some(TookNew(s.queue[0])) && s'.procs[1].Worker?
            && s'.queue == s.queue[1..] && Up(s')
  {
    InvStep(s, Take(1));
  }

  lemma NewBegins(s: State, d: Datagram)
    requires Up(s) && JobOf(s, 1) == Some(TookNew(d))
    ensures Enabled(s, Begin(1)) && JobOf(Apply(s, Begin(1)), 1) == Some(Deciding(d)) && Up(Apply(s, Begin(1)))
  {
  }

  /** The admission worker gets to the next datagram. */
  lemma NextNew(s: State) returns (es: seq<Event>, s': State)
    requires Ready(s) && s.queue != []
    ensures Run(s, es, s') && Ready(s') && s'.queue == s.queue[1..] && JobOf(s', 1) == Some(TookNew(s.queue[0]))
  {
    ReadyIs(s);
    var es1, s1 := GetsDone(s, 1);
    KindKept(s, es1, s1, 1);
    NewTaken(s1);
    s' := Apply(s1, Take(1));
    OneMore(s, es1, s1, Take(1));
    es := es1 + [Take(1)];
    ReachableThen(s, es, s');
  }

  lemma FirstDecided(s: State, d: Datagram) returns (es: seq<Event>, s': State)
    requires Ready(s) && s.queue != [] && s.queue[0] == d
    ensures Run(s, es, s') && Up(s') && JobOf(s', 1) == Some(Deciding(d))
  {
    var es1, s1 := NextNew(s);
    NewBegins(s1, d);
    s' := Apply(s1, Begin(1));
    OneMore(s, es1, s1, Begin(1));
    es := es1 + [Begin(1)];
  }

  ghost predicate InLine(s: State, i: nat, d: Datagram)
  {
    Ready(s) && i < |s.queue| && s.queue[i] == d
  }

  lemma LineMovesUp(s: State, i: nat, d: Datagram) returns (es: seq<Event>, s': State)
    requires InLine(s, i, d) && i > 0
    ensures Run(s, es, s') && InLine(s', i - 1, d)
  {
    es, s' := NextNew(s);
  }

  /** Every queued datagram can get to the decision on it. */
  lemma {:induction false} DecisionReached(s: State, i: nat, d: Datagram) returns (es: seq<Event>, s': State)
    requires InLine(s, i, d)
    ensures Run(s, es, s') && Up(s') && JobOf(s', 1) == Some(Deciding(d))
    decreases i
  {
    if i == 0 {
      es, s' := FirstDecided(s, d);
    } else {
      var es1, s1 := LineMovesUp(s, i, d);
      var rest, s2 := DecisionReached(s1, i - 1, d);
      es := RunThen(s, es1, s1, rest, s2);
      s' := s2;
    }
  }

  // ---- What a maintainer gets ----------------------------------------------------------------

  /** Room in the queue for datagrams of the key. */
  predicate Room(s: State, key: Key)
  {
    (if key in s.t.flows then |s.packets| else |s.queue|) < s.opt.queueSize
  }

  function Incoming(s: State, key: Key, size: nat): Datagram
  {
    Datagram(s.received, false, true, key, size)
  }

  lemma Accepted(s: State, key: Key, size: nat)
    requires Up(s) && s.receiver.Resting? && size <= s.opt.maxPayload
    ensures Enabled(s, Receive(false, true, key, size))
    ensures var d, s1 := Incoming(s, key, size), Apply(s, Receive(false, true, key, size));
            && Enabled(s1, Gate) && Apply(s1, Gate) == s1.(receiver := Gated(d))
            && Enabled(Apply(s1, Gate), Check) && Apply(Apply(s1, Gate), Check) == s1.(receiver := Checked(d))
            && s1.t == s.t && s1.procs == s.procs && s1.sockets == s.sockets && s1.queue == s.queue && s1.packets == s.packets
            && Up(s1) && s1.opt == s.opt
  {
  }

  lemma Queued(s: State, d: Datagram)
    requires s.receiver == Checked(d) && Room(s, d.key)
    ensures Enabled(s, Lookup) && Enabled(Apply(s, Lookup), Enqueue)
    ensures var s' := Apply(Apply(s, Lookup), Enqueue);
            && s'.t == s.t && s'.procs == s.procs && s'.sockets == s.sockets && s'.authed == s.authed && s'.cancelled == s.cancelled
            && (if d.key in s.t.flows then s'.packets == s.packets + [Packet(d, s.t.flows[d.key])] else s'.queue == s.queue + [d])
  {
  }

  /** A well-formed datagram within the limits gets into the queue it belongs in. */
  lemma GetsQueued(s: State, key: Key, size: nat) returns (es: seq<Event>, s': State)
    requires Up(s) && s.receiver.Resting? && size <= s.opt.maxPayload && Room(s, key)
    ensures Run(s, es, s') && Up(s') && s'.t == s.t && s'.procs == s.procs && s'.sockets == s.sockets
    ensures var d := Incoming(s, key, size);
            if key in s.t.flows then s'.packets == s.packets + [Packet(d, s.t.flows[key])] else s'.queue == s.queue + [d]
  {
    Accepted(s, key, size);
    var e1 := Receive(false, true, key, size);
    var s1 := Apply(s, e1);
    var s2 := Apply(s1, Gate);
    var s3 := Apply(s2, Check);
    Queued(s3, Incoming(s, key, size));
    var s4 := Apply(s3, Lookup);
    s' := Apply(s4, Enqueue);
    RunOne(s4, Enqueue);
    RunCons(s3, Lookup, [Enqueue], s');
    RunCons(s2, Check, [Lookup] + [Enqueue], s');
    RunCons(s1, Gate, [Check] + ([Lookup] + [Enqueue]), s');
    RunCons(s, e1, [Gate] + ([Check] + ([Lookup] + [Enqueue])), s');
    es := [e1] + ([Gate] + ([Check] + ([Lookup] + [Enqueue])));
  }

  /** From every reachable state in which the NAT is up, the receive loop rests and the packet queue has room, the next
      datagram of a flow with an open socket can be delivered. */
  lemma FlowDelivers(s: State, key: Key, size: nat) returns (es: seq<Event>, s': State)
    requires Reachable(s) && Up(s) && s.receiver.Resting? && size <= s.opt.maxPayload && Room(s, key)
    requires key in s.t.flows && s.t.flows[key] in s.sockets
    ensures Run(s, es, s') && Sent(s', s.received)
  {
    var es1, s1 := GetsQueued(s, key, size);
    ReachableThen(s, es1, s1);
    var es2;
    es2, s' := PacketDelivered(s1, |s.packets|, Packet(Incoming(s, key, size), s.t.flows[key]));
    RunJoin(s, es1, s1, es2, s');
    es := es1 + es2;
  }

  /** Likewise the next datagram of a key without a flow can get to the decision on it. */
  lemma NewKeyDecides(s: State, key: Key, size: nat) returns (es: seq<Event>, s': State)
    requires Reachable(s) && Up(s) && s.receiver.Resting? && size <= s.opt.maxPayload && Room(s, key) && key !in s.t.flows
    ensures Run(s, es, s') && Up(s') && JobOf(s', 1) == Some(Deciding(Incoming(s, key, size)))
  {
    var es1, s1 := GetsQueued(s, key, size);
    ReachableThen(s, es1, s1);
    var es2;
    es2, s' := DecisionReached(s1, |s.queue|, Incoming(s, key, size));
    RunJoin(s, es1, s1, es2, s');
    es := es1 + es2;
  }

  lemma NewFlowDialled(s: State, p: nat, d: Datagram)
    requires Inv(s) && !s.t.closed && JobOf(s, p) == Some(Dialing(d))
    ensures Enabled(s, DialDone(p, Dialled(true)))
    ensures var s' := Apply(s, DialDone(p, Dialled(true)));
            !s'.t.closed && JobOf(s', p) == Some(Writing(d, s.nextProc)) && s.nextProc in s'.sockets
  {
    var s' := DoDialDone(s, p, d, Dialled(true));
    FlowCore(s, p, d);
    CoreJob(s', p, d, s.nextProc, CoreOf(s'));
    assert p < s.nextProc;
  }

  lemma CoreJob(s: State, p: nat, d: Datagram, flow: FlowId, c: Core)
    requires c == CoreOf(s)
    ensures s.t == c.t && s.sockets == c.sockets
    ensures p in c.procs && (c.procs[p] == Worker(Writing(d, flow)) || c.procs[p] == PacketWorker(Writing(d, flow))) ==>
            JobOf(s, p) == Some(Writing(d, flow))
  {
  }

  lemma DecideLeavesOpen(s: State, p: nat, d: Datagram)
    requires Inv(s) && JobOf(s, p) == Some(Deciding(d)) && !s.t.closed
    ensures Inv(DoDecide(s, p, d)) && !DoDecide(s, p, d).t.closed
  {
    DecideKeeps(s, p, d);
    DecideNearer(s, p, d);
  }

  /** And once it is dialled for, a flow can be made that delivers it. */
  lemma NewFlowDelivers(s: State, p: nat, d: Datagram) returns (es: seq<Event>, s': State)
    requires Reachable(s) && Up(s) && JobOf(s, p) == Some(Deciding(d)) && VerdictOn(s, d.key) == Dialed
    ensures Run(s, es, s') && Sent(s', d.id)
  {
    ReachableInv(s);
    AdmissionExactly(s, p, d);
    DecideLeavesOpen(s, p, d);
    var s1 := Apply(s, Decide(p));
    NewFlowDialled(s1, p, d);
    var s2 := Apply(s1, DialDone(p, Dialled(true)));
    var rest;
    rest, s' := WriteRun(s2, p, d, s1.nextProc);
    RunCons(s1, DialDone(p, Dialled(true)), rest, s');
    RunCons(s, Decide(p), [DialDone(p, Dialled(true))] + rest, s');
    es := [Decide(p)] + ([DialDone(p, Dialled(true))] + rest);
  }
}

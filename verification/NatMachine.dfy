/** The goroutines of internal/server/udp.go as one state machine. Each event is what runs without
    interruption: a critical section, a channel operation, a check of the context or of the
    authentication channel, a socket call, or a goroutine's exit. Dial results, clocks and the
    arrival of datagrams are chosen by the environment. */
module NatMachine {
  import opened Bytes
  import opened NatTables

  /** A received datagram: whether it is longer than the envelope limit, whether it decodes, and then
      its flow key and payload length. `id` is its position in the order of arrival. */
  datatype Datagram = Datagram(id: nat, oversize: bool, wellFormed: bool, key: Key, size: nat)

  /** A datagram for a flow that already exists. */
  datatype Packet = Packet(d: Datagram, flow: FlowId)

  /** How a datagram is accounted: one drop reason, or sent upstream. */
  datatype Fate = DropAuth | DropSize | DropInvalid | DropClosed | DropQueue | DropLimit | DropRate | DropAcl | DropDns | DropSend | SentUp

  /** Where a datagram is: a history variable, one place for each datagram ever received. */
  datatype Place = AtReceiver | InQueue | InPackets | With(proc: nat) | Accounted | Lost

  /** The receive loop: `serveDatagrams` and then `forward`. */
  datatype Receiver = Resting | Arrived(d: Datagram) | Gated(d: Datagram) | Checked(d: Datagram) | Routed(d: Datagram, flow: Option<FlowId>)

  /** What a worker is doing with the datagram in its hands. */
  datatype Job = Idle | TookNew(d: Datagram) | TookPacket(d: Datagram, flow: FlowId) | Deciding(d: Datagram) | Dialing(d: Datagram) | Writing(d: Datagram, flow: FlowId) | Sending(d: Datagram, flow: FlowId)

  datatype Phase = Pumping | Leaving | Gone

  /** The live goroutines. A pump's id is the id of its flow. */
  datatype Proc = Worker(job: Job) | PacketWorker(job: Job) | Pump(key: Key, phase: Phase)

  /** The last five fields are history: who dials for each pending key, how many datagrams arrived,
      where each one is, how they were accounted, and when new flows were admitted. */
  datatype State = State(
    opt: Options,
    t: Tables,
    authed: bool,
    cancelled: bool,
    now: real,
    receiver: Receiver,
    queue: seq<Datagram>,
    packets: seq<Packet>,
    procs: map<nat, Proc>,
    wg: int,
    nextProc: nat,
    sockets: set<FlowId>,
    dialer: map<Key, nat>,
    received: nat,
    place: map<nat, Place>,
    log: seq<(nat, Fate)>,
    admits: seq<real>)

  datatype DialResult = DialFailed(reason: Fate) | Dialled(udp: bool)

  datatype Event =
    | Tick(now: real)
    | Authenticate
    | Cancel
    | Receive(oversize: bool, wellFormed: bool, key: Key, size: nat)
    | Gate
    | Check
    | Lookup
    | Enqueue
    | Take(p: nat)
    | Begin(p: nat)
    | Decide(p: nat)
    | DialDone(p: nat, result: DialResult)
    | WriteLock(p: nat)
    | SocketWrite(p: nat, ok: bool)
    | WorkerExit(p: nat)
    | PumpLeave(p: nat)
    | PumpRetire(p: nat)
    | PumpExit(p: nat)
    | CloseTables

  function InitialProcs(workers: nat): (procs: map<nat, Proc>)
    ensures forall p :: p in procs <==> 0 <= p <= workers
    ensures forall p :: p in procs ==> procs[p] == if p == 0 then PacketWorker(Idle) else Worker(Idle)
    ensures |procs| == workers + 1
  {
    if workers == 0 then map[0 := PacketWorker(Idle)] else InitialProcs(workers - 1)[workers := Worker(Idle)]
  }

  /** `makeUDPNAT`: a packet worker and the admission workers are running. */
  function Initial(configured: Options, now: real): State
  {
    var o := Defaults(configured);
    State(o, Tables(map[], {}, false, o.newFlowsPerSecond as real, now), false, false, now, Resting, [], [],
          InitialProcs(o.workers), o.workers + 1, o.workers + 1, {}, map[], 0, map[], [], [])
  }

  /** The step stays outside the mutex: tables, options and admissions are untouched, as is authentication. */
  predicate SameTables(s: State, s': State)
  {
    s'.opt == s.opt && s'.t == s.t && s'.admits == s.admits && s'.authed == s.authed
  }

  // ---- Bookkeeping ---------------------------------------------------------------------------

  function Moved(s: State, id: nat, where: Place): (r: State)
    ensures SameTables(s, r)
  {
    s.(place := s.place[id := where])
  }

  function Account(s: State, id: nat, fate: Fate): (r: State)
    ensures SameTables(s, r)
  {
    s.(place := s.place[id := Accounted], log := s.log + [(id, fate)])
  }

  function JobOf(s: State, p: nat): Option<Job>
  {
    if p in s.procs && s.procs[p].Worker? then Some(s.procs[p].job)
    else if p in s.procs && s.procs[p].PacketWorker? then Some(s.procs[p].job)
    else None
  }

  function SetJob(s: State, p: nat, job: Job): (r: State)
    requires JobOf(s, p).Some?
    ensures SameTables(s, r)
  {
    s.(procs := s.procs[p := if s.procs[p].Worker? then Worker(job) else PacketWorker(job)])
  }

  /** Ends the worker's turn with the datagram accounted. */
  function Settle(s: State, p: nat, id: nat, fate: Fate): (r: State)
    requires JobOf(s, p).Some?
    ensures SameTables(s, r)
  {
    SetJob(Account(s, id, fate), p, Idle)
  }

  /** Ends the worker's turn without accounting the datagram. */
  function Abandon(s: State, p: nat, id: nat): (r: State)
    requires JobOf(s, p).Some?
    ensures SameTables(s, r)
  {
    SetJob(Moved(s, id, Lost), p, Idle)
  }

  function Exit(s: State, p: nat): (r: State)
    ensures SameTables(s, r)
  {
    s.(procs := s.procs - {p}, wg := s.wg - 1)
  }

  /** The receive loop drops the datagram it holds. */
  function DropReceived(s: State, id: nat, fate: Fate): (r: State)
    ensures SameTables(s, r)
  {
    Account(s, id, fate).(receiver := Resting)
  }

  // ---- The receive loop ----------------------------------------------------------------------

  function DoReceive(s: State, oversize: bool, wellFormed: bool, key: Key, size: nat): (r: State)
    ensures SameTables(s, r)
  {
    Moved(s, s.received, AtReceiver).(received := s.received + 1,
                                      receiver := Arrived(Datagram(s.received, oversize, wellFormed, key, size)))
  }

  /** `serveDatagrams`: the gates before `forward`. */
  function DoGate(s: State, d: Datagram): (r: State)
    ensures SameTables(s, r)
  {
    if !s.authed then DropReceived(s, d.id, DropAuth)
    else if d.oversize then DropReceived(s, d.id, DropSize)
    else if !d.wellFormed then DropReceived(s, d.id, DropInvalid)
    else s.(receiver := Gated(d))
  }

  /** `forward`: its own checks. */
  function DoCheck(s: State, d: Datagram): (r: State)
    ensures SameTables(s, r)
  {
    if !s.authed then DropReceived(s, d.id, DropAuth)
    else if d.size > s.opt.maxPayload then DropReceived(s, d.id, DropSize)
    else if s.cancelled then DropReceived(s, d.id, DropClosed)
    else s.(receiver := Checked(d))
  }

  function DoLookup(s: State, d: Datagram): (r: State)
    ensures SameTables(s, r)
  {
    s.(receiver := Routed(d, if d.key in s.t.flows then Some(s.t.flows[d.key]) else None))
  }

  /** The non-blocking channel sends. */
  function DoEnqueue(s: State, d: Datagram, flow: Option<FlowId>): (r: State)
    ensures SameTables(s, r)
  {
    if flow.Some? then
      if |s.packets| < s.opt.queueSize
      then Moved(s, d.id, InPackets).(packets := s.packets + [Packet(d, flow.value)], receiver := Resting)
      else DropReceived(s, d.id, DropQueue)
    else
      if |s.queue| < s.opt.queueSize
      then Moved(s, d.id, InQueue).(queue := s.queue + [d], receiver := Resting)
      else DropReceived(s, d.id, DropQueue)
  }

  // ---- Workers -------------------------------------------------------------------------------

  function DoTake(s: State, p: nat): (r: State)
    requires JobOf(s, p).Some? && (if s.procs[p].Worker? then s.queue != [] else s.packets != [])
    ensures SameTables(s, r)
  {
    if s.procs[p].Worker?
    then SetJob(Moved(s, s.queue[0].id, With(p)), p, TookNew(s.queue[0])).(queue := s.queue[1..])
    else SetJob(Moved(s, s.packets[0].d.id, With(p)), p, TookPacket(s.packets[0].d, s.packets[0].flow)).(packets := s.packets[1..])
  }

  /** The checks after a datagram left its queue. */
  function DoBegin(s: State, p: nat, job: Job): (r: State)
    requires JobOf(s, p).Some? && (job.TookNew? || job.TookPacket?)
    ensures SameTables(s, r)
  {
    match job
    case TookNew(d) => if s.cancelled || !s.authed then Abandon(s, p, d.id) else SetJob(s, p, Deciding(d))
    case TookPacket(d, flow) => if s.cancelled then Abandon(s, p, d.id) else SetJob(s, p, Writing(d, flow))
  }

  /** The first critical section of `send`. */
  function DoDecide(s: State, p: nat, d: Datagram): (r: State)
    requires JobOf(s, p).Some?
    ensures r.authed == s.authed
  {
    var (t', a) := Admit(s.opt, s.t, d.key, s.now);
    Decided(s.(t := t'), p, d, a)
  }

  function Decided(s: State, p: nat, d: Datagram, a: Admission): (r: State)
    requires JobOf(s, p).Some?
    ensures r.authed == s.authed
  {
    match a
    case Closed => Abandon(s, p, d.id)
    case Existing(flow) => SetJob(s, p, Writing(d, flow))
    case Busy => Settle(s, p, d.id, DropQueue)
    case AtLimit => Settle(s, p, d.id, DropLimit)
    case Throttled => Settle(s, p, d.id, DropRate)
    case Admitted => SetJob(s, p, Dialing(d)).(admits := s.admits + [s.now], dialer := s.dialer[d.key := p])
  }

  /** The second critical section of `send`, and what follows it. */
  function DoDialDone(s: State, p: nat, d: Datagram, result: DialResult): (r: State)
    requires JobOf(s, p).Some?
    ensures r.authed == s.authed
  {
    var flow := s.nextProc;
    var s' := s.(t := Install(s.t, d.key, result == Dialled(true), flow), dialer := s.dialer - {d.key});
    match result
    case DialFailed(reason) => Settle(s', p, d.id, reason)
    case Dialled(udp) =>
      if s.t.closed then Abandon(s', p, d.id)
      else if !udp then Settle(s', p, d.id, DropSend)
      else SetJob(s', p, Writing(d, flow)).(
             procs := SetJob(s', p, Writing(d, flow)).procs[flow := Pump(d.key, Pumping)],
             wg := s.wg + 1, nextProc := flow + 1, sockets := s.sockets + {flow})
  }

  function DoWriteLock(s: State, p: nat, d: Datagram, flow: FlowId): (r: State)
    requires JobOf(s, p).Some?
    ensures SameTables(s, r)
  {
    if s.t.closed then Abandon(s, p, d.id) else SetJob(s, p, Sending(d, flow))
  }

  function DoSocketWrite(s: State, p: nat, d: Datagram, ok: bool): (r: State)
    requires JobOf(s, p).Some?
    ensures SameTables(s, r)
  {
    Settle(s, p, d.id, if ok then SentUp else DropSend)
  }

  // ---- Steps and runs ------------------------------------------------------------------------

  ghost predicate Enabled(s: State, e: Event)
  {
    match e
    case Tick(now) => s.now <= now
    case Authenticate => true
    case Cancel => true
    case Receive(_, _, _, _) => s.receiver.Resting?
    case Gate => s.receiver.Arrived?
    case Check => s.receiver.Gated?
    case Lookup => s.receiver.Checked?
    case Enqueue => s.receiver.Routed?
    case Take(p) => JobOf(s, p) == Some(Idle) && if s.procs[p].Worker? then s.queue != [] else s.packets != []
    case Begin(p) => JobOf(s, p).Some? && (JobOf(s, p).value.TookNew? || JobOf(s, p).value.TookPacket?)
    case Decide(p) => JobOf(s, p).Some? && JobOf(s, p).value.Deciding?
    case DialDone(p, result) =>
      && JobOf(s, p).Some? && JobOf(s, p).value.Dialing?
      && (result.DialFailed? ==> result.reason in {DropAcl, DropLimit, DropDns})
    case WriteLock(p) => JobOf(s, p).Some? && JobOf(s, p).value.Writing?
    case SocketWrite(p, ok) => JobOf(s, p).Some? && JobOf(s, p).value.Sending? && (ok ==> JobOf(s, p).value.flow in s.sockets)
    case WorkerExit(p) => JobOf(s, p) == Some(Idle) && s.cancelled
    case PumpLeave(p) => p in s.procs && s.procs[p].Pump? && s.procs[p].phase == Pumping
    case PumpRetire(p) => p in s.procs && s.procs[p].Pump? && s.procs[p].phase == Leaving
    case PumpExit(p) => p in s.procs && s.procs[p].Pump? && s.procs[p].phase == Gone
    case CloseTables => s.cancelled && !s.t.closed
  }

  function Apply(s: State, e: Event): State
    requires Enabled(s, e)
  {
    match e
    case Tick(now) => s.(now := now)
    case Authenticate => s.(authed := true)
    case Cancel => s.(cancelled := true)
    case Receive(oversize, wellFormed, key, size) => DoReceive(s, oversize, wellFormed, key, size)
    case Gate => DoGate(s, s.receiver.d)
    case Check => DoCheck(s, s.receiver.d)
    case Lookup => DoLookup(s, s.receiver.d)
    case Enqueue => DoEnqueue(s, s.receiver.d, s.receiver.flow)
    case Take(p) => DoTake(s, p)
    case Begin(p) => DoBegin(s, p, JobOf(s, p).value)
    case Decide(p) => DoDecide(s, p, JobOf(s, p).value.d)
    case DialDone(p, result) => DoDialDone(s, p, JobOf(s, p).value.d, result)
    case WriteLock(p) => DoWriteLock(s, p, JobOf(s, p).value.d, JobOf(s, p).value.flow)
    case SocketWrite(p, ok) => DoSocketWrite(s, p, JobOf(s, p).value.d, ok)
    case WorkerExit(p) => Exit(s, p)
    case PumpLeave(p) => s.(procs := s.procs[p := s.procs[p].(phase := Leaving)], sockets := s.sockets - {p})
    case PumpRetire(p) => s.(procs := s.procs[p := s.procs[p].(phase := Gone)], t := Retire(s.t, s.procs[p].key, p))
    case PumpExit(p) => Exit(s, p)
    case CloseTables => s.(t := Shut(s.t), sockets := s.sockets - s.t.flows.Values)
  }

  /** `es` leads from `s` to `s'`, one enabled event at a time. */
  ghost predicate Run(s: State, es: seq<Event>, s': State)
    decreases |es|
  {
    if es == [] then s' == s else Enabled(s, es[0]) && Run(Apply(s, es[0]), es[1..], s')
  }

  ghost predicate Reachable(s: State)
  {
    exists o, now, es :: Run(Initial(o, now), es, s)
  }
}

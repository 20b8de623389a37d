/** Where every datagram handed to the NAT of internal/server/udp.go ends up: accounted at most once,
    and lost without an account only after cancellation. */
module NatAccounts {
  import opened Bytes
  import opened NatTables
  import opened NatMachine
  import opened NatSafety

  /** The part of the state that datagrams move through. */
  datatype Traffic = Traffic(receiver: Receiver, queue: seq<Datagram>, packets: seq<Packet>, procs: map<nat, Proc>,
                             received: nat, place: map<nat, Place>, log: seq<(nat, Fate)>, cancelled: bool)

  function TrafficOf(s: State): Traffic
  {
    Traffic(s.receiver, s.queue, s.packets, s.procs, s.received, s.place, s.log, s.cancelled)
  }

  /** The datagram a goroutine has in its hands. */
  function Hand(proc: Proc): Option<nat>
  {
    if proc.Pump? || proc.job.Idle? then None else Some(proc.job.d.id)
  }

  predicate At(place: map<nat, Place>, id: nat, where: Place)
  {
    id in place && place[id] == where
  }

  ghost predicate Known(received: nat, place: map<nat, Place>)
  {
    forall id: nat :: id in place <==> id < received
  }

  ghost predicate ReceiverPlaced(r: Receiver, place: map<nat, Place>)
  {
    && (!r.Resting? ==> At(place, r.d.id, AtReceiver))
    && (forall id :: id in place && place[id] == AtReceiver ==> !r.Resting? && r.d.id == id)
  }

  ghost predicate QueuePlaced(q: seq<Datagram>, place: map<nat, Place>)
  {
    && (forall i :: 0 <= i < |q| ==> At(place, q[i].id, InQueue))
    && (forall i, j :: 0 <= i < j < |q| ==> q[i].id != q[j].id)
    && (forall id :: id in place && place[id] == InQueue ==> exists i :: 0 <= i < |q| && q[i].id == id)
  }

  ghost predicate PacketsPlaced(q: seq<Packet>, place: map<nat, Place>)
  {
    && (forall i :: 0 <= i < |q| ==> At(place, q[i].d.id, InPackets))
    && (forall i, j :: 0 <= i < j < |q| ==> q[i].d.id != q[j].d.id)
    && (forall id :: id in place && place[id] == InPackets ==> exists i :: 0 <= i < |q| && q[i].d.id == id)
  }

  ghost predicate HandsPlaced(procs: map<nat, Proc>, place: map<nat, Place>)
  {
    && (forall p :: p in procs && Hand(procs[p]).Some? ==> At(place, Hand(procs[p]).value, With(p)))
    && (forall id :: id in place && place[id].With? ==> place[id].proc in procs && Hand(procs[place[id].proc]) == Some(id))
  }

  ghost predicate LogPlaced(log: seq<(nat, Fate)>, place: map<nat, Place>)
  {
    && (forall i :: 0 <= i < |log| ==> At(place, log[i].0, Accounted))
    && (forall i, j :: 0 <= i < j < |log| ==> log[i].0 != log[j].0)
    && (forall id :: id in place && place[id] == Accounted ==> exists i :: 0 <= i < |log| && log[i].0 == id)
  }

  ghost predicate LostPlaced(cancelled: bool, place: map<nat, Place>)
  {
    forall id :: id in place && place[id] == Lost ==> cancelled
  }

  ghost predicate Balanced(t: Traffic)
  {
    && Known(t.received, t.place) && ReceiverPlaced(t.receiver, t.place)
    && QueuePlaced(t.queue, t.place) && PacketsPlaced(t.packets, t.place)
    && HandsPlaced(t.procs, t.place) && LogPlaced(t.log, t.place) && LostPlaced(t.cancelled, t.place)
  }

  ghost predicate Accounts(s: State)
  {
    Balanced(TrafficOf(s))
  }

  lemma InitialAccounts(o: Options, now: real)
    ensures Accounts(Initial(o, now))
  {
  }

  // ---- Moving one datagram -------------------------------------------------------------------

  lemma QueueApart(q: seq<Datagram>, place: map<nat, Place>, id: nat, to: Place)
    requires QueuePlaced(q, place) && !At(place, id, InQueue) && to != InQueue
    ensures QueuePlaced(q, place[id := to])
  {
  }

  lemma QueuePush(q: seq<Datagram>, place: map<nat, Place>, d: Datagram)
    requires QueuePlaced(q, place) && !At(place, d.id, InQueue)
    ensures QueuePlaced(q + [d], place[d.id := InQueue])
  {
    var q', place' := q + [d], place[d.id := InQueue];
    forall id | id in place' && place'[id] == InQueue ensures exists i :: 0 <= i < |q'| && q'[i].id == id {
      if id == d.id {
        assert q'[|q|].id == id;
      } else {
        var i :| 0 <= i < |q| && q[i].id == id;
        assert q'[i].id == id;
      }
    }
  }

  lemma QueuePop(q: seq<Datagram>, place: map<nat, Place>, to: Place)
    requires QueuePlaced(q, place) && q != [] && to != InQueue
    ensures QueuePlaced(q[1..], place[q[0].id := to])
  {
    var place' := place[q[0].id := to];
    forall id | id in place' && place'[id] == InQueue ensures exists i :: 0 <= i < |q[1..]| && q[1..][i].id == id {
      var i :| 0 <= i < |q| && q[i].id == id;
      assert q[1..][i - 1].id == id;
    }
  }

  lemma PacketsApart(q: seq<Packet>, place: map<nat, Place>, id: nat, to: Place)
    requires PacketsPlaced(q, place) && !At(place, id, InPackets) && to != InPackets
    ensures PacketsPlaced(q, place[id := to])
  {
  }

  lemma PacketsPush(q: seq<Packet>, place: map<nat, Place>, k: Packet)
    requires PacketsPlaced(q, place) && !At(place, k.d.id, InPackets)
    ensures PacketsPlaced(q + [k], place[k.d.id := InPackets])
  {
    var q', place' := q + [k], place[k.d.id := InPackets];
    forall id | id in place' && place'[id] == InPackets ensures exists i :: 0 <= i < |q'| && q'[i].d.id == id {
      if id == k.d.id {
        assert q'[|q|].d.id == id;
      } else {
        var i :| 0 <= i < |q| && q[i].d.id == id;
        assert q'[i].d.id == id;
      }
    }
  }

  lemma PacketsPop(q: seq<Packet>, place: map<nat, Place>, to: Place)
    requires PacketsPlaced(q, place) && q != [] && to != InPackets
    ensures PacketsPlaced(q[1..], place[q[0].d.id := to])
  {
    var place' := place[q[0].d.id := to];
    forall id | id in place' && place'[id] == InPackets ensures exists i :: 0 <= i < |q[1..]| && q[1..][i].d.id == id {
      var i :| 0 <= i < |q| && q[i].d.id == id;
      assert q[1..][i - 1].d.id == id;
    }
  }

  lemma LogApart(log: seq<(nat, Fate)>, place: map<nat, Place>, id: nat, to: Place)
    requires LogPlaced(log, place) && !At(place, id, Accounted) && to != Accounted
    ensures LogPlaced(log, place[id := to])
  {
  }

  lemma LogPush(log: seq<(nat, Fate)>, place: map<nat, Place>, id: nat, fate: Fate)
    requires LogPlaced(log, place) && !At(place, id, Accounted)
    ensures LogPlaced(log + [(id, fate)], place[id := Accounted])
  {
    var log', place' := log + [(id, fate)], place[id := Accounted];
    forall k | k in place' && place'[k] == Accounted ensures exists i :: 0 <= i < |log'| && log'[i].0 == k {
      if k == id {
        assert log'[|log|].0 == k;
      } else {
        var i :| 0 <= i < |log| && log[i].0 == k;
        assert log'[i].0 == k;
      }
    }
  }

  lemma ReceiverApart(r: Receiver, place: map<nat, Place>, id: nat, to: Place)
    requires ReceiverPlaced(r, place) && !At(place, id, AtReceiver) && to != AtReceiver
    ensures ReceiverPlaced(r, place[id := to])
  {
  }

  lemma ReceiverEmptied(r: Receiver, place: map<nat, Place>, to: Place)
    requires ReceiverPlaced(r, place) && !r.Resting? && to != AtReceiver
    ensures ReceiverPlaced(Resting, place[r.d.id := to])
  {
  }

  lemma HandsApart(procs: map<nat, Proc>, place: map<nat, Place>, id: nat, to: Place)
    requires HandsPlaced(procs, place) && (id in place ==> !place[id].With?) && !to.With?
    ensures HandsPlaced(procs, place[id := to])
  {
  }

  lemma HandFilled(procs: map<nat, Proc>, place: map<nat, Place>, p: nat, proc: Proc, id: nat)
    requires HandsPlaced(procs, place) && p in procs && Hand(procs[p]).None? && Hand(proc) == Some(id)
    requires id in place ==> !place[id].With?
    ensures HandsPlaced(procs[p := proc], place[id := With(p)])
  {
  }

  lemma HandEmptied(procs: map<nat, Proc>, place: map<nat, Place>, p: nat, proc: Proc, to: Place)
    requires HandsPlaced(procs, place) && p in procs && Hand(procs[p]).Some? && Hand(proc).None? && !to.With?
    ensures HandsPlaced(procs[p := proc], place[Hand(procs[p]).value := to])
  {
  }

  lemma HandKept(procs: map<nat, Proc>, place: map<nat, Place>, p: nat, proc: Proc)
    requires HandsPlaced(procs, place) && if p in procs then Hand(proc) == Hand(procs[p]) else Hand(proc).None?
    ensures HandsPlaced(procs[p := proc], place)
  {
  }

  lemma HandGone(procs: map<nat, Proc>, place: map<nat, Place>, p: nat)
    requires HandsPlaced(procs, place) && p in procs && Hand(procs[p]).None?
    ensures HandsPlaced(procs - {p}, place)
  {
  }

  // ---- One lemma for each kind of move -------------------------------------------------------

  lemma Arrival(t: Traffic, d: Datagram)
    requires Balanced(t) && t.receiver.Resting? && d.id == t.received
    ensures Balanced(t.(received := t.received + 1, place := t.place[d.id := AtReceiver], receiver := Arrived(d)))
  {
    QueueApart(t.queue, t.place, d.id, AtReceiver);
    PacketsApart(t.packets, t.place, d.id, AtReceiver);
    LogApart(t.log, t.place, d.id, AtReceiver);
    HandsApart(t.procs, t.place, d.id, AtReceiver);
  }

  lemma ReceiverToLog(t: Traffic, fate: Fate)
    requires Balanced(t) && !t.receiver.Resting?
    ensures Balanced(t.(receiver := Resting, place := t.place[t.receiver.d.id := Accounted], log := t.log + [(t.receiver.d.id, fate)]))
  {
    var id := t.receiver.d.id;
    QueueApart(t.queue, t.place, id, Accounted);
    PacketsApart(t.packets, t.place, id, Accounted);
    LogPush(t.log, t.place, id, fate);
    HandsApart(t.procs, t.place, id, Accounted);
    ReceiverEmptied(t.receiver, t.place, Accounted);
  }

  lemma ReceiverToQueue(t: Traffic)
    requires Balanced(t) && !t.receiver.Resting?
    ensures Balanced(t.(receiver := Resting, place := t.place[t.receiver.d.id := InQueue], queue := t.queue + [t.receiver.d]))
  {
    var id := t.receiver.d.id;
    QueuePush(t.queue, t.place, t.receiver.d);
    PacketsApart(t.packets, t.place, id, InQueue);
    LogApart(t.log, t.place, id, InQueue);
    HandsApart(t.procs, t.place, id, InQueue);
    ReceiverEmptied(t.receiver, t.place, InQueue);
  }

  lemma ReceiverToPackets(t: Traffic, flow: FlowId)
    requires Balanced(t) && !t.receiver.Resting?
    ensures Balanced(t.(receiver := Resting, place := t.place[t.receiver.d.id := InPackets], packets := t.packets + [Packet(t.receiver.d, flow)]))
  {
    var id := t.receiver.d.id;
    QueueApart(t.queue, t.place, id, InPackets);
    PacketsPush(t.packets, t.place, Packet(t.receiver.d, flow));
    LogApart(t.log, t.place, id, InPackets);
    HandsApart(t.procs, t.place, id, InPackets);
    ReceiverEmptied(t.receiver, t.place, InPackets);
  }

  lemma QueueToHand(t: Traffic, p: nat, proc: Proc)
    requires Balanced(t) && t.queue != [] && p in t.procs && Hand(t.procs[p]).None? && Hand(proc) == Some(t.queue[0].id)
    ensures Balanced(t.(queue := t.queue[1..], procs := t.procs[p := proc], place := t.place[t.queue[0].id := With(p)]))
  {
    var id := t.queue[0].id;
    QueuePop(t.queue, t.place, With(p));
    PacketsApart(t.packets, t.place, id, With(p));
    LogApart(t.log, t.place, id, With(p));
    HandFilled(t.procs, t.place, p, proc, id);
    ReceiverApart(t.receiver, t.place, id, With(p));
  }

  lemma PacketToHand(t: Traffic, p: nat, proc: Proc)
    requires Balanced(t) && t.packets != [] && p in t.procs && Hand(t.procs[p]).None? && Hand(proc) == Some(t.packets[0].d.id)
    ensures Balanced(t.(packets := t.packets[1..], procs := t.procs[p := proc], place := t.place[t.packets[0].d.id := With(p)]))
  {
    var id := t.packets[0].d.id;
    QueueApart(t.queue, t.place, id, With(p));
    PacketsPop(t.packets, t.place, With(p));
    LogApart(t.log, t.place, id, With(p));
    HandFilled(t.procs, t.place, p, proc, id);
    ReceiverApart(t.receiver, t.place, id, With(p));
  }

  lemma HandToLog(t: Traffic, p: nat, proc: Proc, id: nat, fate: Fate)
    requires Balanced(t) && p in t.procs && Hand(t.procs[p]) == Some(id) && Hand(proc).None?
    ensures Balanced(t.(procs := t.procs[p := proc], place := t.place[id := Accounted], log := t.log + [(id, fate)]))
  {
    QueueApart(t.queue, t.place, id, Accounted);
    PacketsApart(t.packets, t.place, id, Accounted);
    LogPush(t.log, t.place, id, fate);
    HandEmptied(t.procs, t.place, p, proc, Accounted);
    ReceiverApart(t.receiver, t.place, id, Accounted);
  }

  lemma HandLost(t: Traffic, p: nat, proc: Proc, id: nat)
    requires Balanced(t) && t.cancelled && p in t.procs && Hand(t.procs[p]) == Some(id) && Hand(proc).None?
    ensures Balanced(t.(procs := t.procs[p := proc], place := t.place[id := Lost]))
  {
    QueueApart(t.queue, t.place, id, Lost);
    PacketsApart(t.packets, t.place, id, Lost);
    LogApart(t.log, t.place, id, Lost);
    HandEmptied(t.procs, t.place, p, proc, Lost);
    ReceiverApart(t.receiver, t.place, id, Lost);
  }

  // ---- Before authentication -----------------------------------------------------------------

  /** Before authentication nothing has passed the gate: no datagram is queued or in a worker's hands,
      and every account so far says that authentication was missing. */
  ghost predicate AuthFirst(s: State)
  {
    !s.authed ==>
      && (s.receiver.Resting? || s.receiver.Arrived?) && s.queue == [] && s.packets == []
      && (forall p :: p in s.procs ==> Hand(s.procs[p]).None?)
      && (forall i :: 0 <= i < |s.log| ==> s.log[i].1 == DropAuth)
  }

  /** Events that need a datagram past the gate. */
  predicate PastGate(e: Event)
  {
    e.Check? || e.Lookup? || e.Enqueue? || e.Take? || e.Begin? || e.Decide? || e.DialDone? || e.WriteLock? || e.SocketWrite?
  }

  lemma NothingPastGate(s: State, e: Event)
    requires AuthFirst(s) && !s.authed && PastGate(e)
    ensures !Enabled(s, e)
  {
    assert forall p :: JobOf(s, p).Some? ==> Hand(s.procs[p]).None?;
  }

  lemma AuthStays(s: State, e: Event)
    requires Enabled(s, e) && s.authed
    ensures Apply(s, e).authed
  {
  }

  lemma BeforeGateStep(s: State, e: Event)
    requires AuthFirst(s) && Enabled(s, e) && !s.authed && !PastGate(e)
    ensures AuthFirst(Apply(s, e))
  {
  }

  lemma AuthFirstStep(s: State, e: Event)
    requires AuthFirst(s) && Enabled(s, e)
    ensures AuthFirst(Apply(s, e))
  {
    if s.authed {
      AuthStays(s, e);
    } else if PastGate(e) {
      NothingPastGate(s, e);
    } else {
      BeforeGateStep(s, e);
    }
  }

  // ---- Every event ---------------------------------------------------------------------------

  lemma DropReceivedAccounts(s: State, fate: Fate)
    requires Accounts(s) && !s.receiver.Resting?
    ensures Accounts(DropReceived(s, s.receiver.d.id, fate))
  {
    ReceiverToLog(TrafficOf(s), fate);
  }

  lemma GateAccounts(s: State)
    requires Accounts(s) && s.receiver.Arrived?
    ensures Accounts(DoGate(s, s.receiver.d))
  {
    DropReceivedAccounts(s, DropAuth);
    DropReceivedAccounts(s, DropSize);
    DropReceivedAccounts(s, DropInvalid);
  }

  lemma CheckAccounts(s: State)
    requires Accounts(s) && s.receiver.Gated?
    ensures Accounts(DoCheck(s, s.receiver.d))
  {
    DropReceivedAccounts(s, DropAuth);
    DropReceivedAccounts(s, DropSize);
    DropReceivedAccounts(s, DropClosed);
  }

  lemma EnqueueAccounts(s: State)
    requires Accounts(s) && s.receiver.Routed?
    ensures Accounts(DoEnqueue(s, s.receiver.d, s.receiver.flow))
  {
    DropReceivedAccounts(s, DropQueue);
    ReceiverToQueue(TrafficOf(s));
    if s.receiver.flow.Some? { ReceiverToPackets(TrafficOf(s), s.receiver.flow.value); }
  }

  lemma TakeAccounts(s: State, p: nat)
    requires Accounts(s) && Enabled(s, Take(p))
    ensures Accounts(DoTake(s, p))
  {
    if s.procs[p].Worker? {
      QueueToHand(TrafficOf(s), p, WithJob(s.procs[p], TookNew(s.queue[0])));
    } else {
      PacketToHand(TrafficOf(s), p, WithJob(s.procs[p], TookPacket(s.packets[0].d, s.packets[0].flow)));
    }
  }

  lemma SetJobAccounts(s: State, p: nat, job: Job)
    requires Accounts(s) && JobOf(s, p).Some? && Hand(s.procs[p]).Some? && !job.Idle? && Hand(s.procs[p]) == Some(job.d.id)
    ensures Accounts(SetJob(s, p, job))
  {
    HandKept(s.procs, s.place, p, WithJob(s.procs[p], job));
  }

  lemma SettleAccounts(s: State, p: nat, id: nat, fate: Fate)
    requires Accounts(s) && JobOf(s, p).Some? && Hand(s.procs[p]) == Some(id)
    ensures Accounts(Settle(s, p, id, fate))
  {
    HandToLog(TrafficOf(s), p, WithJob(s.procs[p], Idle), id, fate);
  }

  lemma AbandonAccounts(s: State, p: nat, id: nat)
    requires Accounts(s) && s.cancelled && JobOf(s, p).Some? && Hand(s.procs[p]) == Some(id)
    ensures Accounts(Abandon(s, p, id))
  {
    HandLost(TrafficOf(s), p, WithJob(s.procs[p], Idle), id);
  }

  lemma BeginAccounts(s: State, p: nat, job: Job)
    requires Accounts(s) && AuthFirst(s) && JobOf(s, p) == Some(job) && (job.TookNew? || job.TookPacket?)
    ensures Accounts(DoBegin(s, p, job))
  {
    assert s.authed by {
      assert Hand(s.procs[p]).Some?;
    }
    if s.cancelled {
      AbandonAccounts(s, p, job.d.id);
    } else {
      SetJobAccounts(s, p, if job.TookNew? then Deciding(job.d) else Writing(job.d, job.flow));
    }
  }

  lemma DecidedAccounts(s: State, p: nat, d: Datagram, a: Admission)
    requires Accounts(s) && JobOf(s, p) == Some(Deciding(d)) && (a.Closed? ==> s.cancelled)
    ensures Accounts(Decided(s, p, d, a))
  {
    match a
    case Closed => AbandonAccounts(s, p, d.id);
    case Existing(flow) => SetJobAccounts(s, p, Writing(d, flow));
    case Busy => SettleAccounts(s, p, d.id, DropQueue);
    case AtLimit => SettleAccounts(s, p, d.id, DropLimit);
    case Throttled => SettleAccounts(s, p, d.id, DropRate);
    case Admitted => SetJobAccounts(s, p, Dialing(d));
  }

  lemma DecideAccounts(s: State, p: nat, d: Datagram)
    requires Accounts(s) && Inv(s) && JobOf(s, p) == Some(Deciding(d))
    ensures Accounts(DoDecide(s, p, d))
  {
    AdmitShape(s.opt, s.t, d.key, s.now);
    var (t, a) := Admit(s.opt, s.t, d.key, s.now);
    DecidedAccounts(s.(t := t), p, d, a);
  }

  lemma DialDoneAccounts(s: State, p: nat, d: Datagram, result: DialResult)
    requires Accounts(s) && Inv(s) && JobOf(s, p) == Some(Dialing(d))
    ensures Accounts(DoDialDone(s, p, d, result))
  {
    var s0 := s.(t := Install(s.t, d.key, result == Dialled(true), s.nextProc), dialer := s.dialer - {d.key});
    match result
    case DialFailed(reason) => SettleAccounts(s0, p, d.id, reason);
    case Dialled(udp) =>
      if s.t.closed {
        AbandonAccounts(s0, p, d.id);
      } else if !udp {
        SettleAccounts(s0, p, d.id, DropSend);
      } else {
        FlowAccounts(s0, p, d);
      }
  }

  lemma FlowAccounts(s: State, p: nat, d: Datagram)
    requires Accounts(s) && Counted(s.wg, s.procs, s.nextProc) && JobOf(s, p) == Some(Dialing(d))
    ensures var s1 := SetJob(s, p, Writing(d, s.nextProc));
            Balanced(TrafficOf(s).(procs := s1.procs[s.nextProc := Pump(d.key, Pumping)]))
  {
    SetJobAccounts(s, p, Writing(d, s.nextProc));
    HandKept(SetJob(s, p, Writing(d, s.nextProc)).procs, s.place, s.nextProc, Pump(d.key, Pumping));
  }

  lemma WriteLockAccounts(s: State, p: nat, d: Datagram, flow: FlowId)
    requires Accounts(s) && Inv(s) && JobOf(s, p) == Some(Writing(d, flow))
    ensures Accounts(DoWriteLock(s, p, d, flow))
  {
    if s.t.closed {
      AbandonAccounts(s, p, d.id);
    } else {
      SetJobAccounts(s, p, Sending(d, flow));
    }
  }

  lemma ExitAccounts(s: State, p: nat)
    requires Accounts(s) && p in s.procs && Hand(s.procs[p]).None?
    ensures Accounts(Exit(s, p))
  {
    HandGone(s.procs, s.place, p);
  }

  lemma AccountsStep(s: State, e: Event)
    requires Accounts(s) && Inv(s) && AuthFirst(s) && Enabled(s, e)
    ensures Accounts(Apply(s, e))
  {
    match e
    case Tick(_) =>
    case Authenticate =>
    case Cancel =>
    case Receive(oversize, wellFormed, key, size) =>
      Arrival(TrafficOf(s), Datagram(s.received, oversize, wellFormed, key, size));
    case Gate => GateAccounts(s);
    case Check => CheckAccounts(s);
    case Lookup =>
    case Enqueue => EnqueueAccounts(s);
    case Take(p) => TakeAccounts(s, p);
    case Begin(p) => BeginAccounts(s, p, JobOf(s, p).value);
    case Decide(p) => DecideAccounts(s, p, JobOf(s, p).value.d);
    case DialDone(p, result) => DialDoneAccounts(s, p, JobOf(s, p).value.d, result);
    case WriteLock(p) => WriteLockAccounts(s, p, JobOf(s, p).value.d, JobOf(s, p).value.flow);
    case SocketWrite(p, ok) => SettleAccounts(s, p, JobOf(s, p).value.d.id, if ok then SentUp else DropSend);
    case WorkerExit(p) => ExitAccounts(s, p);
    case PumpLeave(p) => HandKept(s.procs, s.place, p, s.procs[p].(phase := Leaving));
    case PumpRetire(p) => HandKept(s.procs, s.place, p, s.procs[p].(phase := Gone));
    case PumpExit(p) => ExitAccounts(s, p);
    case CloseTables =>
  }

  /** Everything the runs below rely on. */
  ghost predicate Sound(s: State)
  {
    Inv(s) && Accounts(s) && AuthFirst(s)
  }

  lemma SoundStep(s: State, e: Event)
    requires Sound(s) && Enabled(s, e)
    ensures Sound(Apply(s, e))
  {
    InvStep(s, e);
    AccountsStep(s, e);
    AuthFirstStep(s, e);
  }

  lemma {:induction false} SoundRun(s: State, es: seq<Event>, s': State)
    requires Sound(s) && Run(s, es, s')
    ensures Sound(s')
    decreases |es|
  {
    if es != [] {
      SoundStep(s, es[0]);
      SoundRun(Apply(s, es[0]), es[1..], s');
    }
  }

  lemma InitialSound(o: Options, now: real)
    ensures Sound(Initial(o, now))
  {
    InitialInv(o, now);
    InitialAccounts(o, now);
  }

  lemma ReachableSound(s: State)
    requires Reachable(s)
    ensures Sound(s)
  {
    var o, now, es :| Run(Initial(o, now), es, s);
    InitialSound(o, now);
    SoundRun(Initial(o, now), es, s);
  }
}

/** What every step of the NAT keeps: the tables stay disjoint and bounded, each pending key belongs
    to one worker and each flow to one pump, and a closed NAT drains. */
module NatSafety {
  import opened Bytes
  import opened NatTables
  import opened NatMachine

  /** The part of the state that the tables and the goroutines live in. */
  datatype Core = Core(opt: Options, t: Tables, cancelled: bool, now: real, procs: map<nat, Proc>, wg: int,
                       nextProc: nat, sockets: set<FlowId>, dialer: map<Key, nat>)

  function CoreOf(s: State): Core
  {
    Core(s.opt, s.t, s.cancelled, s.now, s.procs, s.wg, s.nextProc, s.sockets, s.dialer)
  }

  ghost predicate TablesOk(c: Core)
  {
    Sane(c.opt) && TablesValid(c.opt, c.t) && c.t.tokenTime <= c.now && c.dialer.Keys == c.t.pending
  }

  /** The goroutine is between the two critical sections of `send`. */
  predicate Dials(proc: Proc)
  {
    !proc.Pump? && proc.job.Dialing?
  }

  /** The goroutine is a pump that has not removed its flow yet. */
  predicate LivePump(proc: Proc)
  {
    proc.Pump? && proc.phase != Gone
  }

  /** Pending keys and dialling workers match one to one. */
  ghost predicate PendingOwned(dialer: map<Key, nat>, procs: map<nat, Proc>)
  {
    && (forall k :: k in dialer ==> dialer[k] in procs && Dials(procs[dialer[k]]) && procs[dialer[k]].job.d.key == k)
    && (forall p :: p in procs && Dials(procs[p]) ==> procs[p].job.d.key in dialer && dialer[procs[p].job.d.key] == p)
  }

  /** Flows and live pumps match one to one. */
  ghost predicate FlowsPumped(flows: map<Key, FlowId>, procs: map<nat, Proc>)
  {
    && (forall k :: k in flows ==> flows[k] in procs && LivePump(procs[flows[k]]) && procs[flows[k]].key == k)
    && (forall p :: p in procs && LivePump(procs[p]) ==> procs[p].key in flows && flows[procs[p].key] == p)
  }

  /** The wait group counts the live goroutines, and their ids are used up. */
  ghost predicate Counted(wg: int, procs: map<nat, Proc>, nextProc: nat)
  {
    wg == |procs| && forall p :: p in procs ==> p < nextProc
  }

  /** Only a pump that is still pumping has an open socket. */
  ghost predicate SocketsOwned(sockets: set<FlowId>, procs: map<nat, Proc>)
  {
    forall f :: f in sockets ==> f in procs && procs[f].Pump? && procs[f].phase == Pumping
  }

  ghost predicate CoreInv(c: Core)
  {
    && TablesOk(c) && PendingOwned(c.dialer, c.procs) && FlowsPumped(c.t.flows, c.procs)
    && Counted(c.wg, c.procs, c.nextProc) && SocketsOwned(c.sockets, c.procs)
    && (c.t.closed ==> c.sockets == {} && c.cancelled)
  }

  ghost predicate Inv(s: State)
  {
    CoreInv(CoreOf(s))
  }

  lemma InitialInv(o: Options, now: real)
    ensures Inv(Initial(o, now))
  {
  }

  // ---- How each part changes with the goroutines ---------------------------------------------

  lemma PendingUntouched(dialer: map<Key, nat>, procs: map<nat, Proc>, p: nat, proc: Proc)
    requires PendingOwned(dialer, procs) && (p in procs ==> !Dials(procs[p])) && !Dials(proc)
    ensures PendingOwned(dialer, procs[p := proc])
  {
  }

  lemma PendingStarted(dialer: map<Key, nat>, procs: map<nat, Proc>, p: nat, proc: Proc)
    requires PendingOwned(dialer, procs) && p in procs && !Dials(procs[p]) && Dials(proc) && proc.job.d.key !in dialer
    ensures PendingOwned(dialer[proc.job.d.key := p], procs[p := proc])
  {
  }

  lemma PendingEnded(dialer: map<Key, nat>, procs: map<nat, Proc>, p: nat, proc: Proc)
    requires PendingOwned(dialer, procs) && p in procs && Dials(procs[p]) && !Dials(proc)
    ensures PendingOwned(dialer - {procs[p].job.d.key}, procs[p := proc])
  {
  }

  lemma FlowsUntouched(flows: map<Key, FlowId>, procs: map<nat, Proc>, p: nat, proc: Proc)
    requires FlowsPumped(flows, procs) && (p in procs ==> !LivePump(procs[p])) && !LivePump(proc)
    ensures FlowsPumped(flows, procs[p := proc])
  {
  }

  lemma FlowStarted(flows: map<Key, FlowId>, procs: map<nat, Proc>, p: nat, key: Key)
    requires FlowsPumped(flows, procs) && p !in procs && key !in flows
    ensures FlowsPumped(flows[key := p], procs[p := Pump(key, Pumping)])
  {
  }

  lemma FlowEnded(flows: map<Key, FlowId>, procs: map<nat, Proc>, p: nat)
    requires FlowsPumped(flows, procs) && p in procs && LivePump(procs[p])
    ensures FlowsPumped(flows - {procs[p].key}, procs[p := procs[p].(phase := Gone)])
  {
  }

  lemma SocketsUntouched(sockets: set<FlowId>, procs: map<nat, Proc>, p: nat, proc: Proc)
    requires SocketsOwned(sockets, procs) && (p in procs ==> !procs[p].Pump?)
    ensures SocketsOwned(sockets, procs[p := proc])
  {
  }

  lemma CountSame(wg: int, procs: map<nat, Proc>, nextProc: nat, p: nat, proc: Proc)
    requires Counted(wg, procs, nextProc) && p in procs
    ensures Counted(wg, procs[p := proc], nextProc)
  {
    assert procs[p := proc].Keys == procs.Keys;
    assert |procs[p := proc]| == |procs[p := proc].Keys|;
  }

  lemma CountMore(wg: int, procs: map<nat, Proc>, nextProc: nat, proc: Proc)
    requires Counted(wg, procs, nextProc)
    ensures nextProc !in procs && Counted(wg + 1, procs[nextProc := proc], nextProc + 1)
  {
    assert procs[nextProc := proc].Keys == procs.Keys + {nextProc};
    assert |procs[nextProc := proc]| == |procs[nextProc := proc].Keys|;
  }

  lemma CountLess(wg: int, procs: map<nat, Proc>, nextProc: nat, p: nat)
    requires Counted(wg, procs, nextProc) && p in procs
    ensures Counted(wg - 1, procs - {p}, nextProc)
  {
    assert (procs - {p}).Keys == procs.Keys - {p};
    assert |procs - {p}| == |(procs - {p}).Keys|;
  }

  // ---- One lemma for each way the core changes -----------------------------------------------

  predicate Plain(proc: Proc)
  {
    !proc.Pump? && !proc.job.Dialing?
  }

  /** A worker changes jobs, neither of which is a dial; the bucket may have been refilled. */
  lemma Rejob(c: Core, t: Tables, p: nat, proc: Proc)
    requires CoreInv(c) && p in c.procs && Plain(c.procs[p]) && Plain(proc)
    requires TablesOk(c.(t := t)) && t.flows == c.t.flows && t.closed == c.t.closed
    ensures CoreInv(c.(t := t, procs := c.procs[p := proc]))
  {
    PendingUntouched(c.dialer, c.procs, p, proc);
    FlowsUntouched(c.t.flows, c.procs, p, proc);
    SocketsUntouched(c.sockets, c.procs, p, proc);
    CountSame(c.wg, c.procs, c.nextProc, p, proc);
  }

  lemma StartDial(c: Core, t: Tables, p: nat, proc: Proc)
    requires CoreInv(c) && p in c.procs && Plain(c.procs[p]) && Dials(proc) && proc.job.d.key !in c.dialer
    requires TablesOk(c.(t := t, dialer := c.dialer[proc.job.d.key := p])) && t.flows == c.t.flows && t.closed == c.t.closed
    ensures CoreInv(c.(t := t, procs := c.procs[p := proc], dialer := c.dialer[proc.job.d.key := p]))
  {
    PendingStarted(c.dialer, c.procs, p, proc);
    FlowsUntouched(c.t.flows, c.procs, p, proc);
    SocketsUntouched(c.sockets, c.procs, p, proc);
    CountSame(c.wg, c.procs, c.nextProc, p, proc);
  }

  /** The dial gave no flow. */
  lemma EndDial(c: Core, p: nat, proc: Proc, key: Key)
    requires CoreInv(c) && p in c.procs && Dials(c.procs[p]) && c.procs[p].job.d.key == key && Plain(proc)
    ensures CoreInv(c.(t := c.t.(pending := c.t.pending - {key}), procs := c.procs[p := proc], dialer := c.dialer - {key}))
  {
    PendingEnded(c.dialer, c.procs, p, proc);
    FlowsUntouched(c.t.flows, c.procs, p, proc);
    SocketsUntouched(c.sockets, c.procs, p, proc);
    CountSame(c.wg, c.procs, c.nextProc, p, proc);
    InstallKeeps(c.opt, c.t, key, false, 0);
  }

  lemma OneMoreFlow(c: Core, key: Key, f: FlowId)
    requires TablesOk(c) && key !in c.t.flows && key !in c.t.pending && |c.t.flows| + |c.t.pending| < c.opt.maxFlows
    ensures TablesOk(c.(t := c.t.(flows := c.t.flows[key := f])))
  {
    assert c.t.flows[key := f].Keys == c.t.flows.Keys + {key};
    assert |c.t.flows[key := f]| == |c.t.flows[key := f].Keys|;
  }

  /** A flow appears under a free key, with the next id, and its pump starts with it. */
  lemma StartFlow(c: Core, key: Key)
    requires CoreInv(c) && !c.t.closed && key !in c.t.flows && key !in c.t.pending
    requires |c.t.flows| + |c.t.pending| < c.opt.maxFlows
    ensures var f := c.nextProc;
            CoreInv(c.(t := c.t.(flows := c.t.flows[key := f]), procs := c.procs[f := Pump(key, Pumping)],
                       wg := c.wg + 1, nextProc := f + 1, sockets := c.sockets + {f}))
  {
    var f, pump := c.nextProc, Pump(key, Pumping);
    CountMore(c.wg, c.procs, f, pump);
    PendingUntouched(c.dialer, c.procs, f, pump);
    FlowStarted(c.t.flows, c.procs, f, key);
    SocketsUntouched(c.sockets, c.procs, f, pump);
    OneMoreFlow(c, key, f);
  }

  /** The dial gave a flow. */
  lemma EndDialWithFlow(c: Core, p: nat, proc: Proc, key: Key)
    requires CoreInv(c) && !c.t.closed && p in c.procs && Dials(c.procs[p]) && c.procs[p].job.d.key == key && Plain(proc)
    ensures var f := c.nextProc;
            CoreInv(c.(t := Install(c.t, key, true, f), procs := c.procs[p := proc][f := Pump(key, Pumping)],
                       wg := c.wg + 1, nextProc := f + 1, sockets := c.sockets + {f}, dialer := c.dialer - {key}))
  {
    assert key in c.dialer.Keys;
    EndDial(c, p, proc, key);
    assert |c.t.pending - {key}| == |c.t.pending| - 1;
    StartFlow(c.(t := c.t.(pending := c.t.pending - {key}), procs := c.procs[p := proc], dialer := c.dialer - {key}), key);
  }

  /** A goroutine that owns nothing exits. */
  lemma Leave(c: Core, p: nat)
    requires CoreInv(c) && p in c.procs && (Plain(c.procs[p]) || (c.procs[p].Pump? && c.procs[p].phase == Gone))
    ensures CoreInv(c.(procs := c.procs - {p}, wg := c.wg - 1))
  {
    CountLess(c.wg, c.procs, c.nextProc, p);
    assert PendingOwned(c.dialer, c.procs - {p});
    assert FlowsPumped(c.t.flows, c.procs - {p});
  }

  lemma StopPumping(c: Core, p: nat)
    requires CoreInv(c) && p in c.procs && c.procs[p].Pump? && c.procs[p].phase == Pumping
    ensures CoreInv(c.(procs := c.procs[p := c.procs[p].(phase := Leaving)], sockets := c.sockets - {p}))
  {
    var proc := c.procs[p].(phase := Leaving);
    PendingUntouched(c.dialer, c.procs, p, proc);
    CountSame(c.wg, c.procs, c.nextProc, p, proc);
    assert FlowsPumped(c.t.flows, c.procs[p := proc]);
  }

  lemma RemoveFlow(c: Core, p: nat)
    requires CoreInv(c) && p in c.procs && c.procs[p].Pump? && c.procs[p].phase == Leaving
    ensures CoreInv(c.(procs := c.procs[p := c.procs[p].(phase := Gone)], t := Retire(c.t, c.procs[p].key, p)))
  {
    var proc := c.procs[p].(phase := Gone);
    PendingUntouched(c.dialer, c.procs, p, proc);
    CountSame(c.wg, c.procs, c.nextProc, p, proc);
    RetireKeeps(c.opt, c.t, c.procs[p].key, p);
    FlowEnded(c.t.flows, c.procs, p);
  }

  lemma ShutCore(c: Core)
    requires CoreInv(c) && c.cancelled
    ensures CoreInv(c.(t := Shut(c.t), sockets := c.sockets - c.t.flows.Values))
  {
    forall f | f in c.sockets ensures f in c.t.flows.Values {
      assert LivePump(c.procs[f]);
      assert c.t.flows[c.procs[f].key] == f;
    }
  }

  // ---- Every event ---------------------------------------------------------------------------

  function WithJob(proc: Proc, job: Job): Proc
    requires !proc.Pump?
  {
    if proc.Worker? then Worker(job) else PacketWorker(job)
  }

  function Rejobbed(c: Core, p: nat, job: Job): Core
    requires p in c.procs && !c.procs[p].Pump?
  {
    c.(procs := c.procs[p := WithJob(c.procs[p], job)])
  }

  lemma JobCores(s: State, p: nat, id: nat, fate: Fate, job: Job)
    requires JobOf(s, p).Some?
    ensures CoreOf(SetJob(s, p, job)) == Rejobbed(CoreOf(s), p, job)
    ensures CoreOf(Settle(s, p, id, fate)) == Rejobbed(CoreOf(s), p, Idle)
    ensures CoreOf(Abandon(s, p, id)) == Rejobbed(CoreOf(s), p, Idle)
  {
  }

  lemma NotAdmittedKeeps(s: State, p: nat, d: Datagram, t: Tables, a: Admission)
    requires Inv(s) && JobOf(s, p) == Some(Deciding(d)) && !a.Admitted?
    requires TablesValid(s.opt, t) && t.flows == s.t.flows && t.closed == s.t.closed && t.tokenTime <= s.now && t.pending == s.t.pending
    ensures Inv(Decided(s.(t := t), p, d, a))
  {
    var job := if a.Existing? then Writing(d, a.flow) else Idle;
    assert CoreOf(Decided(s.(t := t), p, d, a)) == Rejobbed(CoreOf(s.(t := t)), p, job) by {
      JobCores(s.(t := t), p, d.id, if a.Busy? then DropQueue else if a.AtLimit? then DropLimit else DropRate, job);
    }
    Rejob(CoreOf(s), t, p, WithJob(s.procs[p], job));
  }

  lemma AdmittedCore(s: State, p: nat, d: Datagram, t: Tables)
    requires JobOf(s, p) == Some(Deciding(d))
    ensures CoreOf(Decided(s.(t := t), p, d, Admitted))
            == CoreOf(s).(t := t, procs := s.procs[p := WithJob(s.procs[p], Dialing(d))], dialer := s.dialer[d.key := p])
  {
  }

  lemma AdmittedKeeps(s: State, p: nat, d: Datagram, t: Tables)
    requires Inv(s) && JobOf(s, p) == Some(Deciding(d))
    requires TablesValid(s.opt, t) && t.flows == s.t.flows && t.closed == s.t.closed && t.tokenTime <= s.now
    requires d.key !in s.t.pending && t.pending == s.t.pending + {d.key}
    ensures Inv(Decided(s.(t := t), p, d, Admitted))
  {
    assert d.key !in s.dialer.Keys;
    AdmittedCore(s, p, d, t);
    StartDial(CoreOf(s), t, p, WithJob(s.procs[p], Dialing(d)));
  }

  lemma DecideKeeps(s: State, p: nat, d: Datagram)
    requires Inv(s) && JobOf(s, p) == Some(Deciding(d))
    ensures Inv(DoDecide(s, p, d))
  {
    AdmitKeeps(s.opt, s.t, d.key, s.now);
    AdmitShape(s.opt, s.t, d.key, s.now);
    var (t, a) := Admit(s.opt, s.t, d.key, s.now);
    if a.Admitted? {
      AdmittedKeeps(s, p, d, t);
    } else {
      NotAdmittedKeeps(s, p, d, t, a);
    }
  }

  lemma NoFlowCore(s: State, p: nat, d: Datagram, result: DialResult)
    requires JobOf(s, p) == Some(Dialing(d)) && !(result == Dialled(true) && !s.t.closed)
    ensures CoreOf(DoDialDone(s, p, d, result))
            == CoreOf(s).(t := s.t.(pending := s.t.pending - {d.key}),
                          procs := s.procs[p := WithJob(s.procs[p], Idle)], dialer := s.dialer - {d.key})
  {
  }

  lemma FlowCore(s: State, p: nat, d: Datagram)
    requires JobOf(s, p) == Some(Dialing(d)) && !s.t.closed
    ensures var f := s.nextProc;
            CoreOf(DoDialDone(s, p, d, Dialled(true)))
            == CoreOf(s).(t := Install(s.t, d.key, true, f),
                          procs := s.procs[p := WithJob(s.procs[p], Writing(d, f))][f := Pump(d.key, Pumping)],
                          wg := s.wg + 1, nextProc := f + 1, sockets := s.sockets + {f}, dialer := s.dialer - {d.key})
  {
  }

  lemma DialDoneKeeps(s: State, p: nat, d: Datagram, result: DialResult)
    requires Inv(s) && JobOf(s, p) == Some(Dialing(d))
    ensures Inv(DoDialDone(s, p, d, result))
  {
    var c := CoreOf(s);
    if result == Dialled(true) && !s.t.closed {
      FlowCore(s, p, d);
      EndDialWithFlow(c, p, WithJob(s.procs[p], Writing(d, s.nextProc)), d.key);
    } else {
      NoFlowCore(s, p, d, result);
      EndDial(c, p, WithJob(s.procs[p], Idle), d.key);
    }
  }

  /** Events that only give one worker another job. */
  predicate JobOnly(e: Event)
  {
    e.Take? || e.Begin? || e.WriteLock? || e.SocketWrite?
  }

  lemma JobOnlyKeeps(s: State, e: Event)
    requires Inv(s) && Enabled(s, e) && JobOnly(e)
    ensures Inv(Apply(s, e))
  {
    var s' := Apply(s, e);
    assert CoreOf(s') == CoreOf(s).(procs := s.procs[e.p := s'.procs[e.p]]);
    Rejob(CoreOf(s), s.t, e.p, s'.procs[e.p]);
  }

  // The receive loop leaves the core alone.

  lemma DropCore(s: State, id: nat, fate: Fate)
    ensures CoreOf(DropReceived(s, id, fate)) == CoreOf(s)
  {
  }

  lemma GateCore(s: State, d: Datagram)
    ensures CoreOf(DoGate(s, d)) == CoreOf(s)
  {
    DropCore(s, d.id, DropAuth);
    DropCore(s, d.id, DropSize);
    DropCore(s, d.id, DropInvalid);
  }

  lemma CheckCore(s: State, d: Datagram)
    ensures CoreOf(DoCheck(s, d)) == CoreOf(s)
  {
    DropCore(s, d.id, DropAuth);
    DropCore(s, d.id, DropSize);
    DropCore(s, d.id, DropClosed);
  }

  lemma EnqueueCore(s: State, d: Datagram, flow: Option<FlowId>)
    ensures CoreOf(DoEnqueue(s, d, flow)) == CoreOf(s)
  {
    DropCore(s, d.id, DropQueue);
  }

  lemma InvStep(s: State, e: Event)
    requires Inv(s) && Enabled(s, e)
    ensures Inv(Apply(s, e))
  {
    match e
    case Tick(_) =>
    case Authenticate =>
    case Cancel =>
    case Receive(_, _, _, _) =>
    case Gate => GateCore(s, s.receiver.d);
    case Check => CheckCore(s, s.receiver.d);
    case Lookup =>
    case Enqueue => EnqueueCore(s, s.receiver.d, s.receiver.flow);
    case Take(_) => JobOnlyKeeps(s, e);
    case Begin(_) => JobOnlyKeeps(s, e);
    case WriteLock(_) => JobOnlyKeeps(s, e);
    case SocketWrite(_, _) => JobOnlyKeeps(s, e);
    case Decide(p) => DecideKeeps(s, p, JobOf(s, p).value.d);
    case DialDone(p, result) => DialDoneKeeps(s, p, JobOf(s, p).value.d, result);
    case WorkerExit(p) => Leave(CoreOf(s), p);
    case PumpLeave(p) => StopPumping(CoreOf(s), p);
    case PumpRetire(p) => RemoveFlow(CoreOf(s), p);
    case PumpExit(p) => Leave(CoreOf(s), p);
    case CloseTables => ShutCore(CoreOf(s));
  }

  lemma {:induction false} InvRun(s: State, es: seq<Event>, s': State)
    requires Inv(s) && Run(s, es, s')
    ensures Inv(s')
    decreases |es|
  {
    if es != [] {
      InvStep(s, es[0]);
      InvRun(Apply(s, es[0]), es[1..], s');
    }
  }

  // ---- What a maintainer gets ----------------------------------------------------------------

  /** In every reachable state no key is both a flow and pending, the tables together respect the
      limit, every pending key has exactly one worker dialling for it, and every flow exactly one
      live pump. */
  lemma NatBounded(s: State)
    requires Reachable(s)
    ensures s.t.flows.Keys !! s.t.pending && |s.t.flows| + |s.t.pending| <= s.opt.maxFlows
    ensures 0.0 <= s.t.tokens <= s.opt.newFlowsPerSecond as real
    ensures forall k :: k in s.t.pending ==>
              exists p :: p in s.procs && Dials(s.procs[p]) && s.procs[p].job.d.key == k
                && forall q :: q in s.procs && Dials(s.procs[q]) && s.procs[q].job.d.key == k ==> q == p
    ensures forall k :: k in s.t.flows ==>
              exists p :: p in s.procs && LivePump(s.procs[p]) && s.procs[p].key == k
                && forall q :: q in s.procs && LivePump(s.procs[q]) && s.procs[q].key == k ==> q == p
    ensures s.wg == |s.procs|
  {
    ReachableInv(s);
    forall k | k in s.t.pending
      ensures exists p :: p in s.procs && Dials(s.procs[p]) && s.procs[p].job.d.key == k
                && forall q :: q in s.procs && Dials(s.procs[q]) && s.procs[q].job.d.key == k ==> q == p
    {
      assert k in s.dialer.Keys;
      var p := s.dialer[k];
    }
    forall k | k in s.t.flows
      ensures exists p :: p in s.procs && LivePump(s.procs[p]) && s.procs[p].key == k
                && forall q :: q in s.procs && LivePump(s.procs[q]) && s.procs[q].key == k ==> q == p
    {
      var p := s.t.flows[k];
    }
  }

  lemma ReachableInv(s: State)
    requires Reachable(s)
    ensures Inv(s)
  {
    var o, now, es :| Run(Initial(o, now), es, s);
    InitialInv(o, now);
    InvRun(Initial(o, now), es, s);
  }

  /** Inserting a flow never overwrites one. */
  lemma InsertNeverOverwrites(s: State, p: nat, result: DialResult)
    requires Reachable(s) && Enabled(s, DialDone(p, result))
    ensures JobOf(s, p).value.d.key !in s.t.flows
    ensures s.nextProc !in s.procs && s.nextProc !in s.t.flows.Values
  {
    ReachableInv(s);
    assert JobOf(s, p).value.d.key in s.dialer.Keys;
  }

  /** Shut and joined: `close` has passed its critical section and `wg.Wait` can return. */
  ghost predicate Joined(s: State)
  {
    s.t.closed && s.wg == 0
  }

  ghost predicate Empty(s: State)
  {
    s.t.flows == map[] && s.t.pending == {} && s.sockets == {} && s.procs == map[]
  }

  lemma JoinedIsEmpty(s: State)
    requires Inv(s) && Joined(s)
    ensures Empty(s)
  {
    assert |s.procs| == 0;
    assert s.procs == map[];
    assert forall k :: k !in s.t.flows;
    assert forall k :: k !in s.dialer;
    assert s.t.pending == s.dialer.Keys == {};
  }

  lemma JoinedStays(s: State, e: Event)
    requires Inv(s) && Joined(s) && Enabled(s, e)
    ensures Joined(Apply(s, e))
  {
    JoinedIsEmpty(s);
  }

  /** Once a closed NAT's wait group reaches zero, no flow, no pending dial, no goroutine and no
      socket is left, and none ever appears again. */
  lemma {:induction false} NatDrains(s: State, es: seq<Event>, s': State)
    requires Inv(s) && Joined(s) && Run(s, es, s')
    ensures Empty(s) && Empty(s') && Joined(s')
    decreases |es|
  {
    JoinedIsEmpty(s);
    if es != [] {
      InvStep(s, es[0]);
      JoinedStays(s, es[0]);
      NatDrains(Apply(s, es[0]), es[1..], s');
    }
  }

  /** The same for the wait that ends `close` in any run from the start. */
  lemma CloseLeavesNothing(s: State, es: seq<Event>, s': State)
    requires Reachable(s) && Joined(s) && Run(s, es, s')
    ensures Empty(s) && Empty(s')
  {
    ReachableInv(s);
    NatDrains(s, es, s');
  }
}

/** The queues and workers behind the receive loop of internal/server/udp.go hold only what the loop gave them:
    a property of datagrams that holds of all it enqueues holds of all they hold. */
module NatBehind {
  import opened Bytes
  import opened NatTables
  import opened NatMachine
  import opened NatSafety
  import opened NatRouting

  /** All datagrams in a worker's hands satisfy `ok`. */
  ghost predicate JobsOk(procs: map<nat, Proc>, ok: Datagram -> bool)
  {
    forall p :: p in procs && !procs[p].Pump? && !procs[p].job.Idle? ==> ok(procs[p].job.d)
  }

  /** All datagrams behind the receive loop satisfy `ok`. */
  ghost predicate BehindOk(s: State, ok: Datagram -> bool)
  {
    && (forall i :: 0 <= i < |s.queue| ==> ok(s.queue[i]))
    && (forall i :: 0 <= i < |s.packets| ==> ok(s.packets[i].d))
    && JobsOk(s.procs, ok)
  }

  lemma RejobOk(procs: map<nat, Proc>, p: nat, proc: Proc, ok: Datagram -> bool)
    requires JobsOk(procs, ok) && (!proc.Pump? && !proc.job.Idle? ==> ok(proc.job.d))
    ensures JobsOk(procs[p := proc], ok)
  {
  }

  lemma SetJobOk(s: State, p: nat, id: nat, fate: Fate, job: Job, ok: Datagram -> bool)
    requires BehindOk(s, ok) && JobOf(s, p).Some? && (!job.Idle? ==> ok(job.d))
    ensures BehindOk(SetJob(s, p, job), ok) && BehindOk(Settle(s, p, id, fate), ok) && BehindOk(Abandon(s, p, id), ok)
  {
    RejobOk(s.procs, p, WithJob(s.procs[p], job), ok);
    RejobOk(s.procs, p, WithJob(s.procs[p], Idle), ok);
  }

  lemma InHandOk(s: State, p: nat, job: Job, ok: Datagram -> bool)
    requires BehindOk(s, ok) && JobOf(s, p) == Some(job) && !job.Idle?
    ensures ok(job.d)
  {
  }

  lemma TakeOk(s: State, p: nat, ok: Datagram -> bool)
    requires BehindOk(s, ok) && Enabled(s, Take(p))
    ensures BehindOk(DoTake(s, p), ok)
  {
    if s.procs[p].Worker? {
      RejobOk(s.procs, p, Worker(TookNew(s.queue[0])), ok);
    } else {
      RejobOk(s.procs, p, PacketWorker(TookPacket(s.packets[0].d, s.packets[0].flow)), ok);
    }
  }

  lemma BeginOk(s: State, p: nat, job: Job, ok: Datagram -> bool)
    requires BehindOk(s, ok) && JobOf(s, p) == Some(job) && (job.TookNew? || job.TookPacket?)
    ensures BehindOk(DoBegin(s, p, job), ok)
  {
    InHandOk(s, p, job, ok);
    SetJobOk(s, p, job.d.id, SentUp, if job.TookNew? then Deciding(job.d) else Writing(job.d, job.flow), ok);
  }

  lemma DecideOk(s: State, p: nat, d: Datagram, ok: Datagram -> bool)
    requires BehindOk(s, ok) && JobOf(s, p) == Some(Deciding(d))
    ensures BehindOk(DoDecide(s, p, d), ok)
  {
    var (t, a) := Admit(s.opt, s.t, d.key, s.now);
    InHandOk(s, p, Deciding(d), ok);
    DecidedOk(s.(t := t), p, d, a, ok);
  }

  lemma DecidedOk(s: State, p: nat, d: Datagram, a: Admission, ok: Datagram -> bool)
    requires BehindOk(s, ok) && JobOf(s, p) == Some(Deciding(d)) && ok(d)
    ensures BehindOk(Decided(s, p, d, a), ok)
  {
    match a
    case Closed => SetJobOk(s, p, d.id, SentUp, Idle, ok);
    case Existing(flow) => SetJobOk(s, p, d.id, SentUp, Writing(d, flow), ok);
    case Busy => SetJobOk(s, p, d.id, DropQueue, Idle, ok);
    case AtLimit => SetJobOk(s, p, d.id, DropLimit, Idle, ok);
    case Throttled => SetJobOk(s, p, d.id, DropRate, Idle, ok);
    case Admitted => SetJobOk(s, p, d.id, SentUp, Dialing(d), ok);
  }

  lemma DialDoneOk(s: State, p: nat, d: Datagram, result: DialResult, ok: Datagram -> bool)
    requires BehindOk(s, ok) && JobOf(s, p) == Some(Dialing(d))
    ensures BehindOk(DoDialDone(s, p, d, result), ok)
  {
    var s' := DoDialDone(s, p, d, result);
    InHandOk(s, p, Dialing(d), ok);
    DialDoneQueues(s, p, d, result);
    if result == Dialled(true) && !s.t.closed {
      FlowCore(s, p, d);
      assert CoreOf(s').procs == s'.procs;
      RejobOk(s.procs, p, WithJob(s.procs[p], Writing(d, s.nextProc)), ok);
      RejobOk(s.procs[p := WithJob(s.procs[p], Writing(d, s.nextProc))], s.nextProc, Pump(d.key, Pumping), ok);
    } else {
      NoFlowCore(s, p, d, result);
      assert CoreOf(s').procs == s'.procs;
      RejobOk(s.procs, p, WithJob(s.procs[p], Idle), ok);
    }
  }

  lemma WriteOk(s: State, e: Event, ok: Datagram -> bool)
    requires BehindOk(s, ok) && Enabled(s, e) && (e.WriteLock? || e.SocketWrite?)
    ensures BehindOk(Apply(s, e), ok)
  {
    var job := JobOf(s, e.p).value;
    InHandOk(s, e.p, job, ok);
    SetJobOk(s, e.p, job.d.id, if e.SocketWrite? && e.ok then SentUp else DropSend,
             if e.WriteLock? then Sending(job.d, job.flow) else Idle, ok);
  }

  lemma EnqueueOk(s: State, d: Datagram, flow: Option<FlowId>, ok: Datagram -> bool)
    requires BehindOk(s, ok) && ok(d)
    ensures BehindOk(DoEnqueue(s, d, flow), ok)
  {
    EnqueueCore(s, d, flow);
    assert CoreOf(DoEnqueue(s, d, flow)).procs == CoreOf(s).procs;
  }

  lemma PumpOk(s: State, e: Event, ok: Datagram -> bool)
    requires BehindOk(s, ok) && Enabled(s, e)
    requires e.WorkerExit? || e.PumpLeave? || e.PumpRetire? || e.PumpExit?
    ensures BehindOk(Apply(s, e), ok)
  {
  }

  lemma QuietOk(s: State, e: Event, ok: Datagram -> bool)
    requires BehindOk(s, ok) && Enabled(s, e) && !OfProc(e) && !e.Enqueue?
    ensures BehindOk(Apply(s, e), ok)
  {
  }

  /** Only the receive loop adds datagrams behind it. */
  lemma BehindStep(s: State, e: Event, ok: Datagram -> bool)
    requires BehindOk(s, ok) && Enabled(s, e) && (e.Enqueue? ==> ok(s.receiver.d))
    ensures BehindOk(Apply(s, e), ok)
  {
    match e
    case Take(p) => TakeOk(s, p, ok);
    case Begin(p) => BeginOk(s, p, JobOf(s, p).value, ok);
    case Decide(p) => DecideOk(s, p, JobOf(s, p).value.d, ok);
    case DialDone(p, result) => DialDoneOk(s, p, JobOf(s, p).value.d, result, ok);
    case WriteLock(_) => WriteOk(s, e, ok);
    case SocketWrite(_, _) => WriteOk(s, e, ok);
    case WorkerExit(_) => PumpOk(s, e, ok);
    case PumpLeave(_) => PumpOk(s, e, ok);
    case PumpRetire(_) => PumpOk(s, e, ok);
    case PumpExit(_) => PumpOk(s, e, ok);
    case Enqueue => EnqueueOk(s, s.receiver.d, s.receiver.flow, ok);
    case _ => QuietOk(s, e, ok);
  }
}

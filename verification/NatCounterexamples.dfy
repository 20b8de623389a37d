/** Two things internal/server/udp.go does not promise, each with a run that shows it. */
module NatCounterexamples {
  import opened Bytes
  import opened NatTables
  import opened NatMachine
  import opened NatAccounts
  import opened NatFates
  import opened NatTrace
  import opened NatLosses

  const EARLY: Datagram := Datagram(0, false, true, [107], 1)

  lemma ArrivesEarly(o: Options) returns (s: State)
    ensures Run(Initial(o, 0.0), [Receive(false, true, [107], 1), Authenticate], s)
    ensures s == Initial(o, 0.0).(authed := true, receiver := Arrived(EARLY), received := 1, place := map[0 := AtReceiver])
  {
    var s0 := Initial(o, 0.0);
    var s1 := Apply(s0, Receive(false, true, [107], 1));
    RunOne(s1, Authenticate);
    RunCons(s0, Receive(false, true, [107], 1), [Authenticate], Apply(s1, Authenticate));
    s := Apply(s1, Authenticate);
    assert [Receive(false, true, [107], 1)] + [Authenticate] == [Receive(false, true, [107], 1), Authenticate];
  }

  lemma PassesGate(s: State, d: Datagram) returns (s': State)
    requires s.receiver == Arrived(d) && s.authed && !s.cancelled && !d.oversize && d.wellFormed && d.size <= s.opt.maxPayload
    requires d.key !in s.t.flows && s.queue == [] && Sane(s.opt)
    ensures Run(s, [Gate, Check, Lookup, Enqueue], s')
    ensures s' == s.(receiver := Resting, queue := [d], place := s.place[d.id := InQueue])
  {
    var s1 := Apply(s, Gate);
    var s2 := Apply(s1, Check);
    var s3 := Apply(s2, Lookup);
    s' := Apply(s3, Enqueue);
    RunOne(s3, Enqueue);
    RunCons(s2, Lookup, [Enqueue], s');
    RunCons(s1, Check, [Lookup] + [Enqueue], s');
    RunCons(s, Gate, [Check] + ([Lookup] + [Enqueue]), s');
    assert [Gate] + ([Check] + ([Lookup] + [Enqueue])) == [Gate, Check, Lookup, Enqueue];
    assert [] + [d] == [d];
  }

  /** Received first, authenticated then. */
  const ARRIVAL: seq<Event> := [Receive(false, true, [107], 1), Authenticate]
  const ROUTED: seq<Event> := [Gate, Check, Lookup, Enqueue]
  const TAKEN: seq<Event> := [Take(1), Begin(1), Decide(1)]
  const SENT: seq<Event> := [DialDone(1, Dialled(true)), WriteLock(1), SocketWrite(1, true)]

  /** The early datagram is queued once authentication has completed. */
  lemma EarlyIsQueued(o: Options) returns (s: State)
    ensures Run(Initial(o, 0.0), ARRIVAL + ROUTED, s)
    ensures s == Initial(o, 0.0).(authed := true, received := 1, queue := [EARLY], place := map[0 := InQueue])
  {
    var s0 := ArrivesEarly(o);
    s := PassesGate(s0, EARLY);
    RunJoin(Initial(o, 0.0), ARRIVAL, s0, ROUTED, s);
  }

  lemma TakenUp(s: State, d: Datagram) returns (s': State)
    requires JobOf(s, 1) == Some(Idle) && s.procs[1].Worker? && s.queue == [d] && s.authed && !s.cancelled
    ensures Run(s, [Take(1), Begin(1)], s')
    ensures JobOf(s', 1) == Some(Deciding(d)) && s'.opt == s.opt && s'.t == s.t && s'.now == s.now
    ensures s'.log == s.log && s'.nextProc == s.nextProc
  {
    var s1 := Apply(s, Take(1));
    s' := Apply(s1, Begin(1));
    RunOne(s1, Begin(1));
    RunCons(s, Take(1), [Begin(1)], s');
    assert [Take(1)] + [Begin(1)] == [Take(1), Begin(1)];
  }

  lemma AdmittedToDial(s: State, d: Datagram) returns (s': State)
    requires JobOf(s, 1) == Some(Deciding(d)) && Admit(s.opt, s.t, d.key, s.now).1 == Admitted
    ensures Run(s, [Decide(1)], s')
    ensures JobOf(s', 1) == Some(Dialing(d)) && !s'.t.closed && s'.log == s.log && s'.nextProc == s.nextProc
  {
    s' := Apply(s, Decide(1));
    RunOne(s, Decide(1));
  }

  /** A worker takes it and is admitted to dial. */
  lemma TakenAndAdmitted(s: State, d: Datagram) returns (s': State)
    requires JobOf(s, 1) == Some(Idle) && s.procs[1].Worker? && s.queue == [d] && s.authed && !s.cancelled
    requires Admit(s.opt, s.t, d.key, s.now).1 == Admitted
    ensures Run(s, TAKEN, s')
    ensures JobOf(s', 1) == Some(Dialing(d)) && !s'.t.closed && s'.log == s.log && s'.nextProc == s.nextProc
  {
    var s1 := TakenUp(s, d);
    s' := AdmittedToDial(s1, d);
    RunJoin(s, [Take(1), Begin(1)], s1, [Decide(1)], s');
    assert [Take(1), Begin(1)] + [Decide(1)] == TAKEN;
  }

  lemma Dialled1(s: State, d: Datagram) returns (s': State)
    requires JobOf(s, 1) == Some(Dialing(d)) && !s.t.closed && s.nextProc > 1
    ensures Enabled(s, DialDone(1, Dialled(true))) && s' == Apply(s, DialDone(1, Dialled(true)))
    ensures JobOf(s', 1) == Some(Writing(d, s.nextProc)) && !s'.t.closed && s.nextProc in s'.sockets && s'.log == s.log
  {
    s' := Apply(s, DialDone(1, Dialled(true)));
  }

  /** The dial succeeds and the payload is written. */
  lemma DialledAndSent(s: State, d: Datagram) returns (s': State)
    requires JobOf(s, 1) == Some(Dialing(d)) && !s.t.closed && s.nextProc > 1
    ensures Run(s, [DialDone(1, Dialled(true)), WriteLock(1), SocketWrite(1, true)], s')
    ensures s'.log == s.log + [(d.id, SentUp)]
  {
    var s1 := Dialled1(s, d);
    var s2 := Apply(s1, WriteLock(1));
    s' := Apply(s2, SocketWrite(1, true));
    RunOne(s2, SocketWrite(1, true));
    RunCons(s1, WriteLock(1), [SocketWrite(1, true)], s');
    RunCons(s, DialDone(1, Dialled(true)), [WriteLock(1)] + [SocketWrite(1, true)], s');
    assert [DialDone(1, Dialled(true))] + ([WriteLock(1)] + [SocketWrite(1, true)])
        == [DialDone(1, Dialled(true)), WriteLock(1), SocketWrite(1, true)];
  }

  lemma FreshAdmits(o: Options, t: Tables, key: Key)
    requires Sane(o) && t == Tables(map[], {}, false, o.newFlowsPerSecond as real, 0.0)
    ensures Admit(o, t, key, 0.0).1 == Admitted
  {
  }

  lemma QueuedIsSent(s: State, d: Datagram) returns (s': State)
    requires JobOf(s, 1) == Some(Idle) && s.procs[1].Worker? && s.queue == [d] && s.authed && !s.cancelled
    requires Admit(s.opt, s.t, d.key, s.now).1 == Admitted && s.nextProc > 1
    ensures Run(s, TAKEN + SENT, s') && s'.log == s.log + [(d.id, SentUp)]
  {
    var dialing := TakenAndAdmitted(s, d);
    s' := DialledAndSent(dialing, d);
    RunJoin(s, TAKEN, dialing, SENT, s');
  }

  lemma QueuedCanBeTaken(o: Options, s: State)
    requires s == Initial(o, 0.0).(authed := true, received := 1, queue := [EARLY], place := map[0 := InQueue])
    ensures JobOf(s, 1) == Some(Idle) && s.procs[1].Worker? && s.nextProc > 1 && s.log == [] && !s.cancelled
    ensures Admit(s.opt, s.t, EARLY.key, s.now).1 == Admitted
  {
    FreshAdmits(s.opt, s.t, EARLY.key);
  }

  lemma Regroup(a: seq<Event>, b: seq<Event>, c: seq<Event>)
    ensures a + b + c == a + (b + c)
  {
  }

  lemma NoAuthentication()
    ensures Authenticate !in ROUTED + (TAKEN + SENT)
  {
  }

  lemma EarlyRun(o: Options, a: seq<Event>, b: seq<Event>, c: seq<Event>, queued: State, s: State)
    requires Run(Initial(o, 0.0), a + b, queued) && Run(queued, c, s)
    ensures Run(Initial(o, 0.0), a + (b + c), s)
  {
    RunJoin(Initial(o, 0.0), a + b, queued, c, s);
    Regroup(a, b, c);
  }

  /** Receiving and gating are two steps, so a datagram received before authentication is sent when
      authentication completes in between, whatever the configuration: `ARRIVAL` is the receipt and then the
      authentication. */
  lemma EarlyArrivalIsSent(o: Options) returns (es: seq<Event>, s: State)
    ensures Run(Initial(o, 0.0), ARRIVAL + es, s) && Authenticate !in es && s.log == [(0, SentUp)]
  {
    var queued := EarlyIsQueued(o);
    QueuedCanBeTaken(o, queued);
    s := QueuedIsSent(queued, EARLY);
    EarlyRun(o, ARRIVAL, ROUTED, TAKEN + SENT, queued, s);
    es := ROUTED + (TAKEN + SENT);
    NoAuthentication();
  }

  lemma TakenThenCancelled(s: State, d: Datagram) returns (s': State)
    requires JobOf(s, 1) == Some(Idle) && s.procs[1].Worker? && s.queue == [d]
    ensures Run(s, [Take(1), Cancel, Begin(1)], s')
    ensures s' == s.(cancelled := true, queue := [], procs := s.procs[1 := Worker(Idle)], place := s.place[d.id := Lost])
  {
    var s1 := Apply(s, Take(1));
    var s2 := Apply(s1, Cancel);
    s' := Apply(s2, Begin(1));
    RunOne(s2, Begin(1));
    RunCons(s1, Cancel, [Begin(1)], s');
    RunCons(s, Take(1), [Cancel] + [Begin(1)], s');
    assert [Take(1)] + ([Cancel] + [Begin(1)]) == [Take(1), Cancel, Begin(1)];
  }

  lemma LostHere(s: State, fs: seq<Event>, s': State)
    requires Reachable(s) && At(s.place, 0, Lost) && Run(s, fs, s')
    ensures 0 < s'.received && !Logged(s', 0) && !InFlight(s', 0)
  {
    ReachableSound(s);
    PlaceDecides(s, 0);
    GoneForGood(s, fs, s', 0);
  }

  lemma QueuedIsLost(o: Options) returns (s: State)
    ensures Run(Initial(o, 0.0), ARRIVAL + ROUTED + [Take(1), Cancel, Begin(1)], s) && At(s.place, 0, Lost)
  {
    var queued := EarlyIsQueued(o);
    QueuedCanBeTaken(o, queued);
    s := TakenThenCancelled(queued, EARLY);
    RunJoin(Initial(o, 0.0), ARRIVAL + ROUTED, queued, [Take(1), Cancel, Begin(1)], s);
  }

  /** Leaving the queue before cancellation is not enough to be accounted: a worker that took the
      datagram and then finds the context cancelled drops it silently, and nothing accounts for it later. */
  lemma DequeuedCanBeLost(o: Options) returns (es: seq<Event>, s: State)
    ensures Run(Initial(o, 0.0), es + [Take(1), Cancel, Begin(1)], s) && Cancel !in es
    ensures forall fs, s' :: Run(s, fs, s') ==> 0 < s'.received && !Logged(s', 0) && !InFlight(s', 0)
  {
    es := ARRIVAL + ROUTED;
    s := QueuedIsLost(o);
    forall fs, s' | Run(s, fs, s') ensures 0 < s'.received && !Logged(s', 0) && !InFlight(s', 0) {
      LostHere(s, fs, s');
    }
  }
}

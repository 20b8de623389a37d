/** What becomes of a datagram over a whole run of internal/server/udp.go: it ends accounted or lost, for good,
    and it is lost exactly when some step of the run loses it. */
module NatLosses {
  import opened Bytes
  import opened NatTables
  import opened NatMachine
  import opened NatAccounts
  import opened NatFates
  import opened NatTrace

  /** The datagram a step moves. */
  function Subject(s: State, e: Event): Option<nat>
  {
    if e.Receive? then Some(s.received)
    else if e.Gate? || e.Check? || e.Enqueue? then if s.receiver.Resting? then None else Some(s.receiver.d.id)
    else if e.Take? then
      if JobOf(s, e.p).None? then None
      else if s.procs[e.p].Worker? then if s.queue == [] then None else Some(s.queue[0].id)
      else if s.packets == [] then None else Some(s.packets[0].d.id)
    else if e.Begin? || e.Decide? || e.DialDone? || e.WriteLock? || e.SocketWrite? then
      if e.p in s.procs then Hand(s.procs[e.p]) else None
    else None
  }

  ghost predicate Settled(s: State, id: nat)
  {
    id in s.place && (s.place[id] == Accounted || s.place[id] == Lost)
  }

  /** What a step moves is not settled yet. */
  lemma SubjectUnsettled(s: State, e: Event)
    requires Accounts(s) && Enabled(s, e) && Subject(s, e).Some?
    ensures !Settled(s, Subject(s, e).value)
  {
    var id := Subject(s, e).value;
    if e.Take? {
      if s.procs[e.p].Worker? {
        assert At(s.place, s.queue[0].id, InQueue);
      } else {
        assert At(s.place, s.packets[0].d.id, InPackets);
      }
    } else if !e.Receive? && !e.Gate? && !e.Check? && !e.Enqueue? {
      assert Hand(s.procs[e.p]) == Some(id);
      assert At(s.place, id, With(e.p));
    }
  }

  predicate OnlyMoves(place: map<nat, Place>, place': map<nat, Place>, x: Option<nat>)
  {
    place' == place || (x.Some? && x.value in place' && place' == place[x.value := place'[x.value]])
  }

  lemma DropMoves(s: State, id: nat, fate: Fate)
    ensures OnlyMoves(s.place, DropReceived(s, id, fate).place, Some(id))
  {
  }

  lemma GateMoves(s: State, d: Datagram)
    ensures OnlyMoves(s.place, DoGate(s, d).place, Some(d.id))
  {
    DropMoves(s, d.id, DropAuth);
    DropMoves(s, d.id, DropSize);
    DropMoves(s, d.id, DropInvalid);
  }

  lemma CheckMoves(s: State, d: Datagram)
    ensures OnlyMoves(s.place, DoCheck(s, d).place, Some(d.id))
  {
    DropMoves(s, d.id, DropAuth);
    DropMoves(s, d.id, DropSize);
    DropMoves(s, d.id, DropClosed);
  }

  lemma EnqueueMoves(s: State, d: Datagram, flow: Option<FlowId>)
    ensures OnlyMoves(s.place, DoEnqueue(s, d, flow).place, Some(d.id))
  {
    DropMoves(s, d.id, DropQueue);
  }

  lemma ReceiverMoves(s: State, e: Event)
    requires Enabled(s, e) && OfReceiver(e)
    ensures OnlyMoves(s.place, Apply(s, e).place, Subject(s, e))
  {
    match e
    case Receive(_, _, _, _) =>
    case Gate => GateMoves(s, s.receiver.d);
    case Check => CheckMoves(s, s.receiver.d);
    case Lookup =>
    case Enqueue => EnqueueMoves(s, s.receiver.d, s.receiver.flow);
  }

  lemma DecideMoves(s: State, p: nat, d: Datagram)
    requires JobOf(s, p) == Some(Deciding(d))
    ensures OnlyMoves(s.place, DoDecide(s, p, d).place, Some(d.id))
  {
    var (t, a) := Admit(s.opt, s.t, d.key, s.now);
    DecidedMoves(s.(t := t), p, d, a);
  }

  lemma DecidedMoves(s: State, p: nat, d: Datagram, a: Admission)
    requires JobOf(s, p) == Some(Deciding(d))
    ensures OnlyMoves(s.place, Decided(s, p, d, a).place, Some(d.id))
  {
  }

  lemma DialDoneMoves(s: State, p: nat, d: Datagram, result: DialResult)
    requires JobOf(s, p) == Some(Dialing(d))
    ensures OnlyMoves(s.place, DoDialDone(s, p, d, result).place, Some(d.id))
  {
    DialDonePlaces(s, p, d, result);
  }

  lemma SettleMoves(s: State, p: nat, id: nat, fate: Fate, job: Job)
    requires JobOf(s, p).Some?
    ensures SetJob(s, p, job).place == s.place
    ensures Settle(s, p, id, fate).place == s.place[id := Accounted]
    ensures Abandon(s, p, id).place == s.place[id := Lost]
  {
  }

  lemma TakeMoves(s: State, p: nat)
    requires Enabled(s, Take(p))
    ensures OnlyMoves(s.place, DoTake(s, p).place, Subject(s, Take(p)))
  {
  }

  lemma BeginMoves(s: State, p: nat, job: Job)
    requires JobOf(s, p) == Some(job) && (job.TookNew? || job.TookPacket?)
    ensures OnlyMoves(s.place, DoBegin(s, p, job).place, Some(job.d.id))
  {
    SettleMoves(s, p, job.d.id, SentUp, if job.TookNew? then Deciding(job.d) else Writing(job.d, job.flow));
  }

  lemma WorkerMoves(s: State, e: Event)
    requires Enabled(s, e) && (e.Take? || e.Begin? || e.WriteLock? || e.SocketWrite?)
    ensures OnlyMoves(s.place, Apply(s, e).place, Subject(s, e))
  {
    match e
    case Take(p) => TakeMoves(s, p);
    case Begin(p) => BeginMoves(s, p, JobOf(s, p).value);
    case WriteLock(p) =>
      var job := JobOf(s, p).value;
      SettleMoves(s, p, job.d.id, SentUp, Sending(job.d, job.flow));
    case SocketWrite(p, ok) =>
      SettleMoves(s, p, JobOf(s, p).value.d.id, if ok then SentUp else DropSend, Idle);
  }

  lemma OthersMoveNothing(s: State, e: Event)
    requires Enabled(s, e) && !OfReceiver(e) && Subject(s, e).None?
    ensures Apply(s, e).place == s.place
  {
  }

  lemma StepMoves(s: State, e: Event)
    requires Enabled(s, e)
    ensures OnlyMoves(s.place, Apply(s, e).place, Subject(s, e))
  {
    if OfReceiver(e) {
      ReceiverMoves(s, e);
    } else if e.Decide? {
      DecideMoves(s, e.p, JobOf(s, e.p).value.d);
    } else if e.DialDone? {
      DialDoneMoves(s, e.p, JobOf(s, e.p).value.d, e.result);
    } else if e.Take? || e.Begin? || e.WriteLock? || e.SocketWrite? {
      WorkerMoves(s, e);
    } else {
      OthersMoveNothing(s, e);
    }
  }

  /** A datagram that is accounted or lost stays so. */
  lemma SettledStays(s: State, e: Event, id: nat)
    requires Accounts(s) && Enabled(s, e) && Settled(s, id)
    ensures id in Apply(s, e).place && Apply(s, e).place[id] == s.place[id]
  {
    StepMoves(s, e);
    if Subject(s, e).Some? {
      SubjectUnsettled(s, e);
    }
  }

  // ---- Over runs -----------------------------------------------------------------------------

  lemma {:induction false} SettledForGood(s: State, es: seq<Event>, s': State, id: nat)
    requires Sound(s) && Run(s, es, s') && Settled(s, id)
    ensures id in s'.place && s'.place[id] == s.place[id]
    decreases |es|
  {
    if es != [] {
      SettledStays(s, es[0], id);
      SoundStep(s, es[0]);
      SettledForGood(Apply(s, es[0]), es[1..], s', id);
    }
  }

  /** A datagram that is neither in flight nor accounted stays so in every continuation; and so does one that
      is accounted. */
  lemma GoneForGood(s: State, es: seq<Event>, s': State, id: nat)
    requires Reachable(s) && Run(s, es, s') && id < s.received && !InFlight(s, id)
    ensures id < s'.received && !InFlight(s', id) && (Logged(s', id) <==> Logged(s, id))
  {
    ReachableSound(s);
    PlaceDecides(s, id);
    SettledForGood(s, es, s', id);
    SoundRun(s, es, s');
    PlaceDecides(s', id);
  }

  lemma SoundNext(ss: seq<State>, es: seq<Event>, n: nat)
    requires Trace(ss, es) && n < |es| && Sound(ss[n])
    ensures Sound(ss[n + 1])
  {
    StepAt(ss, es, n);
    SoundStep(ss[n], es[n]);
  }

  lemma {:induction false} SoundAt(ss: seq<State>, es: seq<Event>, n: nat)
    requires Trace(ss, es) && Sound(ss[0]) && n <= |es|
    ensures Sound(ss[n])
    decreases n
  {
    if n > 0 {
      SoundAt(ss, es, n - 1);
      SoundNext(ss, es, n - 1);
    }
  }

  ghost predicate IsLost(s: State, id: nat)
  {
    At(s.place, id, Lost)
  }

  lemma LostStep(s: State, e: Event, id: nat)
    requires Sound(s) && Enabled(s, e)
    ensures IsLost(Apply(s, e), id) <==> IsLost(s, id) || Loses(s, e, id)
  {
    LostExactly(s, e, id);
    if IsLost(s, id) {
      SettledStays(s, e, id);
    }
  }

  lemma LostAt(ss: seq<State>, es: seq<Event>, n: nat, id: nat)
    requires Trace(ss, es) && n < |es| && Sound(ss[n])
    ensures IsLost(ss[n + 1], id) <==> IsLost(ss[n], id) || Loses(ss[n], es[n], id)
  {
    StepAt(ss, es, n);
    LostStep(ss[n], es[n], id);
  }

  /** What begins false and changes only by `g` is true at last exactly if `g` once was. */
  lemma {:induction false} Accumulates(f: nat -> bool, g: nat -> bool, n: nat)
    requires !f(0) && forall i: nat :: i < n ==> (f(i + 1) <==> f(i) || g(i))
    ensures f(n) <==> exists m: nat :: m < n && g(m)
    decreases n
  {
    if n > 0 {
      Accumulates(f, g, n - 1);
      assert f((n - 1) + 1) <==> f(n - 1) || g(n - 1);
    }
  }

  /** Between two states a datagram becomes lost exactly if the step loses it. */
  ghost predicate LosesOnly(before: State, e: Event, after: State, id: nat)
  {
    IsLost(after, id) <==> IsLost(before, id) || Loses(before, e, id)
  }

  lemma LosesAt(ss: seq<State>, es: seq<Event>, n: nat, id: nat)
    requires Trace(ss, es) && Sound(ss[0]) && n < |es|
    ensures LosesOnly(ss[n], es[n], ss[n + 1], id)
  {
    SoundAt(ss, es, n);
    LostAt(ss, es, n, id);
  }

  lemma LostIffLoses(ss: seq<State>, es: seq<Event>, id: nat)
    requires |ss| == |es| + 1 && !IsLost(ss[0], id)
    requires forall n: nat :: n < |es| ==> LosesOnly(ss[n], es[n], ss[n + 1], id)
    ensures IsLost(ss[|es|], id) <==> exists m: nat :: m < |es| && Loses(ss[m], es[m], id)
  {
    var f := (n: nat) => n <= |es| && IsLost(ss[n], id);
    var g := (n: nat) => n < |es| && Loses(ss[n], es[n], id);
    forall n: nat | n < |es| ensures f(n + 1) <==> f(n) || g(n) {
      assert LosesOnly(ss[n], es[n], ss[n + 1], id);
    }
    Accumulates(f, g, |es|);
    assert forall m: nat :: m < |es| ==> (g(m) <==> Loses(ss[m], es[m], id));
  }

  lemma LostHistory(ss: seq<State>, es: seq<Event>, id: nat)
    requires Trace(ss, es) && Sound(ss[0]) && !IsLost(ss[0], id)
    ensures IsLost(ss[|es|], id) <==> exists m: nat :: m < |es| && Loses(ss[m], es[m], id)
  {
    forall n: nat | n < |es| ensures LosesOnly(ss[n], es[n], ss[n + 1], id) {
      LosesAt(ss, es, n, id);
    }
    LostIffLoses(ss, es, id);
  }

  /** Over every run from the start: a datagram that was received and is no longer in flight is accounted if and
      only if no step of the run lost it, that is, no worker holding it found the context cancelled right after
      taking it, nor the NAT closed at its next critical section with no dial error to report. */
  lemma AccountedUnlessLost(o: Options, now: real, ss: seq<State>, es: seq<Event>, id: nat)
    requires Trace(ss, es) && ss[0] == Initial(o, now) && id < ss[|es|].received && !InFlight(ss[|es|], id)
    ensures Logged(ss[|es|], id) <==> !exists m: nat :: m < |es| && Loses(ss[m], es[m], id)
  {
    InitialSound(o, now);
    SoundAt(ss, es, |es|);
    LostHistory(ss, es, id);
    PlaceDecides(ss[|es|], id);
  }
}

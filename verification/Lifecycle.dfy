/** The client's connection slot, its wake-up channel, and UDP sessions against shutdown
    (internal/client/client.go). */
module Lifecycle {
  import opened Bytes

  type ConnId = nat
  type Chan = nat

  /** What `mu` guards: the live connection, the current wake-up channel and whether `Run` is over;
      `closed` is the set of wake-up channels closed so far. A new channel has the next number. */
  datatype Link = Link(live: Option<ConnId>, ready: Chan, stopped: bool, closed: set<Chan>)

  /** `close(c.ready); c.ready = make(chan struct{})`. */
  function Rearm(l: Link): Link
  {
    l.(ready := l.ready + 1, closed := l.closed + {l.ready})
  }

  function SetLive(l: Link, c: ConnId): Link
  {
    Rearm(l.(live := Some(c)))
  }

  function ClearLive(l: Link, c: ConnId): Link
  {
    if l.live == Some(c) then l.(live := None) else l
  }

  function Stop(l: Link): Link
  {
    Rearm(l.(stopped := true, live := None))
  }

  /** The current channel is open and every earlier one closed, so it is never closed twice. */
  ghost predicate LinkOk(l: Link)
  {
    forall g: Chan :: g in l.closed <==> g < l.ready
  }

  /** The connection slot of `Client`, one method for each critical section on `mu`. */
  class Slot {
    var live: Option<ConnId>
    var ready: Chan
    var stopped: bool
    ghost var closed: set<Chan>

    ghost function Contents(): Link
      reads this
    {
      Link(live, ready, stopped, closed)
    }

    constructor ()
      ensures Contents() == Link(None, 0, false, {}) && LinkOk(Contents())
    {
      live, ready, stopped, closed := None, 0, false, {};
    }

    method CloseReady()
      requires LinkOk(Contents())
      modifies this`ready, this`closed
      ensures Contents() == Rearm(old(Contents())) && LinkOk(Contents())
      ensures old(ready) !in old(closed)
    {
      closed := closed + {ready};
      ready := ready + 1;
    }

    method SetConn(c: ConnId)
      requires LinkOk(Contents())
      modifies this
      ensures Contents() == SetLive(old(Contents()), c) && LinkOk(Contents())
    {
      live := Some(c);
      CloseReady();
    }

    method ClearConn(c: ConnId)
      requires LinkOk(Contents())
      modifies this
      ensures Contents() == ClearLive(old(Contents()), c) && LinkOk(Contents())
    {
      if live == Some(c) {
        live := None;
      }
    }

    method Shutdown()
      requires LinkOk(Contents())
      modifies this
      ensures Contents() == Stop(old(Contents())) && LinkOk(Contents())
    {
      stopped := true;
      live := None;
      CloseReady();
    }
  }

  /** The table of UDP sessions, one method for each critical section on `udpMu`. Sessions are known by
      their number; `done` is the set of those whose channel is closed. */
  class Sessions {
    var routes: set<nat>
    var done: set<nat>
    var seqNo: nat
    const maxSessions: nat

    /** Every session ever handed out is in the table or done, and the table is within its limit. */
    ghost predicate Valid()
      reads this
    {
      TableOk(routes, done, seqNo, maxSessions)
    }

    constructor (maxSessions: nat)
      ensures Valid() && routes == {} && done == {} && seqNo == 0 && this.maxSessions == maxSessions
    {
      routes, done, seqNo := {}, {}, 0;
      this.maxSessions := maxSessions;
    }

    /** `stopped` is what the call read under `mu` while it held `udpMu`. */
    method NewUdpSession(stopped: bool) returns (r: Option<nat>)
      requires Valid()
      modifies this
      ensures Valid() && done == old(done)
      ensures r.None? <==> stopped || |old(routes)| >= maxSessions
      ensures r.None? ==> routes == old(routes) && seqNo == old(seqNo)
      ensures r.Some? ==> r.value > old(seqNo) && seqNo == r.value && routes == old(routes) + {r.value}
    {
      if stopped || |routes| >= maxSessions {
        return None;
      }
      seqNo := seqNo + 1;
      routes := routes + {seqNo};
      return Some(seqNo);
    }

    method CloseSession(id: nat)
      requires Valid()
      modifies this`routes, this`done
      ensures Valid() && routes == old(routes) - {id} && done == old(done) + {id}
    {
      assert |routes - {id}| <= |routes|;
      routes := routes - {id};
      done := done + {id};
    }

    /** The second half of shutdown: stop every session in the table, then clear it. */
    method Sweep()
      requires Valid()
      modifies this`routes, this`done
      ensures Valid() && routes == {} && done == old(done) + old(routes)
      ensures forall id :: 1 <= id <= seqNo ==> id in done
    {
      var left := routes;
      while left != {}
        invariant left <= routes == old(routes)
        invariant done == old(done) + (routes - left)
        decreases left
      {
        var id :| id in left;
        done := done + {id};
        left := left - {id};
      }
      routes := {};
    }
  }

  ghost predicate TableOk(routes: set<nat>, done: set<nat>, seqNo: nat, limit: nat)
  {
    && (forall id :: 1 <= id <= seqNo ==> id in routes || id in done)
    && (forall id :: id in routes ==> 1 <= id <= seqNo)
    && |routes| <= limit
  }

  // ---- The machine ---------------------------------------------------------------------------

  /** How far the only effective call of `Run` got. */
  datatype RunPc =
    | NotRunning
    | Between                    // in its loop without a connection
    | Holding(c: ConnId)         // set, heartbeat running
    | Cleared(c: ConnId)         // cleared, about to be closed
    | Leaving                    // about to mark the client stopped
    | Sweeping                   // about to stop the UDP sessions
    | Gone

  /** A call of `getConn`. */
  datatype Caller =
    | Looking
    | Saw(live: Option<ConnId>, ready: Chan, stopped: bool)
    | Waiting(ready: Chan)
    | Got(c: ConnId)
    | GaveUp                     // its own context ended
    | Refused                    // the client is closed

  /** A call of `NewUDPSession`, which holds `udpMu` from `Locked` to its end. */
  datatype Creator = Locked | Knows(stopped: bool) | Created(id: nat) | Rejected

  datatype State = State(
    link: Link,
    run: RunPc,
    everLive: set<ConnId>,
    lost: set<ConnId>,
    callers: map<nat, Caller>,
    maxSessions: nat,
    udpLock: Option<nat>,
    creators: map<nat, Creator>,
    seqNo: nat,
    routes: set<nat>,
    stoppedSessions: set<nat>)

  datatype Event =
    | StartRun
    | Connected(c: ConnId)
    | LoseConn(c: ConnId)
    | ClearConn
    | CloseConn
    | LeaveRun
    | MarkStopped
    | SweepSessions
    | NewCaller(k: nat)
    | Look(k: nat)
    | Choose(k: nat)
    | Wake(k: nat)
    | GiveUp(k: nat)
    | LockUdp(k: nat)
    | ReadStopped(k: nat)
    | FinishCreate(k: nat)
    | CloseSession(id: nat)

  function Initial(maxSessions: nat): State
  {
    State(Link(None, 0, false, {}), NotRunning, {}, {}, map[], maxSessions, None, map[], 0, {}, {})
  }

  ghost predicate Enabled(s: State, e: Event)
  {
    match e
    case StartRun => s.run.NotRunning?
    case Connected(c) => s.run.Between? && c !in s.everLive
    case LoseConn(_) => true
    case ClearConn => s.run.Holding?
    case CloseConn => s.run.Cleared?
    case LeaveRun => s.run.Between?
    case MarkStopped => s.run.Leaving?
    case SweepSessions => s.run.Sweeping? && s.udpLock.None?
    case NewCaller(k) => k !in s.callers
    case Look(k) => k in s.callers && s.callers[k].Looking?
    case Choose(k) => k in s.callers && s.callers[k].Saw?
    case Wake(k) => k in s.callers && s.callers[k].Waiting? && s.callers[k].ready in s.link.closed
    case GiveUp(k) => k in s.callers && s.callers[k].Waiting?
    case LockUdp(k) => k !in s.creators && s.udpLock.None?
    case ReadStopped(k) => k in s.creators && s.creators[k].Locked?
    case FinishCreate(k) => k in s.creators && s.creators[k].Knows?
    case CloseSession(id) => 1 <= id <= s.seqNo && s.udpLock.None?
  }

  /** What `getConn` does with what it saw: fail, return a connection that is not done, or wait. */
  function Chosen(s: State, saw: Caller): Caller
    requires saw.Saw?
  {
    if saw.stopped then Refused
    else if saw.live.Some? && saw.live.value !in s.lost then Got(saw.live.value)
    else Waiting(saw.ready)
  }

  function DoFinishCreate(s: State, k: nat): State
    requires k in s.creators && s.creators[k].Knows?
  {
    if s.creators[k].stopped || |s.routes| >= s.maxSessions
    then s.(creators := s.creators[k := Rejected], udpLock := None)
    else
      var id := s.seqNo + 1;
      s.(creators := s.creators[k := Created(id)], udpLock := None, seqNo := id, routes := s.routes + {id})
  }

  function Apply(s: State, e: Event): State
    requires Enabled(s, e)
  {
    match e
    case StartRun => s.(run := Between)
    case Connected(c) => s.(link := SetLive(s.link, c), run := Holding(c), everLive := s.everLive + {c})
    case LoseConn(c) => s.(lost := s.lost + {c})
    case ClearConn => s.(link := ClearLive(s.link, s.run.c), run := Cleared(s.run.c))
    case CloseConn => s.(lost := s.lost + {s.run.c}, run := Between)
    case LeaveRun => s.(run := Leaving)
    case MarkStopped => s.(link := Stop(s.link), run := Sweeping)
    case SweepSessions => s.(routes := {}, stoppedSessions := s.stoppedSessions + s.routes, run := Gone)
    case NewCaller(k) => s.(callers := s.callers[k := Looking])
    case Look(k) => s.(callers := s.callers[k := Saw(s.link.live, s.link.ready, s.link.stopped)])
    case Choose(k) => s.(callers := s.callers[k := Chosen(s, s.callers[k])])
    case Wake(k) => s.(callers := s.callers[k := Looking])
    case GiveUp(k) => s.(callers := s.callers[k := GaveUp])
    case LockUdp(k) => s.(creators := s.creators[k := Locked], udpLock := Some(k))
    case ReadStopped(k) => s.(creators := s.creators[k := Knows(s.link.stopped)])
    case FinishCreate(k) => DoFinishCreate(s, k)
    case CloseSession(id) => s.(routes := s.routes - {id}, stoppedSessions := s.stoppedSessions + {id})
  }

  ghost predicate Run(s: State, es: seq<Event>, s': State)
    decreases |es|
  {
    if es == [] then s' == s else Enabled(s, es[0]) && Run(Apply(s, es[0]), es[1..], s')
  }

  ghost predicate Reachable(s: State)
  {
    exists n, es :: Run(Initial(n), es, s)
  }

  // ---- Invariants ----------------------------------------------------------------------------

  /** Whoever holds a channel holds the current one or a closed one (a closed one if the client has stopped
      since), and only ever saw connections `Run` had set. */
  ghost predicate CallerOk(s: State, caller: Caller)
  {
    match caller
    case Saw(live, ready, stopped) =>
      && ready <= s.link.ready
      && (s.link.stopped && !stopped ==> ready < s.link.ready)
      && (live.Some? ==> live.value in s.everLive)
    case Waiting(ready) => ready <= s.link.ready && (s.link.stopped ==> ready < s.link.ready)
    case Got(c) => c in s.everLive
    case _ => true
  }

  ghost predicate CallersOk(s: State)
  {
    forall k :: k in s.callers ==> CallerOk(s, s.callers[k])
  }

  /** A connection is closed before `Run` goes on, so when it stops every one it ever had is. */
  ghost predicate RunOk(s: State)
  {
    && LinkOk(s.link)
    && (s.link.stopped <==> s.run.Sweeping? || s.run.Gone?)
    && (s.link.live.Some? ==> s.run == Holding(s.link.live.value) && s.link.live.value in s.everLive)
    && forall c :: c in s.everLive && c !in s.lost ==> s.run == Holding(c) || s.run == Cleared(c)
  }

  /** Every session ever handed out is in the table or stopped; after the sweep none is in the table,
      and no creation that could still add one is under way. */
  ghost predicate SessionsOk(s: State)
  {
    && TableOk(s.routes, s.stoppedSessions, s.seqNo, s.maxSessions)
    && (forall k :: k in s.creators && (s.creators[k].Locked? || s.creators[k].Knows?) ==> s.udpLock == Some(k))
    && (s.run.Gone? ==> s.routes == {} && forall k :: k in s.creators && s.creators[k].Knows? ==> s.creators[k].stopped)
  }

  ghost predicate Inv(s: State)
  {
    CallersOk(s) && RunOk(s) && SessionsOk(s)
  }

  lemma InitialInv(n: nat)
    ensures Inv(Initial(n))
  {
  }

  lemma CallersStep(s: State, e: Event)
    requires Inv(s) && Enabled(s, e)
    ensures CallersOk(Apply(s, e))
  {
    var s' := Apply(s, e);
    forall k | k in s'.callers ensures CallerOk(s', s'.callers[k]) {
      if k in s.callers { assert CallerOk(s, s.callers[k]); }
    }
  }

  lemma RunStep(s: State, e: Event)
    requires Inv(s) && Enabled(s, e)
    ensures RunOk(Apply(s, e))
  {
  }

  /** Adding a session: the creator holds the lock and read `stopped` under it. */
  lemma CreateKeeps(s: State, k: nat)
    requires SessionsOk(s) && Enabled(s, FinishCreate(k))
    ensures SessionsOk(DoFinishCreate(s, k))
  {
  }

  lemma RemoveKeeps(s: State, id: nat)
    requires SessionsOk(s) && Enabled(s, CloseSession(id))
    ensures SessionsOk(Apply(s, CloseSession(id)))
  {
    assert |s.routes - {id}| <= |s.routes|;
  }

  lemma SessionsStep(s: State, e: Event)
    requires Inv(s) && Enabled(s, e)
    ensures SessionsOk(Apply(s, e))
  {
    match e
    case FinishCreate(k) => CreateKeeps(s, k);
    case CloseSession(id) => RemoveKeeps(s, id);
    case _ =>
  }

  lemma InvStep(s: State, e: Event)
    requires Inv(s) && Enabled(s, e)
    ensures Inv(Apply(s, e))
  {
    CallersStep(s, e);
    RunStep(s, e);
    SessionsStep(s, e);
  }

  lemma {:induction false} InvRun(s: State, es: seq<Event>, s': State)
    requires Inv(s) && Run(s, es, s')
    ensures Inv(s')
    decreases |es|
  {
    if es != [] {
      InvStep(s, es[0]);
      InvRun(Apply(s, es[0]), es[1..], s');
    }
  }

  lemma ReachableInv(s: State)
    requires Reachable(s)
    ensures Inv(s)
  {
    var n, es :| Run(Initial(n), es, s);
    InitialInv(n);
    InvRun(Initial(n), es, s);
  }

  // ---- No lost wake-up -----------------------------------------------------------------------

  ghost predicate Blocked(s: State, k: nat)
  {
    k in s.callers && s.callers[k].Waiting?
  }

  /** A caller blocked on an unclosed channel is blocked on the current one. */
  lemma BlockedOnCurrent(s: State, k: nat)
    requires Reachable(s) && Blocked(s, k)
    ensures Enabled(s, Wake(k)) || s.callers[k].ready == s.link.ready
  {
    ReachableInv(s);
    assert CallerOk(s, s.callers[k]);
  }

  /** The next connection, and the shutdown, lets every blocked caller go on; and it closes a channel
      that was not closed yet. */
  lemma NextWakesAll(s: State, e: Event, k: nat)
    requires Reachable(s) && Enabled(s, e) && (e.Connected? || e.MarkStopped?)
    ensures s.link.ready !in s.link.closed
    ensures Blocked(s, k) ==> Enabled(Apply(s, e), Wake(k))
  {
    ReachableInv(s);
    if Blocked(s, k) {
      assert CallerOk(s, s.callers[k]);
    }
  }

  /** A wake-up is not taken back: it stays until the caller takes it or gives up. */
  lemma WakeStays(s: State, e: Event, k: nat)
    requires Enabled(s, e) && Enabled(s, Wake(k))
    ensures Enabled(Apply(s, e), Wake(k)) || e == Wake(k) || e == GiveUp(k)
  {
  }

  // ---- After shutdown ------------------------------------------------------------------------

  /** How many steps of its own a call of `getConn` has left once the client is stopped. */
  function StepsLeft(caller: Caller): nat
  {
    match caller
    case Saw(_, _, stopped) => if stopped then 1 else 4
    case Waiting(_) => 3
    case Looking => 2
    case _ => 0
  }

  function Pending(s: State, k: nat): Option<Caller>
  {
    if k in s.callers then Some(s.callers[k]) else None
  }

  /** One step of a stopped client: a call of `getConn` either stays where it is or comes nearer its
      end, and its end is not a connection. */
  lemma StoppedStep(s: State, e: Event, k: nat)
    requires Inv(s) && s.link.stopped && Enabled(s, e)
    ensures Apply(s, e).link.stopped
    ensures
      var before, after := Pending(s, k), Pending(Apply(s, e), k);
      after == before || (before.None? && after == Some(Looking))
      || (before.Some? && after.Some? && StepsLeft(after.value) < StepsLeft(before.value) && !after.value.Got?)
  {
    if k in s.callers { assert CallerOk(s, s.callers[k]); }
  }

  /** After shutdown `getConn` only fails: a call that had no connection then never gets one. */
  lemma {:induction false} StoppedOnlyFails(s: State, es: seq<Event>, s': State, k: nat)
    requires Reachable(s) && s.link.stopped && Run(s, es, s')
    requires k !in s.callers || !s.callers[k].Got?
    ensures k !in s'.callers || !s'.callers[k].Got?
  {
    ReachableInv(s);
    NeverGot(s, es, s', k);
  }

  lemma {:induction false} NeverGot(s: State, es: seq<Event>, s': State, k: nat)
    requires Inv(s) && s.link.stopped && Run(s, es, s')
    requires k !in s.callers || !s.callers[k].Got?
    ensures k !in s'.callers || !s'.callers[k].Got?
    decreases |es|
  {
    if es != [] {
      StoppedStep(s, es[0], k);
      InvStep(s, es[0]);
      NeverGot(Apply(s, es[0]), es[1..], s', k);
    }
  }

  /** And it does fail: a call that has not returned can always take its next step. */
  lemma StoppedNotStuck(s: State, k: nat)
    requires Reachable(s) && s.link.stopped && k in s.callers && StepsLeft(s.callers[k]) > 0
    ensures Enabled(s, Look(k)) || Enabled(s, Choose(k)) || Enabled(s, Wake(k))
  {
    ReachableInv(s);
    assert CallerOk(s, s.callers[k]);
  }

  /** No survivor: once shutdown is over no session is created, the table stays empty and every session
      ever handed out is done. */
  lemma {:induction false} NoSurvivor(s: State, es: seq<Event>, s': State)
    requires Reachable(s) && s.run.Gone? && Run(s, es, s')
    ensures s'.routes == {} && s'.seqNo == s.seqNo
    ensures forall id :: 1 <= id <= s'.seqNo ==> id in s'.stoppedSessions
  {
    ReachableInv(s);
    GoneRun(s, es, s');
  }

  lemma GoneStep(s: State, e: Event)
    requires Inv(s) && s.run.Gone? && Enabled(s, e)
    ensures Apply(s, e).run.Gone? && Apply(s, e).seqNo == s.seqNo
  {
  }

  lemma {:induction false} GoneRun(s: State, es: seq<Event>, s': State)
    requires Inv(s) && s.run.Gone? && Run(s, es, s')
    ensures Inv(s') && s'.run.Gone? && s'.seqNo == s.seqNo
    decreases |es|
  {
    if es != [] {
      GoneStep(s, es[0]);
      InvStep(s, es[0]);
      GoneRun(Apply(s, es[0]), es[1..], s');
    }
  }

  /** At no time does the client have more sessions than its limit. */
  lemma SessionsBounded(s: State)
    requires Reachable(s)
    ensures |s.routes| <= s.maxSessions
  {
    ReachableInv(s);
  }
}

/** What holds in every interleaving of the dial race. */
module RaceSafety {
  import opened Address
  import opened Policy
  import opened Resolve
  import opened DialRace
  import opened RaceMachine

  lemma ListsStay(s: State, e: Event)
    requires Enabled(s, e)
    ensures Apply(s, e).first.list == s.first.list && Apply(s, e).second.list == s.second.list
  {
  }

  lemma {:induction false} InvRun(s: State, es: seq<Event>, s': State)
    requires Inv(s) && Run(s, es, s')
    ensures Inv(s') && s'.first.list == s.first.list && s'.second.list == s.second.list
    decreases |es|
  {
    if es != [] {
      InvStep(s, es[0]);
      ListsStay(s, es[0]);
      InvRun(Apply(s, es[0]), es[1..], s');
    }
  }

  ghost predicate Racing(primary: seq<Address>, fallback: seq<Address>, s: State)
  {
    primary != [] && fallback != [] && Reachable(primary, fallback, s)
  }

  lemma RacingInv(primary: seq<Address>, fallback: seq<Address>, s: State)
    requires Racing(primary, fallback, s)
    ensures Inv(s) && s.first.list == primary && s.second.list == fallback
  {
    var es :| Run(Initial(primary, fallback), es, s);
    InitialInv(primary, fallback);
    InvRun(Initial(primary, fallback), es, s);
  }

  /** Only addresses approved by `Resolve` are dialled, so each is numeric, canonical and passes the policy. */
  lemma OnlyApprovedDialled(names: Names, l: Rules, addr: Address, gate: Gate, lookup: Lookup,
                            s: State, f: Family, j: nat)
    requires Resolution(names, l, addr, gate, lookup).Approved?
    requires var list := Resolution(names, l, addr, gate, lookup).list;
             list != [] && Racing(OfType(list, list[0].atyp, true), OfType(list, list[0].atyp, false), s)
    requires j in LaneOf(s, f).tries
    ensures j < |LaneOf(s, f).list|
    ensures LaneOf(s, f).list[j] in Resolution(names, l, addr, gate, lookup).list
    ensures Vetted(names, l, Normalized(names, addr).value, LaneOf(s, f).list[j])
  {
    var list := Resolution(names, l, addr, gate, lookup).list;
    RacingInv(OfType(list, list[0].atyp, true), OfType(list, list[0].atyp, false), s);
    OfTypeSorted(list, |list|, list[0].atyp, f.Primary?);
    var k :| 0 <= k < |list| && list[k] == LaneOf(s, f).list[j];
    ApprovedIsVetted(names, l, addr, gate, lookup, k);
  }

  /** The same without a race, as for every UDP dial and every list of one family: the list is the approved one,
      and what `DialAddresses` dials is a prefix of it. */
  lemma OneListDialsApproved(names: Names, l: Rules, addr: Address, gate: Gate, lookup: Lookup, dialled: seq<Address>, k: nat)
    requires Resolution(names, l, addr, gate, lookup).Approved?
    requires dialled <= Resolution(names, l, addr, gate, lookup).list && k < |dialled|
    ensures Vetted(names, l, Normalized(names, addr).value, dialled[k])
  {
    ApprovedIsVetted(names, l, addr, gate, lookup, k);
  }

  /** Each list is started at most once; the second only after the timer or the failure of the first, and while
      the race is on, always then. */
  lemma StartedOnce(primary: seq<Address>, fallback: seq<Address>, s: State)
    requires Racing(primary, fallback, s)
    ensures s.first.starts == 1 && s.second.starts <= 1
    ensures s.second.starts == 1 ==> s.timerFired || Complained(s.first.at)
    ensures s.main.Waiting? && (s.timerFired || Complained(s.first.at)) ==> s.second.starts == 1
  {
    RacingInv(primary, fallback, s);
  }

  ghost predicate Closed(s: State, c: ConnId)
  {
    s.first.at == Finished(ClosedIt(c)) || s.second.at == Finished(ClosedIt(c))
  }

  ghost predicate Held(s: State, c: ConnId)
  {
    s.first.at == Holding(c) || s.second.at == Holding(c)
  }

  /** A connection that was opened is in exactly one place: returned, closed, or on offer by its dialer. */
  lemma ConnectionsAccounted(primary: seq<Address>, fallback: seq<Address>, s: State, f: Family, j: nat)
    requires Racing(primary, fallback, s)
    requires j in LaneOf(s, f).tries && LaneOf(s, f).tries[j].Opened?
    ensures var c := LaneOf(s, f).tries[j].c;
            && (s.main == Connected(c) || Closed(s, c) || Held(s, c))
            && !(s.main == Connected(c) && Closed(s, c))
            && !(s.main == Connected(c) && Held(s, c))
            && !(Closed(s, c) && Held(s, c))
  {
    RacingInv(primary, fallback, s);
  }

  ghost predicate Quiet(lane: Lane)
  {
    lane.at.Idle? || lane.at.Finished?
  }

  /** When the dialers are done, every opened connection is the one returned or closed, never both. */
  lemma NothingLeaks(primary: seq<Address>, fallback: seq<Address>, s: State, f: Family, j: nat)
    requires Racing(primary, fallback, s) && Quiet(s.first) && Quiet(s.second)
    requires j in LaneOf(s, f).tries && LaneOf(s, f).tries[j].Opened?
    ensures s.main == Connected(LaneOf(s, f).tries[j].c) <==> !Closed(s, LaneOf(s, f).tries[j].c)
  {
    ConnectionsAccounted(primary, fallback, s, f, j);
  }

  /** Steps a dialer can still take on its own. */
  function StepsLeft(lane: Lane): nat
  {
    match lane.at
    case Before(i) => if i <= |lane.list| then 2 * (|lane.list| - i) + 2 else 0
    case Trying(i) => if i <= |lane.list| then 2 * (|lane.list| - i) + 1 else 0
    case Holding(_) => 1
    case Failing(_) => 1
    case _ => 0
  }

  lemma StepsShrink(s: State, e: Event)
    requires Inv(s) && Enabled(s, e) && OwnStep(e)
    ensures StepsLeft(Dialled(s, e)) < StepsLeft(LaneOf(s, e.f))
  {
  }

  lemma HasStep(s: State, f: Family)
    requires LaneOk(LaneOf(s, f)) && !s.main.Waiting? && !Quiet(LaneOf(s, f))
    ensures Enabled(s, BeginTry(f)) || Enabled(s, TryCancelled(f)) || Enabled(s, RunOut(f)) || Enabled(s, Quit(f))
  {
  }

  lemma OthersKeep(s: State, f: Family, e: Event)
    requires !s.main.Waiting? && Enabled(s, e) && (OwnStep(e) ==> e.f != f)
    ensures LaneOf(Apply(s, e), f) == LaneOf(s, f)
  {
  }

  /** And the dialers do get done: once `DialContext` has returned, a dialer under way always has a step,
      every step of it counts down, and no other step sets it back. */
  lemma DialersFinish(primary: seq<Address>, fallback: seq<Address>, s: State, f: Family, e: Event)
    requires Racing(primary, fallback, s) && !s.main.Waiting? && Enabled(s, e)
    ensures !Quiet(LaneOf(s, f)) ==>
              Enabled(s, BeginTry(f)) || Enabled(s, TryCancelled(f)) || Enabled(s, RunOut(f)) || Enabled(s, Quit(f))
    ensures if OwnStep(e) && e.f == f then StepsLeft(LaneOf(Apply(s, e), f)) < StepsLeft(LaneOf(s, f))
            else LaneOf(Apply(s, e), f) == LaneOf(s, f)
  {
    RacingInv(primary, fallback, s);
    if !Quiet(LaneOf(s, f)) {
      HasStep(s, f);
    }
    if OwnStep(e) && e.f == f {
      StepsShrink(s, e);
    } else {
      OthersKeep(s, f, e);
    }
  }

  /** A list has failed: each of its addresses was dialled in vain, or its deadline left no time for one. */
  ghost predicate ListFailed(lane: Lane)
  {
    && lane.list != []
    && lane.at.Finished?
    && (|| (forall j :: 0 <= j < |lane.list| ==> j in lane.tries && lane.tries[j] == Failed)
        || lane.at == Finished(Reported(NoTimeLeft)))
  }

  lemma ReportMeans(s: State, lane: Lane)
    requires LaneOk(lane) && EndOk(s, lane.at) && Complained(lane.at)
    ensures s.parentDone || ListFailed(lane)
  {
    match lane.at.fate.why
    case Exhausted => assert Behind(lane) == |lane.list|;
    case _ =>
  }

  /** An error is returned only after the caller's context has ended or both lists have failed. */
  lemma ErrorsAreEarned(primary: seq<Address>, fallback: seq<Address>, s: State)
    requires Racing(primary, fallback, s)
    requires s.main.ContextError? || s.main.BothFailed?
    ensures s.parentDone || (ListFailed(s.first) && ListFailed(s.second))
  {
    RacingInv(primary, fallback, s);
    if s.main.BothFailed? {
      ReportMeans(s, s.first);
      ReportMeans(s, s.second);
    }
  }

  /** A returned connection was opened to an address of one of the lists, and is still open. */
  lemma ReturnedWasDialled(primary: seq<Address>, fallback: seq<Address>, s: State) returns (f: Family, j: nat)
    requires Racing(primary, fallback, s) && s.main.Connected?
    ensures j in LaneOf(s, f).tries && LaneOf(s, f).tries[j] == Opened(s.main.c) && !Closed(s, s.main.c)
  {
    RacingInv(primary, fallback, s);
    f := if s.first.at == Finished(HandedOver(s.main.c)) then Primary else Fallback;
    j := LaneOf(s, f).won.value;
  }
}

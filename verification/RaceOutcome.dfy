/** What the dial race (internal/acl/acl.go) delivers: a list ends early only for lack of time, every address can
    win, and the race comes to an end. */
module RaceOutcome {
  import opened Bytes
  import opened Address
  import opened RaceMachine
  import opened RaceSafety

  // ---- A list that ran out of time -----------------------------------------------------------

  predicate OutOfTime(lane: Lane)
  {
    CauseOf(lane.at) == Some(NoTimeLeft)
  }

  lemma OwnCause(s: State, e: Event)
    requires Enabled(s, e) && OwnStep(e) && OutOfTime(Dialled(s, e)) && !OutOfTime(LaneOf(s, e.f))
    ensures e.NoTime?
  {
  }

  lemma CauseStep(s: State, e: Event, f: Family)
    requires Enabled(s, e) && OutOfTime(LaneOf(Apply(s, e), f)) && !OutOfTime(LaneOf(s, f))
    ensures e == NoTime(f)
  {
    if OwnStep(e) {
      if e.f == f { OwnCause(s, e); }
    }
  }

  /** In every run, a list's error is a lack of time only if the run has such a step of that list. */
  lemma {:induction false} OutOfTimeHappened(s: State, es: seq<Event>, s': State, f: Family)
    requires Run(s, es, s') && OutOfTime(LaneOf(s', f)) && !OutOfTime(LaneOf(s, f))
    ensures NoTime(f) in es
    decreases |es|
  {
    var s1 := Apply(s, es[0]);
    if OutOfTime(LaneOf(s1, f)) {
      CauseStep(s, es[0], f);
    } else {
      OutOfTimeHappened(s1, es[1..], s', f);
    }
  }

  /** Every address of the list was dialled and failed. */
  ghost predicate AllFailed(lane: Lane)
  {
    forall j: nat :: j < |lane.list| ==> j in lane.tries && lane.tries[j] == Failed
  }

  lemma ReportedMeans(s: State, lane: Lane)
    requires LaneOk(lane) && EndOk(s, lane.at) && Complained(lane.at) && !s.parentDone
    ensures OutOfTime(lane) || AllFailed(lane)
    ensures forall j :: j in lane.tries ==> !lane.tries[j].Opened?
  {
    match lane.at.fate.why
    case Exhausted => assert Behind(lane) == |lane.list|;
    case _ =>
  }

  /** If `DialContext` fails although the caller's context is alive, no address of either list answered, and each
      list was dialled to its end unless the run has a step at which that list had no time left. */
  lemma FailureIsComplete(primary: seq<Address>, fallback: seq<Address>, es: seq<Event>, s: State, f: Family)
    requires primary != [] && fallback != [] && Run(Initial(primary, fallback), es, s)
    requires s.main.BothFailed? && !s.parentDone
    ensures NoTime(f) in es || AllFailed(LaneOf(s, f))
    ensures forall j :: j in LaneOf(s, f).tries ==> !LaneOf(s, f).tries[j].Opened?
  {
    RacingInv(primary, fallback, s);
    ReportedMeans(s, LaneOf(s, f));
    if OutOfTime(LaneOf(s, f)) {
      OutOfTimeHappened(Initial(primary, fallback), es, s, f);
    }
  }

  // ---- Every address can win -----------------------------------------------------------------

  /** A failed dial is followed by the next address, and the last one by the end of the list. */
  lemma GoesOn(s: State, f: Family)
    requires Enabled(s, TryFailed(f)) && LaneOf(s, f).at.i < |LaneOf(s, f).list|
    ensures var s', i := Apply(s, TryFailed(f)), LaneOf(s, f).at.i;
            && LaneOf(s', f).list == LaneOf(s, f).list && LaneOf(s', f).at == Before(i + 1) && s'.main == s.main
            && s'.parentDone == s.parentDone && s'.known == s.known
            && if i + 1 < |LaneOf(s, f).list| then Enabled(s', BeginTry(f)) else Enabled(s', RunOut(f))
  {
  }

  lemma Begins(s: State, f: Family)
    requires Enabled(s, BeginTry(f))
    ensures var s', i := Apply(s, BeginTry(f)), LaneOf(s, f).at.i;
            && LaneOf(s', f).list == LaneOf(s, f).list && LaneOf(s', f).at == Trying(i) && s'.main == s.main
            && s'.parentDone == s.parentDone && s'.known == s.known
  {
  }

  lemma RunCons(s: State, e: Event, es: seq<Event>, s': State)
    requires Enabled(s, e) && Run(Apply(s, e), es, s')
    ensures Run(s, [e] + es, s')
  {
    assert ([e] + es)[1..] == es;
  }

  lemma RunNone(s: State)
    ensures Run(s, [], s)
  {
  }

  /** The dialer of `f` is about to try address `i`, and the select loop is waiting. */
  ghost predicate AboutTo(s: State, f: Family, i: nat)
  {
    s.main.Waiting? && !s.parentDone && LaneOf(s, f).at == Before(i) && i < |LaneOf(s, f).list|
  }

  /** The address `j` of the list of `f` answered, and its connection is returned. */
  ghost predicate Wins(s: State, f: Family, j: nat, c: ConnId)
  {
    s.main == Connected(c) && j in LaneOf(s, f).tries && LaneOf(s, f).tries[j] == Opened(c)
  }

  lemma Answers(s: State, f: Family, j: nat, c: ConnId) returns (es: seq<Event>, s': State)
    requires AboutTo(s, f, j) && c !in s.known
    ensures Run(s, es, s') && Wins(s', f, j, c)
  {
    var s1 := Apply(s, BeginTry(f));
    Begins(s, f);
    var s2 := Apply(s1, OpenedConn(f, c));
    s' := Apply(s2, Receive(f));
    RunNone(s');
    RunCons(s2, Receive(f), [], s');
    RunCons(s1, OpenedConn(f, c), [Receive(f)] + [], s');
    RunCons(s, BeginTry(f), [OpenedConn(f, c)] + ([Receive(f)] + []), s');
    es := [BeginTry(f)] + ([OpenedConn(f, c)] + ([Receive(f)] + []));
  }

  lemma {:induction false} WinsAfter(s: State, f: Family, i: nat, j: nat, c: ConnId) returns (es: seq<Event>, s': State)
    requires AboutTo(s, f, i) && i <= j < |LaneOf(s, f).list| && c !in s.known
    ensures Run(s, es, s') && Wins(s', f, j, c)
    decreases j - i
  {
    if i == j {
      es, s' := Answers(s, f, j, c);
    } else {
      var s1 := Apply(s, BeginTry(f));
      Begins(s, f);
      var s2 := Apply(s1, TryFailed(f));
      GoesOn(s1, f);
      var rest;
      rest, s' := WinsAfter(s2, f, i + 1, j, c);
      RunCons(s1, TryFailed(f), rest, s');
      RunCons(s, BeginTry(f), [TryFailed(f)] + rest, s');
      es := [BeginTry(f)] + ([TryFailed(f)] + rest);
    }
  }

  /** Every address of both lists can win, however many before it in its list are unreachable. */
  lemma EveryAddressCanWin(primary: seq<Address>, fallback: seq<Address>, f: Family, j: nat, c: ConnId)
    returns (es: seq<Event>, s: State)
    requires j < if f.Primary? then |primary| else |fallback|
    ensures Run(Initial(primary, fallback), es, s) && Wins(s, f, j, c)
  {
    var s0 := Initial(primary, fallback);
    if f.Primary? {
      es, s := WinsAfter(s0, f, 0, j, c);
    } else {
      var s1 := Apply(s0, TimerCase);
      var rest;
      rest, s := WinsAfter(s1, f, 0, j, c);
      RunCons(s0, TimerCase, rest, s);
      es := [TimerCase] + rest;
    }
  }

  // ---- The race ends -------------------------------------------------------------------------

  /** Steps a list has left, started or not. */
  function LaneSteps(lane: Lane): nat
  {
    if lane.at.Idle? then 2 * |lane.list| + 3 else StepsLeft(lane)
  }

  /** Steps the race has left while the select loop is waiting. */
  function RaceSteps(s: State): nat
  {
    LaneSteps(s.first) + LaneSteps(s.second) + (if s.timerFired then 0 else 1)
  }

  lemma OwnCounts(s: State, e: Event)
    requires Inv(s) && Enabled(s, e) && OwnStep(e)
    ensures RaceSteps(Apply(s, e)) < RaceSteps(s)
  {
    StepsShrink(s, e);
    DialledOk(s, e);
  }

  lemma MainCounts(s: State, e: Event)
    requires Inv(s) && Enabled(s, e) && (e.TimerCase? || e.Receive?) && Apply(s, e).main.Waiting?
    ensures RaceSteps(Apply(s, e)) < RaceSteps(s)
  {
  }

  /** While the select loop waits it is waiting for something: some step can be taken, and all but the end of the
      caller's context, which ends the wait, count down. */
  lemma RaceEnds(primary: seq<Address>, fallback: seq<Address>, s: State, e: Event) returns (next: Event)
    requires Racing(primary, fallback, s) && s.main.Waiting?
    ensures Enabled(s, next) && next != ParentEnds
    ensures Enabled(s, e) && e != ParentEnds && Apply(s, e).main.Waiting? ==> RaceSteps(Apply(s, e)) < RaceSteps(s)
    ensures Apply(s, ParentEnds).main.Waiting? ==> Enabled(Apply(s, ParentEnds), ContextCase)
  {
    RacingInv(primary, fallback, s);
    next := NextStep(s);
    if Enabled(s, e) && e != ParentEnds && Apply(s, e).main.Waiting? {
      if OwnStep(e) { OwnCounts(s, e); } else { MainCounts(s, e); }
    }
  }

  /** The step a dialer under way can take. */
  function StepOf(s: State, f: Family): Event
  {
    match LaneOf(s, f).at
    case Before(i) => if i < |LaneOf(s, f).list| then BeginTry(f) else RunOut(f)
    case Trying(_) => if Cancelled(s) then TryCancelled(f) else TryFailed(f)
    case _ => Receive(f)
  }

  lemma NextStep(s: State) returns (next: Event)
    requires Inv(s) && s.main.Waiting?
    ensures Enabled(s, next) && next != ParentEnds
  {
    next := if s.parentDone then ContextCase
            else if !s.first.at.Finished? then StepOf(s, Primary)
            else StepOf(s, Fallback);
  }
}

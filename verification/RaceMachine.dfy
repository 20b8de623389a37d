/** The race of two dialers, a timer and the context (`DialContext` and `dialAddresses` in
    internal/acl/acl.go), as a machine whose steps are channel operations and dial outcomes. */
module RaceMachine {
  import opened Bytes
  import opened Address

  datatype Family = Primary | Fallback
  type ConnId = nat

  /** Why a list ended without a connection. */
  datatype Cause = Exhausted | ContextOver | NoTimeLeft

  /** What became of a dialer that has finished. */
  datatype Fate = HandedOver(c: ConnId) | ClosedIt(c: ConnId) | Reported(why: Cause) | Dropped(why: Cause)

  datatype Runner =
    | Idle
    | Before(i: nat)             // about to try address i; all earlier ones failed
    | Trying(i: nat)
    | Holding(c: ConnId)         // offering a connection to the results channel
    | Failing(why: Cause)        // offering an error to the results channel
    | Finished(fate: Fate)

  datatype Main =
    | Waiting(started: bool, failures: nat)
    | Connected(c: ConnId)
    | BothFailed
    | ContextError

  datatype Try = Pending | Opened(c: ConnId) | Failed

  /** One address list and its dialer. History: `tries` logs the attempts by index, `won` is the index of the
      one that connected, `starts` counts `go run(list)`. */
  datatype Lane = Lane(list: seq<Address>, at: Runner, tries: map<nat, Try>, won: Option<nat>, starts: nat)

  datatype State = State(
    main: Main,
    first: Lane,
    second: Lane,
    parentDone: bool,
    timerFired: bool,
    known: set<ConnId>)          // connections ever opened

  datatype Event =
    | ParentEnds
    | TimerCase
    | ContextCase
    | Receive(f: Family)
    | BeginTry(f: Family)
    | OpenedConn(f: Family, c: ConnId)
    | TryFailed(f: Family)
    | TryCancelled(f: Family)
    | RunOut(f: Family)
    | NoTime(f: Family)
    | Quit(f: Family)

  function LaneOf(s: State, f: Family): Lane
  {
    if f.Primary? then s.first else s.second
  }

  function Put(s: State, f: Family, lane: Lane): State
  {
    if f.Primary? then s.(first := lane) else s.(second := lane)
  }

  /** `go run(list)`. */
  function Started(lane: Lane): Lane
  {
    lane.(at := Before(0), starts := lane.starts + 1)
  }

  /** The derived context is done: its parent ended, or `DialContext` returned and cancelled it. */
  predicate Cancelled(s: State)
  {
    s.parentDone || !s.main.Waiting?
  }

  /** The race begins with the primary list under way. */
  function Initial(primary: seq<Address>, fallback: seq<Address>): State
  {
    var first, second := Lane(primary, Idle, map[], None, 0), Lane(fallback, Idle, map[], None, 0);
    State(Waiting(false, 0), Started(first), second, false, false, {})
  }

  predicate Offering(lane: Lane)
  {
    lane.at.Holding? || lane.at.Failing?
  }

  ghost predicate Enabled(s: State, e: Event)
  {
    match e
    case ParentEnds => true
    case TimerCase => s.main.Waiting? && !s.timerFired
    case ContextCase => s.main.Waiting? && s.parentDone
    case Receive(f) => s.main.Waiting? && Offering(LaneOf(s, f))
    case BeginTry(f) => LaneOf(s, f).at.Before? && LaneOf(s, f).at.i < |LaneOf(s, f).list|
    case OpenedConn(f, c) => LaneOf(s, f).at.Trying? && c !in s.known
    case TryFailed(f) => LaneOf(s, f).at.Trying? && !Cancelled(s)
    case TryCancelled(f) => LaneOf(s, f).at.Trying? && Cancelled(s)
    case RunOut(f) => LaneOf(s, f).at.Before? && LaneOf(s, f).at.i == |LaneOf(s, f).list|
    case NoTime(f) => LaneOf(s, f).at.Before? && LaneOf(s, f).at.i < |LaneOf(s, f).list|
    case Quit(f) => Cancelled(s) && Offering(LaneOf(s, f))
  }

  /** One step of a dialer: its next place, and what it logs for the address it is at. */
  function Tried(lane: Lane, at: Runner, outcome: Try): Lane
    requires lane.at.Before? || lane.at.Trying?
  {
    lane.(at := at, tries := lane.tries[lane.at.i := outcome],
          won := if outcome.Opened? then Some(lane.at.i) else lane.won)
  }

  /** The select loop takes the dialer's offer. */
  function Taken(lane: Lane): Lane
    requires Offering(lane)
  {
    lane.(at := Finished(if lane.at.Holding? then HandedOver(lane.at.c) else Reported(lane.at.why)))
  }

  /** Nobody takes it: the dialer closes its connection. */
  function Withdrawn(lane: Lane): Lane
    requires Offering(lane)
  {
    lane.(at := Finished(if lane.at.Holding? then ClosedIt(lane.at.c) else Dropped(lane.at.why)))
  }

  function StartFallbackOnce(s: State, failures: nat): State
    requires s.main.Waiting?
  {
    if s.main.started then s.(main := Waiting(true, failures))
    else s.(main := Waiting(true, failures), second := Started(s.second))
  }

  /** The rendezvous on the results channel. */
  function DoReceive(s: State, f: Family): State
    requires Enabled(s, Receive(f))
  {
    var t := Put(s, f, Taken(LaneOf(s, f)));
    if LaneOf(s, f).at.Holding? then t.(main := Connected(LaneOf(s, f).at.c))
    else if s.main.failures > 0 then t.(main := BothFailed)
    else StartFallbackOnce(t, 1)
  }

  /** A step of one dialer on its own. */
  function Dialled(s: State, e: Event): Lane
    requires Enabled(s, e) && OwnStep(e)
  {
    var lane := LaneOf(s, e.f);
    match e
    case BeginTry(_) => Tried(lane, Trying(lane.at.i), Pending)
    case OpenedConn(_, c) => Tried(lane, Holding(c), Opened(c))
    case TryFailed(_) => Tried(lane, Before(lane.at.i + 1), Failed)
    case TryCancelled(_) => Tried(lane, Failing(ContextOver), Failed)
    case RunOut(_) => lane.(at := Failing(Exhausted))
    case NoTime(_) => lane.(at := Failing(NoTimeLeft))
    case Quit(_) => Withdrawn(lane)
  }

  predicate OwnStep(e: Event)
  {
    !e.ParentEnds? && !e.TimerCase? && !e.ContextCase? && !e.Receive?
  }

  function Apply(s: State, e: Event): State
    requires Enabled(s, e)
  {
    match e
    case ParentEnds => s.(parentDone := true)
    case TimerCase => StartFallbackOnce(s.(timerFired := true), s.main.failures)
    case ContextCase => s.(main := ContextError)
    case Receive(f) => DoReceive(s, f)
    case _ =>
      var t := Put(s, e.f, Dialled(s, e));
      if e.OpenedConn? then t.(known := s.known + {e.c}) else t
  }

  ghost predicate Run(s: State, es: seq<Event>, s': State)
    decreases |es|
  {
    if es == [] then s' == s else Enabled(s, es[0]) && Run(Apply(s, es[0]), es[1..], s')
  }

  ghost predicate Reachable(primary: seq<Address>, fallback: seq<Address>, s: State)
  {
    exists es :: Run(Initial(primary, fallback), es, s)
  }

  // ---- Invariants ----------------------------------------------------------------------------

  /** The connection a dialer has opened, wherever it is by now. */
  function ConnOf(r: Runner): Option<ConnId>
  {
    match r
    case Holding(c) => Some(c)
    case Finished(HandedOver(c)) => Some(c)
    case Finished(ClosedIt(c)) => Some(c)
    case _ => None
  }

  function CauseOf(r: Runner): Option<Cause>
  {
    match r
    case Failing(why) => Some(why)
    case Finished(Reported(why)) => Some(why)
    case Finished(Dropped(why)) => Some(why)
    case _ => None
  }

  /** How many addresses of its list a dialer has certainly tried in vain. */
  function Behind(lane: Lane): nat
  {
    match lane.at
    case Before(i) => i
    case Trying(i) => i
    case r => if CauseOf(r) == Some(Exhausted) then |lane.list| else 0
  }

  /** The log of attempts against the dialer's position. */
  ghost predicate LaneOk(lane: Lane)
  {
    && lane.list != []
    && lane.starts == (if lane.at.Idle? then 0 else 1)
    && Behind(lane) <= |lane.list|
    && (lane.at.Trying? ==> lane.at.i < |lane.list|)
    && (forall j :: j in lane.tries ==> j < |lane.list|)
    && (forall j :: 0 <= j < Behind(lane) ==> j in lane.tries && lane.tries[j] == Failed)
    && (lane.at.Before? ==> forall j :: j in lane.tries ==> j < lane.at.i)
    && (lane.at.Trying? ==> forall j :: j in lane.tries ==> j <= lane.at.i)
    && (lane.at.Idle? ==> lane.tries == map[])
    && (forall j :: j in lane.tries && lane.tries[j].Opened? ==> ConnOf(lane.at) == Some(lane.tries[j].c))
    && (lane.at.Trying? ==> lane.at.i in lane.tries && lane.tries[lane.at.i] == Pending)
    && (ConnOf(lane.at).Some? ==>
          && lane.won.Some? && lane.won.value in lane.tries
          && lane.tries[lane.won.value] == Opened(ConnOf(lane.at).value))
  }

  /** What the end of a dialer says about the whole race. */
  ghost predicate EndOk(s: State, r: Runner)
  {
    && (ConnOf(r).Some? ==> ConnOf(r).value in s.known)
    && (r.Finished? && r.fate.HandedOver? ==> s.main == Connected(r.fate.c))
    && (r.Finished? && (r.fate.ClosedIt? || r.fate.Dropped?) ==> Cancelled(s))
    && (CauseOf(r) == Some(ContextOver) ==> Cancelled(s))
    && (r == Finished(Reported(ContextOver)) ==> s.parentDone)
  }

  predicate Complained(r: Runner)
  {
    r.Finished? && r.fate.Reported?
  }

  /** The select loop: what it has started and which results it has taken. */
  ghost predicate MainOk(s: State)
  {
    var a, b := s.first.at, s.second.at;
    && !a.Idle? && (!b.Idle? ==> s.timerFired || Complained(a))
    && (ConnOf(a).Some? ==> ConnOf(a) != ConnOf(b))
    && (s.main.ContextError? ==> s.parentDone)
    && (s.main.BothFailed? ==> Complained(a) && Complained(b))
    && (s.main.Connected? ==> a == Finished(HandedOver(s.main.c)) || b == Finished(HandedOver(s.main.c)))
    && (s.main.Waiting? ==>
          && (s.main.started <==> !b.Idle?)
          && (s.main.started <==> s.timerFired || s.main.failures > 0)
          && s.main.failures == (if Complained(a) then 1 else 0) + (if Complained(b) then 1 else 0)
          && s.main.failures <= 1)
  }

  ghost predicate Inv(s: State)
  {
    LaneOk(s.first) && LaneOk(s.second) && EndOk(s, s.first.at) && EndOk(s, s.second.at) && MainOk(s)
  }

  lemma InitialInv(primary: seq<Address>, fallback: seq<Address>)
    requires primary != [] && fallback != []
    ensures Inv(Initial(primary, fallback))
  {
  }

  lemma StartedOk(lane: Lane)
    requires LaneOk(lane) && lane.at.Idle?
    ensures LaneOk(Started(lane))
  {
  }

  lemma OfferOk(lane: Lane)
    requires LaneOk(lane) && Offering(lane)
    ensures LaneOk(Taken(lane)) && LaneOk(Withdrawn(lane))
  {
  }

  lemma TriedOk(lane: Lane, outcome: Try, at: Runner)
    requires LaneOk(lane) && lane.at.Trying? && !outcome.Pending?
    requires at == match outcome { case Opened(c) => Holding(c) case _ => at }
    requires outcome.Failed? ==> at == Before(lane.at.i + 1) || at == Failing(ContextOver)
    ensures LaneOk(Tried(lane, at, outcome))
  {
  }

  lemma DialledOk(s: State, e: Event)
    requires Enabled(s, e) && OwnStep(e) && LaneOk(LaneOf(s, e.f))
    ensures LaneOk(Dialled(s, e))
  {
    var lane := LaneOf(s, e.f);
    match e
    case OpenedConn(_, c) => TriedOk(lane, Opened(c), Holding(c));
    case TryFailed(_) => TriedOk(lane, Failed, Before(lane.at.i + 1));
    case TryCancelled(_) => TriedOk(lane, Failed, Failing(ContextOver));
    case Quit(_) => OfferOk(lane);
    case _ =>
  }

  /** What a dialer's own step looks like to the rest of the race. */
  ghost predicate Advances(s: State, before: Runner, after: Runner)
  {
    && !before.Idle? && !before.Finished? && !after.Idle?
    && (after.Finished? ==> Cancelled(s) && (after.fate.ClosedIt? || after.fate.Dropped?))
    && (CauseOf(after) == Some(ContextOver) ==> Cancelled(s))
    && (ConnOf(after) == ConnOf(before) || (ConnOf(after).Some? && ConnOf(after).value !in s.known))
  }

  lemma OwnAdvances(s: State, e: Event)
    requires Enabled(s, e) && OwnStep(e) && EndOk(s, LaneOf(s, e.f).at)
    ensures Advances(s, LaneOf(s, e.f).at, Dialled(s, e).at)
    ensures Apply(s, e) == Put(s, e.f, Dialled(s, e)).(known := Apply(s, e).known)
    ensures s.known <= Apply(s, e).known
    ensures ConnOf(Dialled(s, e).at).Some? ==> ConnOf(Dialled(s, e).at).value in Apply(s, e).known
  {
  }

  lemma AdvanceRest(s: State, f: Family, lane: Lane, known: set<ConnId>)
    requires EndOk(s, s.first.at) && EndOk(s, s.second.at) && MainOk(s)
    requires Advances(s, LaneOf(s, f).at, lane.at) && s.known <= known
    requires ConnOf(lane.at).Some? ==> ConnOf(lane.at).value in known
    ensures var t := Put(s, f, lane).(known := known); EndOk(t, t.first.at) && EndOk(t, t.second.at) && MainOk(t)
  {
  }

  lemma OwnStepKeeps(s: State, e: Event)
    requires Inv(s) && Enabled(s, e) && OwnStep(e)
    ensures Inv(Apply(s, e))
  {
    DialledOk(s, e);
    OwnAdvances(s, e);
    AdvanceRest(s, e.f, Dialled(s, e), Apply(s, e).known);
  }

  lemma ReceiveLanes(s: State, f: Family)
    requires LaneOk(s.first) && LaneOk(s.second) && MainOk(s) && Enabled(s, Receive(f))
    ensures LaneOk(DoReceive(s, f).first) && LaneOk(DoReceive(s, f).second)
  {
    OfferOk(LaneOf(s, f));
    if !s.main.started { StartedOk(s.second); }
  }

  lemma ReceiveRest(s: State, f: Family)
    requires EndOk(s, s.first.at) && EndOk(s, s.second.at) && MainOk(s) && Enabled(s, Receive(f))
    ensures EndOk(DoReceive(s, f), DoReceive(s, f).first.at) && EndOk(DoReceive(s, f), DoReceive(s, f).second.at)
    ensures MainOk(DoReceive(s, f))
  {
  }

  lemma ReceiveKeeps(s: State, f: Family)
    requires Inv(s) && Enabled(s, Receive(f))
    ensures Inv(DoReceive(s, f))
  {
    ReceiveLanes(s, f);
    ReceiveRest(s, f);
  }

  lemma InvStep(s: State, e: Event)
    requires Inv(s) && Enabled(s, e)
    ensures Inv(Apply(s, e))
  {
    match e
    case ParentEnds =>
    case TimerCase => if !s.main.started { StartedOk(s.second); }
    case ContextCase =>
    case Receive(f) => ReceiveKeeps(s, f);
    case _ => OwnStepKeeps(s, e);
  }
}

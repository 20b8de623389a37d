/** Revocation has no gap: over every interleaving of authentications, reloads and watcher scans. */
module Revocation {
  import opened Bytes
  import opened Credentials
  import opened AuthMachine

  /** Published, or about to be with its check already passed, and still open. */
  predicate Live(conn: Conn)
  {
    conn.open && (conn.authed || conn.control.Passed?)
  }

  predicate HasKey(control: Control)
  {
    control.Stored? || control.Passed? || control.Published? || control.Replied?
  }

  /** A key identity is stored before anything depends on it, and only on a listed connection. */
  ghost predicate ConnOk(conn: Conn)
  {
    && (HasKey(conn.control) ==> conn.authKey == Some(KeyId(conn.control.key)))
    && (conn.authed <==> conn.control.Published? || conn.control.Replied?)
    && (conn.authKey.Some? && conn.open ==> conn.member.Listed?)
    && (!conn.control.NoControl? && conn.open ==> conn.member.Listed?)
    && (conn.member.Unlisted? ==> conn.control.NoControl?)
    && (conn.authKey.Some? ==> HasKey(conn.control) || conn.control.Refused?)
  }

  /** The scan has still to reach the connection, or has it on its close list. */
  predicate Pending(phase: Phase, c: ConnId)
  {
    match phase
    case Begun => true
    case Visiting(todo, loaded, closeList) => c in todo || loaded == Some(c) || c in closeList
    case Closing(closeList) => c in closeList
    case Finished => false
  }

  /** No live connection under a key that was unacceptable ever since the scan began escapes it. */
  ghost predicate Covers(conns: map<ConnId, Conn>, scan: Scan)
  {
    forall c :: c in conns && Live(conns[c]) && conns[c].authKey.Some? && conns[c].authKey.value !in scan.alive ==> Pending(scan.phase, c)
  }

  /** A scan remembers everything acceptable since it began, and what it loaded has a key. */
  ghost predicate ScanOk(s: State, i: nat)
    requires i in s.scans
  {
    var scan := s.scans[i];
    && AcceptedIds(s.current, s.now) <= scan.alive
    && scan.since <= s.version
    && (scan.since == s.version ==> scan.alive <= KeysOf(s.current))
    && (scan.phase.Visiting? <==> s.lock == Some(i))
    && (scan.phase.Visiting? && scan.phase.loaded.Some? ==>
          scan.phase.loaded.value in s.conns && s.conns[scan.phase.loaded.value].authKey.Some?)
  }

  /** The identities present in a snapshot. */
  function KeysOf(s: Snapshot): set<KeyId>
  {
    {KeyId(s.primary)} + if s.previous != [] then {KeyId(s.previous)} else {}
  }

  ghost predicate ConnsOk(s: State)
  {
    forall c :: c in s.conns ==> ConnOk(s.conns[c])
  }

  ghost predicate ScansOk(s: State)
  {
    && (forall i :: i in s.scans ==> ScanOk(s, i))
    && (s.lock.Some? ==> s.lock.value in s.scans)
  }

  ghost predicate AllCovered(s: State)
  {
    forall i :: i in s.scans ==> Covers(s.conns, s.scans[i])
  }

  /** Before the first reload every published key is in the snapshot; after one, the scan of the
      latest reload exists. */
  ghost predicate ScanExists(s: State)
  {
    if s.version == 0 then forall c :: c in s.conns && Live(s.conns[c]) && s.conns[c].authKey.Some? ==> s.conns[c].authKey.value in KeysOf(s.current)
    else exists i :: i in s.scans && s.scans[i].since == s.version
  }

  ghost predicate Inv(s: State)
  {
    ConnsOk(s) && ScansOk(s) && AllCovered(s) && ScanExists(s)
  }

  lemma InitialInv(snapshot: Snapshot, now: real, leaked: set<KeyBytes>)
    ensures Inv(Initial(snapshot, now, leaked))
  {
  }

  // ---- Steps that touch one connection -------------------------------------------------------

  /** A connection changes without becoming live under a key that was not acceptable. */
  ghost predicate Safe(s: State, c: ConnId, conn: Conn)
  {
    && ConnOk(conn)
    && (c in s.conns ==> (s.conns[c].authKey.Some? ==> conn.authKey == s.conns[c].authKey))
    && (Live(conn) ==>
          || (conn.authKey.Some? && Accepts(s.current, conn.authKey.value, s.now))
          || (c in s.conns && Live(s.conns[c]) && s.conns[c].authKey == conn.authKey))
  }

  lemma SetConnKeeps(s: State, c: ConnId, conn: Conn)
    requires Inv(s) && Safe(s, c, conn)
    ensures Inv(SetConn(s, c, conn))
  {
    var s' := SetConn(s, c, conn);
    forall i | i in s.scans ensures Covers(s'.conns, s'.scans[i]) {
      assert ScanOk(s, i);
      assert Covers(s.conns, s.scans[i]);
    }
    forall i | i in s'.scans ensures ScanOk(s', i) {
      assert ScanOk(s, i);
    }
    if s.version > 0 {
      var i :| i in s.scans && s.scans[i].since == s.version;
      assert i in s'.scans && s'.scans[i].since == s'.version;
    }
  }

  predicate OfListing(e: Event)
  {
    e.AcceptConn? || e.Register? || e.CloseConn? || e.Remove? || e.StartControl?
  }

  predicate OfControl(e: Event)
  {
    e.LoadSnapshot? || e.ReadProof? || e.StoreKey? || e.CheckKey? || e.Publish?
  }

  lemma ListingSafe(s: State, e: Event)
    requires Inv(s) && Enabled(s, e) && OfListing(e)
    ensures e.c in Apply(s, e).conns
    ensures Apply(s, e) == SetConn(s, e.c, Apply(s, e).conns[e.c]) && Safe(s, e.c, Apply(s, e).conns[e.c])
  {
    if e.c in s.conns { assert ConnOk(s.conns[e.c]); }
  }

  lemma ControlSafe(s: State, e: Event)
    requires Inv(s) && Enabled(s, e) && OfControl(e)
    ensures e.c in Apply(s, e).conns
    ensures Apply(s, e) == SetConn(s, e.c, Apply(s, e).conns[e.c]) && Safe(s, e.c, Apply(s, e).conns[e.c])
  {
    assert ConnOk(s.conns[e.c]);
  }

  lemma ReplyKeeps(s: State, c: ConnId)
    requires Inv(s) && Enabled(s, Reply(c))
    ensures Inv(DoReply(s, c))
  {
    var conn := s.conns[c].(control := Replied(s.conns[c].control.key));
    assert ConnOk(s.conns[c]);
    SetConnKeeps(s, c, conn);
    SameParts(SetConn(s, c, conn), DoReply(s, c));
  }

  /** The invariant does not look at clients and the wire. */
  lemma SameParts(s: State, s': State)
    requires Inv(s) && s'.current == s.current && s'.version == s.version && s'.now == s.now
    requires s'.conns == s.conns && s'.lock == s.lock && s'.scans == s.scans
    ensures Inv(s')
  {
    forall i | i in s'.scans ensures ScanOk(s', i) && Covers(s'.conns, s'.scans[i]) {
      assert ScanOk(s, i) && Covers(s.conns, s.scans[i]);
    }
    if s.version > 0 {
      var i :| i in s.scans && s.scans[i].since == s.version;
      assert i in s'.scans && s'.scans[i].since == s'.version;
    }
  }

  // ---- The clock and new scans ---------------------------------------------------------------

  lemma ClockKeeps(s: State, now: real)
    requires Inv(s) && s.now <= now
    ensures Inv(Apply(s, Clock(now)))
  {
    var s' := Apply(s, Clock(now));
    var ids := AcceptedIds(s.current, now);
    assert ids <= KeysOf(s.current);
    forall i | i in s'.scans ensures ScanOk(s', i) && Covers(s'.conns, s'.scans[i]) {
      assert ScanOk(s, i) && Covers(s.conns, s.scans[i]);
    }
    if s.version > 0 {
      var i :| i in s.scans && s.scans[i].since == s.version;
      assert i in s'.scans && s'.scans[i].since == s'.version;
    }
  }

  lemma ReloadKeeps(s: State, i: nat, snapshot: Snapshot)
    requires Inv(s) && i !in s.scans
    ensures Inv(DoReload(s, i, snapshot))
  {
    var s' := DoReload(s, i, snapshot);
    forall j | j in s'.scans ensures ScanOk(s', j) && Covers(s'.conns, s'.scans[j]) {
      if j != i {
        assert ScanOk(s, j) && Covers(s.conns, s.scans[j]);
      }
    }
    assert i in s'.scans && s'.scans[i].since == s'.version;
  }

  lemma WatcherTickKeeps(s: State, i: nat)
    requires Inv(s) && i !in s.scans
    ensures Inv(Apply(s, WatcherTick(i)))
  {
    var s' := Apply(s, WatcherTick(i));
    forall j | j in s'.scans ensures ScanOk(s', j) && Covers(s'.conns, s'.scans[j]) {
      if j != i {
        assert ScanOk(s, j) && Covers(s.conns, s.scans[j]);
      }
    }
    if s.version > 0 {
      var j :| j in s.scans && s.scans[j].since == s.version;
      assert j in s'.scans && s'.scans[j].since == s'.version;
    }
  }

  // ---- The steps of a scan -------------------------------------------------------------------

  /** A scan moves on: nothing else changes, and no live connection drops out of it. */
  lemma SetPhaseKeeps(s: State, s': State, i: nat, phase: Phase)
    requires Inv(s) && i in s.scans && s'.scans == s.scans[i := s.scans[i].(phase := phase)]
    requires s'.current == s.current && s'.version == s.version && s'.now == s.now && s'.conns == s.conns
    requires forall j :: j in s'.scans ==> ScanOk(s', j)
    requires s'.lock.Some? ==> s'.lock.value in s.scans
    requires forall c :: c in s.conns && Live(s.conns[c]) && s.conns[c].authKey.Some? && s.conns[c].authKey.value !in s.scans[i].alive ==> Pending(phase, c)
    ensures Inv(s')
  {
    forall j | j in s'.scans ensures Covers(s'.conns, s'.scans[j]) {
      assert Covers(s.conns, s.scans[j]);
    }
    if s.version > 0 {
      var j :| j in s.scans && s.scans[j].since == s.version;
      assert j in s'.scans && s'.scans[j].since == s'.version;
    }
  }

  lemma OtherScansOk(s: State, s': State, i: nat)
    requires ScansOk(s) && i in s.scans && s'.scans.Keys == s.scans.Keys
    requires s'.current == s.current && s'.version == s.version && s'.now == s.now && s'.conns == s.conns
    requires forall j :: j in s.scans && j != i ==> s'.scans[j] == s.scans[j]
    requires (s.lock == s'.lock) || (s.lock.None? && s'.lock == Some(i)) || (s.lock == Some(i) && s'.lock.None?)
    ensures forall j :: j in s'.scans && j != i ==> ScanOk(s', j)
  {
    forall j | j in s'.scans && j != i ensures ScanOk(s', j) {
      assert ScanOk(s, j);
    }
  }

  lemma LockKeeps(s: State, i: nat)
    requires Inv(s) && Enabled(s, LockStates(i))
    ensures Inv(Apply(s, LockStates(i)))
  {
    var s' := Apply(s, LockStates(i));
    OtherScansOk(s, s', i);
    assert ScanOk(s, i) && Covers(s.conns, s.scans[i]);
    assert forall c :: c in s.conns ==> ConnOk(s.conns[c]);
    SetPhaseKeeps(s, s', i, Visiting(ListedConns(s.conns), None, {}));
  }

  lemma VisitKeeps(s: State, i: nat, c: ConnId)
    requires Inv(s) && Enabled(s, VisitConn(i, c))
    ensures Inv(Apply(s, VisitConn(i, c)))
  {
    var s' := Apply(s, VisitConn(i, c));
    OtherScansOk(s, s', i);
    assert ScanOk(s, i) && Covers(s.conns, s.scans[i]);
    SetPhaseKeeps(s, s', i, s'.scans[i].phase);
  }

  lemma JudgeKeeps(s: State, i: nat)
    requires Inv(s) && Enabled(s, JudgeConn(i))
    ensures Inv(DoJudge(s, i))
  {
    var s' := DoJudge(s, i);
    OtherScansOk(s, s', i);
    assert ScanOk(s, i) && Covers(s.conns, s.scans[i]);
    SetPhaseKeeps(s, s', i, s'.scans[i].phase);
  }

  lemma UnlockKeeps(s: State, i: nat)
    requires Inv(s) && Enabled(s, UnlockStates(i))
    ensures Inv(Apply(s, UnlockStates(i)))
  {
    var s' := Apply(s, UnlockStates(i));
    assert ScanOk(s, i) && Covers(s.conns, s.scans[i]);
    OtherScansOk(s, s', i);
    SetPhaseKeeps(s, s', i, Closing(s.scans[i].phase.closeList));
  }

  lemma RevokeKeeps(s: State, i: nat, c: ConnId)
    requires Inv(s) && Enabled(s, RevokeConn(i, c))
    ensures Inv(Apply(s, RevokeConn(i, c)))
  {
    var s1 := SetConn(s, c, s.conns[c].(open := false));
    assert ConnOk(s.conns[c]);
    SetConnKeeps(s, c, s.conns[c].(open := false));
    var s' := Apply(s, RevokeConn(i, c));
    assert ScanOk(s1, i) && Covers(s1.conns, s1.scans[i]);
    OtherScansOk(s1, s', i);
    SetPhaseKeeps(s1, s', i, Closing(s.scans[i].phase.closeList - {c}));
  }

  lemma FinishKeeps(s: State, i: nat)
    requires Inv(s) && Enabled(s, FinishScan(i))
    ensures Inv(Apply(s, FinishScan(i)))
  {
    var s' := Apply(s, FinishScan(i));
    assert ScanOk(s, i) && Covers(s.conns, s.scans[i]);
    OtherScansOk(s, s', i);
    SetPhaseKeeps(s, s', i, Finished);
  }

  // ---- Every run -----------------------------------------------------------------------------

  lemma InvStep(s: State, e: Event)
    requires Inv(s) && Enabled(s, e)
    ensures Inv(Apply(s, e))
  {
    if OfListing(e) {
      ListingSafe(s, e);
      SetConnKeeps(s, e.c, Apply(s, e).conns[e.c]);
    } else if OfControl(e) {
      ControlSafe(s, e);
      SetConnKeeps(s, e.c, Apply(s, e).conns[e.c]);
    } else {
      match e
      case Clock(now) => ClockKeeps(s, now);
      case Reply(c) => ReplyKeeps(s, c);
      case Reload(i, primary, previous, expires, _) => ReloadKeeps(s, i, Snapshot(primary, previous, expires));
      case WatcherTick(i) => WatcherTickKeeps(s, i);
      case LockStates(i) => LockKeeps(s, i);
      case VisitConn(i, c) => VisitKeeps(s, i, c);
      case JudgeConn(i) => JudgeKeeps(s, i);
      case UnlockStates(i) => UnlockKeeps(s, i);
      case RevokeConn(i, c) => RevokeKeeps(s, i, c);
      case FinishScan(i) => FinishKeeps(s, i);
      case NewClient(_, _, _) => SameParts(s, Apply(s, e));
      case ClientSend(_) => SameParts(s, Apply(s, e));
      case ClientRead(_, _) => SameParts(s, Apply(s, e));
    }
  }

  lemma {:induction false} InvRun(s: State, es: seq<Event>, s': State)
    requires Inv(s) && Run(s, es, s')
    ensures Inv(s')
    decreases |es|
  {
    if es != [] {
      InvStep(s, es[0]);
      InvRun(Apply(s, es[0]), es[1..], s');
    }
  }

  lemma ReachableInv(s: State)
    requires Reachable(s)
    ensures Inv(s)
  {
    var snapshot, now, leaked, es :| Run(Initial(snapshot, now, leaked), es, s);
    InitialInv(snapshot, now, leaked);
    InvRun(Initial(snapshot, now, leaked), es, s);
  }

  // ---- What a maintainer gets ----------------------------------------------------------------

  /** In every reachable state a connection that is published and open has a key identity. */
  lemma PublishedHasKey(s: State, c: ConnId)
    requires Inv(s) && c in s.conns && s.conns[c].authed
    ensures s.conns[c].authKey.Some?
  {
    assert ConnOk(s.conns[c]);
  }

  /** No gap: a connection published and open under a key absent from the current snapshot is still to
      be visited by a scan begun after that snapshot was stored, or already on its close list. */
  lemma NoGap(s: State, c: ConnId) returns (i: nat)
    requires Reachable(s) && c in s.conns && s.conns[c].authed && s.conns[c].open
    requires s.conns[c].authKey.Some? ==> s.conns[c].authKey.value !in KeysOf(s.current)
    ensures i in s.scans && s.scans[i].since == s.version && Pending(s.scans[i].phase, c)
  {
    ReachableInv(s);
    PublishedHasKey(s, c);
    assert s.version > 0;
    i :| i in s.scans && s.scans[i].since == s.version;
    assert ScanOk(s, i) && Covers(s.conns, s.scans[i]);
  }

  /** So once a scan begun at or after the store of the current snapshot is over, which is when a
      reload returns, no connection is open under a key absent from it. */
  lemma ReloadRevokesAll(s: State, i: nat, c: ConnId)
    requires Reachable(s) && i in s.scans && s.scans[i].phase.Finished? && s.scans[i].since == s.version
    requires c in s.conns && s.conns[c].authed && s.conns[c].open
    ensures s.conns[c].authKey.Some? && s.conns[c].authKey.value in KeysOf(s.current)
  {
    ReachableInv(s);
    PublishedHasKey(s, c);
    assert ScanOk(s, i) && Covers(s.conns, s.scans[i]);
  }

  /** With other reloads running, and for keys that merely expired: a finished scan leaves open only
      connections whose key was acceptable at some moment since it began. */
  lemma ScanRevokesDead(s: State, i: nat, c: ConnId)
    requires Reachable(s) && i in s.scans && s.scans[i].phase.Finished?
    requires c in s.conns && s.conns[c].authed && s.conns[c].open
    ensures s.conns[c].authKey.Some? && s.conns[c].authKey.value in s.scans[i].alive
  {
    ReachableInv(s);
    PublishedHasKey(s, c);
    assert Covers(s.conns, s.scans[i]);
  }

  /** `close(cs.authed)` happens at most once on a connection: whenever it is about to, it has not. */
  lemma PublishedOnce(s: State, c: ConnId)
    requires Reachable(s) && Enabled(s, Publish(c))
    ensures !s.conns[c].authed
  {
    ReachableInv(s);
    assert ConnOk(s.conns[c]);
  }
}

/** Revocation closes nobody it need not (internal/server/credentials.go): whoever a scan closes had a key that was
    unacceptable at some moment since the scan began. */
module RevocationExact {
  import opened Bytes
  import opened Credentials
  import opened AuthMachine
  import Revocation

  /** The close list of a scan. */
  function Doomed(phase: Phase): set<ConnId>
  {
    match phase
    case Visiting(_, _, closeList) => closeList
    case Closing(closeList) => closeList
    case _ => {}
  }

  /** Everybody on the close list has a key that did not stay acceptable. */
  ghost predicate Fair(conns: map<ConnId, Conn>, scan: Scan)
  {
    forall c :: c in Doomed(scan.phase) ==> c in conns && conns[c].authKey.Some? && conns[c].authKey.value !in scan.steady
  }

  ghost predicate SteadyOk(s: State)
  {
    forall i :: i in s.scans ==> s.scans[i].steady <= AcceptedIds(s.current, s.now)
  }

  ghost predicate FairInv(s: State)
  {
    SteadyOk(s) && forall i :: i in s.scans ==> Fair(s.conns, s.scans[i])
  }

  /** Stored keys stay. */
  ghost predicate KeysStay(conns: map<ConnId, Conn>, conns': map<ConnId, Conn>)
  {
    forall c :: c in conns && conns[c].authKey.Some? ==> c in conns' && conns'[c].authKey == conns[c].authKey
  }

  lemma FairStays(conns: map<ConnId, Conn>, conns': map<ConnId, Conn>, scan: Scan, scan': Scan)
    requires Fair(conns, scan) && KeysStay(conns, conns')
    requires Doomed(scan'.phase) <= Doomed(scan.phase) && scan'.steady <= scan.steady
    ensures Fair(conns', scan')
  {
  }

  /** A step that leaves scans and clock alone. */
  lemma ConnsMove(s: State, s': State)
    requires FairInv(s) && KeysStay(s.conns, s'.conns)
    requires s'.scans == s.scans && s'.current == s.current && s'.now == s.now
    ensures FairInv(s')
  {
    forall i | i in s'.scans ensures Fair(s'.conns, s'.scans[i]) {
      FairStays(s.conns, s'.conns, s.scans[i], s'.scans[i]);
    }
  }

  /** A step that changes one scan. */
  lemma ScanMoves(s: State, s': State, i: nat)
    requires FairInv(s) && i in s.scans && KeysStay(s.conns, s'.conns) && s'.current == s.current && s'.now == s.now
    requires i in s'.scans && s'.scans == s.scans[i := s'.scans[i]]
    requires s'.scans[i].steady == s.scans[i].steady && Fair(s'.conns, s'.scans[i])
    ensures FairInv(s')
  {
    forall j | j in s'.scans ensures Fair(s'.conns, s'.scans[j]) {
      if j != i { FairStays(s.conns, s'.conns, s.scans[j], s'.scans[j]); }
    }
  }

  /** Time or the snapshot moves on. */
  lemma WitnessMoves(s: State, s': State, ids: set<KeyId>)
    requires FairInv(s) && s'.conns == s.conns && ids == AcceptedIds(s'.current, s'.now)
    requires forall j :: j in s'.scans ==>
               (j in s.scans && s'.scans[j] == Witnessed(s.scans, ids)[j])
               || (s'.scans[j].phase.Begun? && s'.scans[j].steady == ids)
    ensures FairInv(s')
  {
    forall j | j in s'.scans ensures Fair(s'.conns, s'.scans[j]) && s'.scans[j].steady <= ids {
      if j in s.scans && s'.scans[j] == Witnessed(s.scans, ids)[j] {
        FairStays(s.conns, s'.conns, s.scans[j], s'.scans[j]);
      }
    }
  }

  predicate OfConn(e: Event)
  {
    || e.AcceptConn? || e.Register? || e.CloseConn? || e.Remove? || e.StartControl? || e.LoadSnapshot?
    || e.ReadProof? || e.StoreKey? || e.CheckKey? || e.Publish? || e.Reply?
  }

  /** Such a step changes one connection and nothing a scan looks at. */
  lemma OneConn(s: State, e: Event)
    requires Enabled(s, e) && OfConn(e)
    ensures e.c in Apply(s, e).conns && Apply(s, e).conns == s.conns[e.c := Apply(s, e).conns[e.c]]
    ensures Apply(s, e).scans == s.scans && Apply(s, e).current == s.current && Apply(s, e).now == s.now
  {
  }

  lemma OneKey(s: State, e: Event)
    requires Enabled(s, e) && OfConn(e) && e.c in s.conns && Revocation.ConnOk(s.conns[e.c]) && s.conns[e.c].authKey.Some?
    ensures Apply(s, e).conns[e.c].authKey == s.conns[e.c].authKey
  {
  }

  lemma ConnKeys(s: State, e: Event)
    requires Revocation.Inv(s) && Enabled(s, e) && OfConn(e)
    ensures KeysStay(s.conns, Apply(s, e).conns)
    ensures Apply(s, e).scans == s.scans && Apply(s, e).current == s.current && Apply(s, e).now == s.now
  {
    OneConn(s, e);
    if e.c in s.conns && s.conns[e.c].authKey.Some? {
      assert Revocation.ConnOk(s.conns[e.c]);
      OneKey(s, e);
    }
  }

  predicate OfScan(e: Event)
  {
    e.LockStates? || e.VisitConn? || e.JudgeConn? || e.UnlockStates? || e.RevokeConn? || e.FinishScan?
  }

  lemma JudgeFair(s: State, i: nat)
    requires FairInv(s) && Enabled(s, JudgeConn(i))
    ensures Fair(s.conns, DoJudge(s, i).scans[i])
  {
    assert Fair(s.conns, s.scans[i]);
    assert s.scans[i].steady <= AcceptedIds(s.current, s.now);
  }

  lemma ScanFair(s: State, e: Event)
    requires FairInv(s) && Enabled(s, e) && OfScan(e)
    ensures FairInv(Apply(s, e))
  {
    var s', i := Apply(s, e), e.scan;
    assert Fair(s.conns, s.scans[i]);
    if e.JudgeConn? {
      JudgeFair(s, i);
    } else {
      FairStays(s.conns, s'.conns, s.scans[i], s'.scans[i]);
    }
    ScanMoves(s, s', i);
  }

  lemma FairStep(s: State, e: Event)
    requires FairInv(s) && Revocation.Inv(s) && Enabled(s, e)
    ensures FairInv(Apply(s, e))
  {
    var s' := Apply(s, e);
    if OfConn(e) {
      ConnKeys(s, e);
      ConnsMove(s, s');
    } else if OfScan(e) {
      ScanFair(s, e);
    } else if e.NewClient? || e.ClientSend? || e.ClientRead? {
      ConnsMove(s, s');
    } else {
      WitnessFair(s, e);
    }
  }

  lemma WitnessFair(s: State, e: Event)
    requires FairInv(s) && Enabled(s, e) && (e.Clock? || e.Reload? || e.WatcherTick?)
    ensures FairInv(Apply(s, e))
  {
    var s' := Apply(s, e);
    if e.WatcherTick? {
      forall j | j in s'.scans ensures Fair(s'.conns, s'.scans[j]) {
        if j != e.scan { assert Fair(s.conns, s.scans[j]); }
      }
    } else {
      WitnessMoves(s, s', AcceptedIds(s'.current, s'.now));
    }
  }

  lemma {:induction false} FairRun(s: State, es: seq<Event>, s': State)
    requires FairInv(s) && Revocation.Inv(s) && Run(s, es, s')
    ensures FairInv(s')
    decreases |es|
  {
    if |es| > 0 {
      FairStep(s, es[0]);
      Revocation.InvStep(s, es[0]);
      FairRun(Apply(s, es[0]), es[1..], s');
    }
  }

  /** In every run, whoever a scan closes was authenticated under a key that was unacceptable at some moment since
      the scan began: sessions whose key stays acceptable survive every reload and every watcher scan. */
  lemma SteadySurvive(s: State, i: nat, c: ConnId)
    requires Reachable(s) && Enabled(s, RevokeConn(i, c))
    ensures s.conns[c].authKey.Some? && s.conns[c].authKey.value !in s.scans[i].steady
  {
    var snapshot, now, leaked, es :| Run(Initial(snapshot, now, leaked), es, s);
    Revocation.InitialInv(snapshot, now, leaked);
    FairRun(Initial(snapshot, now, leaked), es, s);
    assert Fair(s.conns, s.scans[i]);
  }
}

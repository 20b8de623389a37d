/** Authentication, key rotation and revocation as one state machine: the control stream of
    internal/server/server.go, `Authenticate` of internal/tunnel/credentials.go, `ReloadCredentials`
    and `revokeUnauthorized` of internal/server/credentials.go, and `ClientAuth` of
    internal/tunnel/auth.go. Each event is one atomic load or store, one critical section step, one
    stream read or write, or one close. The network may deliver any proof ever written, or one made
    with a leaked key, to anybody. */
module AuthMachine {
  import opened Bytes
  import opened Credentials

  datatype Role = ClientRole | ServerRole

  /** `proof(psk, exporter, who)`: HMAC-SHA256 as an injective symbol. */
  datatype Proof = Mac(key: KeyBytes, exporter: nat, role: Role)

  /** How far `handleControl` got on a connection. */
  datatype Control =
    | NoControl
    | Started
    | Loaded(snapshot: Snapshot)
    | Selected(key: KeyBytes)
    | Stored(key: KeyBytes)
    | Passed(key: KeyBytes)
    | Published(key: KeyBytes)
    | Replied(key: KeyBytes)
    | Refused

  /** Whether a connection is not yet, now, or no longer in `states`. */
  datatype Membership = Unlisted | Listed | Delisted

  /** `connState`, with its place in `states` and whether the connection is open. */
  datatype Conn = Conn(exporter: nat, member: Membership, open: bool, authKey: Option<KeyId>, authed: bool, control: Control)

  datatype Phase =
    | Begun                                                          // before the lock is taken
    | Visiting(todo: set<ConnId>, loaded: Option<ConnId>, closeList: set<ConnId>)
    | Closing(closeList: set<ConnId>)
    | Finished

  /** One run of `revokeUnauthorized`. `since` is the snapshot number current when it began, `alive` the key ids
      that were acceptable at any time since, and `steady` those that were at all times: all three are history. */
  datatype Scan = Scan(phase: Phase, since: nat, alive: set<KeyId>, steady: set<KeyId>)

  datatype ClientStep = Fresh | Waiting | Accepted | Failed

  datatype Client = Client(psk: KeyBytes, exporter: nat, step: ClientStep)

  datatype State = State(
    current: Snapshot,
    version: nat,
    now: real,
    conns: map<ConnId, Conn>,
    lock: Option<nat>,
    scans: map<nat, Scan>,
    clients: map<nat, Client>,
    wire: set<Proof>,
    leaked: set<KeyBytes>)

  datatype Event =
    | Clock(now: real)
    | AcceptConn(c: ConnId, exporter: nat)
    | Register(c: ConnId)
    | CloseConn(c: ConnId)
    | Remove(c: ConnId)
    | StartControl(c: ConnId)
    | LoadSnapshot(c: ConnId)
    | ReadProof(c: ConnId, got: Proof)
    | StoreKey(c: ConnId)
    | CheckKey(c: ConnId)
    | Publish(c: ConnId)
    | Reply(c: ConnId)
    | Reload(scan: nat, primary: KeyBytes, previous: KeyBytes, expires: Option<real>, certOk: bool)
    | WatcherTick(scan: nat)
    | LockStates(scan: nat)
    | VisitConn(scan: nat, c: ConnId)
    | JudgeConn(scan: nat)
    | UnlockStates(scan: nat)
    | RevokeConn(scan: nat, c: ConnId)
    | FinishScan(scan: nat)
    | NewClient(client: nat, psk: KeyBytes, exporter: nat)
    | ClientSend(client: nat)
    | ClientRead(client: nat, got: Proof)

  function Initial(snapshot: Snapshot, now: real, leaked: set<KeyBytes>): State
  {
    State(snapshot, 0, now, map[], None, map[], map[], {}, leaked + {[]})
  }

  /** The key ids acceptable right now. */
  function AcceptedIds(s: Snapshot, now: real): (ids: set<KeyId>)
    ensures forall id :: id in ids <==> Accepts(s, id, now)
  {
    {KeyId(s.primary)} + if |s.previous| > 0 && Before(now, s.expires) then {KeyId(s.previous)} else {}
  }

  /** The scans remember what has become acceptable, and what has remained so. */
  function Witnessed(scans: map<nat, Scan>, ids: set<KeyId>): map<nat, Scan>
  {
    map i | i in scans :: scans[i].(alive := scans[i].alive + ids, steady := scans[i].steady * ids)
  }

  function SetConn(s: State, c: ConnId, conn: Conn): State
  {
    s.(conns := s.conns[c := conn])
  }

  function SetPhase(s: State, i: nat, phase: Phase): State
    requires i in s.scans
  {
    s.(scans := s.scans[i := s.scans[i].(phase := phase)])
  }

  /** The key `Authenticate` selects for a proof, from the snapshot it loaded. */
  function Select(snapshot: Snapshot, exporter: nat, got: Proof, now: real): Option<KeyBytes>
  {
    if got == Mac(snapshot.primary, exporter, ClientRole) && |snapshot.primary| > 0 then Some(snapshot.primary)
    else if got == Mac(snapshot.previous, exporter, ClientRole) && |snapshot.previous| > 0 && Before(now, snapshot.expires)
    then Some(snapshot.previous)
    else None
  }

  /** Anything written before can be replayed, and leaked keys can be used. */
  predicate Deliverable(s: State, got: Proof)
  {
    got in s.wire || got.key in s.leaked
  }

  /** The keys of `states`. */
  function ListedConns(conns: map<ConnId, Conn>): set<ConnId>
  {
    set c | c in conns && conns[c].member.Listed?
  }

  ghost predicate Enabled(s: State, e: Event)
  {
    match e
    case Clock(now) => s.now <= now
    case AcceptConn(c, _) => c !in s.conns
    case Register(c) => c in s.conns && s.conns[c].member.Unlisted? && s.lock.None?
    case CloseConn(c) => c in s.conns
    case Remove(c) => c in s.conns && s.conns[c].member.Listed? && !s.conns[c].open && s.lock.None?
    case StartControl(c) => c in s.conns && s.conns[c].member.Listed? && s.conns[c].control.NoControl?
    case LoadSnapshot(c) => c in s.conns && s.conns[c].control.Started?
    case ReadProof(c, got) => c in s.conns && s.conns[c].control.Loaded? && Deliverable(s, got)
    case StoreKey(c) => c in s.conns && s.conns[c].control.Selected?
    case CheckKey(c) => c in s.conns && s.conns[c].control.Stored?
    case Publish(c) => c in s.conns && s.conns[c].control.Passed?
    case Reply(c) => c in s.conns && s.conns[c].control.Published?
    case Reload(i, primary, previous, expires, certOk) => i !in s.scans && Replaceable(primary, previous, expires, certOk, s.now)
    case WatcherTick(i) => i !in s.scans
    case LockStates(i) => i in s.scans && s.scans[i].phase.Begun? && s.lock.None?
    case VisitConn(i, c) => i in s.scans && s.scans[i].phase.Visiting? && s.scans[i].phase.loaded.None? && c in s.scans[i].phase.todo && c in s.conns
    case JudgeConn(i) =>
      && i in s.scans && s.scans[i].phase.Visiting? && s.scans[i].phase.loaded.Some?
      && s.scans[i].phase.loaded.value in s.conns && s.conns[s.scans[i].phase.loaded.value].authKey.Some?
    case UnlockStates(i) => i in s.scans && s.scans[i].phase.Visiting? && s.scans[i].phase.loaded.None? && s.scans[i].phase.todo == {}
    case RevokeConn(i, c) => i in s.scans && s.scans[i].phase.Closing? && c in s.scans[i].phase.closeList && c in s.conns
    case FinishScan(i) => i in s.scans && s.scans[i].phase.Closing? && s.scans[i].phase.closeList == {}
    case NewClient(k, _, _) => k !in s.clients
    case ClientSend(k) => k in s.clients && s.clients[k].step.Fresh?
    case ClientRead(k, got) => k in s.clients && s.clients[k].step.Waiting? && Deliverable(s, got)
  }

  function Apply(s: State, e: Event): State
    requires Enabled(s, e)
  {
    match e
    case Clock(now) => s.(now := now, scans := Witnessed(s.scans, AcceptedIds(s.current, now)))
    case AcceptConn(c, exporter) => SetConn(s, c, Conn(exporter, Unlisted, true, None, false, NoControl))
    case Register(c) => SetConn(s, c, s.conns[c].(member := Listed))
    case CloseConn(c) => SetConn(s, c, s.conns[c].(open := false))
    case Remove(c) => SetConn(s, c, s.conns[c].(member := Delisted))
    case StartControl(c) => SetConn(s, c, s.conns[c].(control := Started))
    case LoadSnapshot(c) => SetConn(s, c, s.conns[c].(control := Loaded(s.current)))
    case ReadProof(c, got) => DoReadProof(s, c, got)
    case StoreKey(c) =>
      var key := s.conns[c].control.key;
      SetConn(s, c, s.conns[c].(authKey := Some(KeyId(key)), control := Stored(key)))
    case CheckKey(c) =>
      var key := s.conns[c].control.key;
      SetConn(s, c, s.conns[c].(control := if Accepts(s.current, KeyId(key), s.now) then Passed(key) else Refused))
    case Publish(c) => SetConn(s, c, s.conns[c].(authed := true, control := Published(s.conns[c].control.key)))
    case Reply(c) => DoReply(s, c)
    case Reload(i, primary, previous, expires, _) => DoReload(s, i, Snapshot(primary, previous, expires))
    case WatcherTick(i) => s.(scans := s.scans[i := Scan(Begun, s.version, AcceptedIds(s.current, s.now), AcceptedIds(s.current, s.now))])
    case LockStates(i) => SetPhase(s, i, Visiting(ListedConns(s.conns), None, {})).(lock := Some(i))
    case VisitConn(i, c) =>
      var ph := s.scans[i].phase;
      SetPhase(s, i, Visiting(ph.todo - {c}, if s.conns[c].authKey.Some? then Some(c) else None, ph.closeList))
    case JudgeConn(i) => DoJudge(s, i)
    case UnlockStates(i) => SetPhase(s, i, Closing(s.scans[i].phase.closeList)).(lock := None)
    case RevokeConn(i, c) => SetPhase(SetConn(s, c, s.conns[c].(open := false)), i, Closing(s.scans[i].phase.closeList - {c}))
    case FinishScan(i) => SetPhase(s, i, Finished)
    case NewClient(k, psk, exporter) => s.(clients := s.clients[k := Client(psk, exporter, Fresh)])
    case ClientSend(k) =>
      s.(clients := s.clients[k := s.clients[k].(step := Waiting)],
         wire := s.wire + {Mac(s.clients[k].psk, s.clients[k].exporter, ClientRole)})
    case ClientRead(k, got) =>
      var cl := s.clients[k];
      s.(clients := s.clients[k := cl.(step := if got == Mac(cl.psk, cl.exporter, ServerRole) then Accepted else Failed)])
  }

  function DoReadProof(s: State, c: ConnId, got: Proof): State
    requires c in s.conns && s.conns[c].control.Loaded?
  {
    var conn := s.conns[c];
    match Select(conn.control.snapshot, conn.exporter, got, s.now)
    case Some(key) => SetConn(s, c, conn.(control := Selected(key)))
    case None => SetConn(s, c, conn.(control := Refused))
  }

  function DoReply(s: State, c: ConnId): State
    requires c in s.conns && s.conns[c].control.Published?
  {
    var conn := s.conns[c];
    SetConn(s, c, conn.(control := Replied(conn.control.key))).(wire := s.wire + {Mac(conn.control.key, conn.exporter, ServerRole)})
  }

  /** `ReloadCredentials` up to the call of `revokeUnauthorized`. */
  function DoReload(s: State, i: nat, snapshot: Snapshot): State
  {
    var ids := AcceptedIds(snapshot, s.now);
    s.(current := snapshot, version := s.version + 1,
       scans := Witnessed(s.scans, ids)[i := Scan(Begun, s.version + 1, ids, ids)])
  }

  function DoJudge(s: State, i: nat): State
    requires i in s.scans && s.scans[i].phase.Visiting? && s.scans[i].phase.loaded.Some?
    requires s.scans[i].phase.loaded.value in s.conns && s.conns[s.scans[i].phase.loaded.value].authKey.Some?
  {
    var ph := s.scans[i].phase;
    var c := ph.loaded.value;
    SetPhase(s, i, Visiting(ph.todo, None, if Accepts(s.current, s.conns[c].authKey.value, s.now) then ph.closeList else ph.closeList + {c}))
  }

  ghost predicate Run(s: State, es: seq<Event>, s': State)
    decreases |es|
  {
    if es == [] then s' == s else Enabled(s, es[0]) && Run(Apply(s, es[0]), es[1..], s')
  }

  ghost predicate Reachable(s: State)
  {
    exists snapshot, now, leaked, es :: Run(Initial(snapshot, now, leaked), es, s)
  }
}

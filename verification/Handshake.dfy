/** Mutual authentication of internal/tunnel/auth.go and internal/tunnel/credentials.go against a
    network that replays proofs and knows leaked keys. */
module Handshake {
  import opened Bytes
  import opened Credentials
  import opened AuthMachine
  import Revocation

  /** A connection that selected, stored and published `key` for `exporter`. */
  predicate Vouches(conn: Conn, key: KeyBytes, exporter: nat)
  {
    conn.exporter == exporter && conn.authKey == Some(KeyId(key)) && conn.authed
  }

  /** A client that has sent its proof of `key` for `exporter`. */
  predicate Asked(client: Client, key: KeyBytes, exporter: nat)
  {
    client.psk == key && client.exporter == exporter && !client.step.Fresh?
  }

  /** Whoever wrote a proof that is on the wire. */
  ghost predicate Written(s: State, m: Proof)
  {
    match m.role
    case ServerRole => exists c :: c in s.conns && Vouches(s.conns[c], m.key, m.exporter)
    case ClientRole => exists k :: k in s.clients && Asked(s.clients[k], m.key, m.exporter)
  }

  ghost predicate WireOk(s: State)
  {
    forall m :: m in s.wire ==> Written(s, m)
  }

  predicate KeyChosen(control: Control)
  {
    control.Selected? || control.Stored? || control.Passed? || control.Published? || control.Replied?
  }

  /** The server only selects a key that is not empty and whose client proof for this very session was
      deliverable. */
  ghost predicate ChoiceOk(s: State, conn: Conn)
  {
    KeyChosen(conn.control) ==>
      var key := conn.control.key;
      key != [] && (Mac(key, conn.exporter, ClientRole) in s.wire || key in s.leaked)
  }

  /** An accepting client saw the server's proof of its own key and session. */
  ghost predicate ClientOk(s: State, client: Client)
  {
    client.step.Accepted? ==> Mac(client.psk, client.exporter, ServerRole) in s.wire || client.psk in s.leaked
  }

  ghost predicate Inv(s: State)
  {
    && WireOk(s)
    && (forall c :: c in s.conns ==> ChoiceOk(s, s.conns[c]))
    && (forall k :: k in s.clients ==> ClientOk(s, s.clients[k]))
  }

  lemma InitialInv(snapshot: Snapshot, now: real, leaked: set<KeyBytes>)
    ensures Inv(Initial(snapshot, now, leaked))
  {
  }

  /** Nothing that was vouched for or asked is taken back, and the wire and the leak only grow. */
  ghost predicate Grows(s: State, s': State)
  {
    && s.wire <= s'.wire && s.leaked == s'.leaked
    && (forall c :: c in s.conns && s.conns[c].authed ==>
          c in s'.conns && s'.conns[c].exporter == s.conns[c].exporter && s'.conns[c].authKey == s.conns[c].authKey && s'.conns[c].authed)
    && (forall k :: k in s.clients ==>
          k in s'.clients && s'.clients[k].psk == s.clients[k].psk && s'.clients[k].exporter == s.clients[k].exporter
          && (s'.clients[k].step.Fresh? ==> s.clients[k].step.Fresh?))
  }

  lemma WrittenStays(s: State, s': State, m: Proof)
    requires Written(s, m) && Grows(s, s')
    ensures Written(s', m)
  {
    if m.role.ServerRole? {
      var c :| c in s.conns && Vouches(s.conns[c], m.key, m.exporter);
      assert Vouches(s'.conns[c], m.key, m.exporter);
    } else {
      var k :| k in s.clients && Asked(s.clients[k], m.key, m.exporter);
      assert Asked(s'.clients[k], m.key, m.exporter);
    }
  }

  /** A step that writes nothing and keeps each choice and each acceptance justified. */
  lemma QuietStep(s: State, s': State)
    requires Inv(s) && Grows(s, s') && s'.wire == s.wire
    requires forall c :: c in s'.conns ==> ChoiceOk(s', s'.conns[c])
    requires forall k :: k in s'.clients ==> ClientOk(s', s'.clients[k])
    ensures Inv(s')
  {
    forall m | m in s'.wire ensures Written(s', m) {
      WrittenStays(s, s', m);
    }
  }

  // ---- Steps ---------------------------------------------------------------------------------

  lemma ConnStep(s: State, c: ConnId, conn: Conn)
    requires Inv(s) && ChoiceOk(s, conn)
    requires c in s.conns && s.conns[c].authed ==>
               conn.exporter == s.conns[c].exporter && conn.authKey == s.conns[c].authKey && conn.authed
    ensures Inv(SetConn(s, c, conn))
  {
    var s' := SetConn(s, c, conn);
    assert forall d :: d in s'.conns && d != c ==> ChoiceOk(s, s.conns[d]);
    QuietStep(s, s');
  }

  lemma ReadProofChoice(s: State, c: ConnId, got: Proof)
    requires Inv(s) && Enabled(s, ReadProof(c, got))
    ensures ChoiceOk(s, DoReadProof(s, c, got).conns[c])
  {
  }

  predicate OfServer(e: Event)
  {
    Revocation.OfListing(e) || Revocation.OfControl(e)
  }

  lemma ServerStep(s: State, e: Event)
    requires Inv(s) && Revocation.Inv(s) && Enabled(s, e) && OfServer(e)
    ensures Inv(Apply(s, e))
  {
    if Revocation.OfListing(e) {
      Revocation.ListingSafe(s, e);
    } else {
      Revocation.ControlSafe(s, e);
    }
    var conn := Apply(s, e).conns[e.c];
    if e.ReadProof? { ReadProofChoice(s, e.c, e.got); }
    if e.c in s.conns {
      assert Revocation.ConnOk(s.conns[e.c]);
      assert ChoiceOk(s, s.conns[e.c]);
    }
    ConnStep(s, e.c, conn);
  }

  lemma ReplyStep(s: State, c: ConnId)
    requires Inv(s) && Revocation.Inv(s) && Enabled(s, Reply(c))
    ensures Inv(DoReply(s, c))
  {
    var s' := DoReply(s, c);
    var key := s.conns[c].control.key;
    assert Revocation.ConnOk(s.conns[c]);
    assert Vouches(s'.conns[c], key, s.conns[c].exporter);
    forall m | m in s'.wire ensures Written(s', m) {
      if m in s.wire { WrittenStays(s, s', m); }
    }
    forall d | d in s'.conns ensures ChoiceOk(s', s'.conns[d]) {
      assert ChoiceOk(s, s.conns[d]);
    }
  }

  lemma ClientSendStep(s: State, k: nat)
    requires Inv(s) && Enabled(s, ClientSend(k))
    ensures Inv(Apply(s, ClientSend(k)))
  {
    var s' := Apply(s, ClientSend(k));
    assert Asked(s'.clients[k], s.clients[k].psk, s.clients[k].exporter);
    forall m | m in s'.wire ensures Written(s', m) {
      if m in s.wire { WrittenStays(s, s', m); }
    }
    forall d | d in s'.conns ensures ChoiceOk(s', s'.conns[d]) {
      assert ChoiceOk(s, s.conns[d]);
    }
    forall j | j in s'.clients ensures ClientOk(s', s'.clients[j]) {
      if j != k { assert ClientOk(s, s.clients[j]); }
    }
  }

  lemma ClientReadStep(s: State, k: nat, got: Proof)
    requires Inv(s) && Enabled(s, ClientRead(k, got))
    ensures Inv(Apply(s, ClientRead(k, got)))
  {
    var s' := Apply(s, ClientRead(k, got));
    forall d | d in s'.conns ensures ChoiceOk(s', s'.conns[d]) {
      assert ChoiceOk(s, s.conns[d]);
    }
    forall j | j in s'.clients ensures ClientOk(s', s'.clients[j]) {
      if j != k { assert ClientOk(s, s.clients[j]); }
    }
    QuietStep(s, s');
  }

  /** The other steps leave connections' choices, clients and the wire alone. */
  predicate Unrelated(e: Event)
  {
    !OfServer(e) && !e.Reply? && !e.ClientSend? && !e.ClientRead? && !e.NewClient? && !e.RevokeConn?
  }

  lemma UnrelatedStep(s: State, e: Event)
    requires Inv(s) && Enabled(s, e) && Unrelated(e)
    ensures Inv(Apply(s, e))
  {
    var s' := Apply(s, e);
    assert s'.conns == s.conns && s'.clients == s.clients && s'.wire == s.wire && s'.leaked == s.leaked;
    forall d | d in s'.conns ensures ChoiceOk(s', s'.conns[d]) {
      assert ChoiceOk(s, s.conns[d]);
    }
    forall j | j in s'.clients ensures ClientOk(s', s'.clients[j]) {
      assert ClientOk(s, s.clients[j]);
    }
    QuietStep(s, s');
  }

  lemma RevokeStep(s: State, i: nat, c: ConnId)
    requires Inv(s) && Enabled(s, RevokeConn(i, c))
    ensures Inv(Apply(s, RevokeConn(i, c)))
  {
    var s1 := SetConn(s, c, s.conns[c].(open := false));
    assert ChoiceOk(s, s.conns[c]);
    ConnStep(s, c, s.conns[c].(open := false));
    var s' := Apply(s, RevokeConn(i, c));
    forall d | d in s'.conns ensures ChoiceOk(s', s'.conns[d]) {
      assert ChoiceOk(s1, s1.conns[d]);
    }
    forall j | j in s'.clients ensures ClientOk(s', s'.clients[j]) {
      assert ClientOk(s1, s1.clients[j]);
    }
    QuietStep(s1, s');
  }

  lemma NewClientStep(s: State, k: nat, psk: KeyBytes, exporter: nat)
    requires Inv(s) && Enabled(s, NewClient(k, psk, exporter))
    ensures Inv(Apply(s, NewClient(k, psk, exporter)))
  {
    var s' := Apply(s, NewClient(k, psk, exporter));
    forall d | d in s'.conns ensures ChoiceOk(s', s'.conns[d]) {
      assert ChoiceOk(s, s.conns[d]);
    }
    forall j | j in s'.clients ensures ClientOk(s', s'.clients[j]) {
      if j != k { assert ClientOk(s, s.clients[j]); }
    }
    QuietStep(s, s');
  }

  lemma InvStep(s: State, e: Event)
    requires Inv(s) && Revocation.Inv(s) && Enabled(s, e)
    ensures Inv(Apply(s, e))
  {
    if OfServer(e) {
      ServerStep(s, e);
    } else if Unrelated(e) {
      UnrelatedStep(s, e);
    } else {
      match e
      case Reply(c) => ReplyStep(s, c);
      case ClientSend(k) => ClientSendStep(s, k);
      case ClientRead(k, got) => ClientReadStep(s, k, got);
      case NewClient(k, psk, exporter) => NewClientStep(s, k, psk, exporter);
      case RevokeConn(i, c) => RevokeStep(s, i, c);
    }
  }

  lemma {:induction false} InvRun(s: State, es: seq<Event>, s': State)
    requires Inv(s) && Revocation.Inv(s) && Run(s, es, s')
    ensures Inv(s')
    decreases |es|
  {
    if es != [] {
      InvStep(s, es[0]);
      Revocation.InvStep(s, es[0]);
      InvRun(Apply(s, es[0]), es[1..], s');
    }
  }

  lemma ReachableInv(s: State)
    requires Reachable(s)
    ensures Inv(s) && Revocation.Inv(s)
  {
    var snapshot, now, leaked, es :| Run(Initial(snapshot, now, leaked), es, s);
    InitialInv(snapshot, now, leaked);
    Revocation.InitialInv(snapshot, now, leaked);
    InvRun(Initial(snapshot, now, leaked), es, s);
    Revocation.InvRun(Initial(snapshot, now, leaked), es, s);
  }

  // ---- What a maintainer gets ----------------------------------------------------------------

  /** Handshake agreement: if `ClientAuth` succeeds with a key that did not leak, a server connection
      with the same exporter selected that very key, stored its identity and had already closed
      `authed`. */
  lemma ClientAgreement(s: State, k: nat) returns (c: ConnId)
    requires Reachable(s) && k in s.clients && s.clients[k].step.Accepted? && s.clients[k].psk !in s.leaked
    ensures c in s.conns && Vouches(s.conns[c], s.clients[k].psk, s.clients[k].exporter)
  {
    ReachableInv(s);
    assert ClientOk(s, s.clients[k]);
    assert Written(s, Mac(s.clients[k].psk, s.clients[k].exporter, ServerRole));
    c :| c in s.conns && Vouches(s.conns[c], s.clients[k].psk, s.clients[k].exporter);
  }

  /** The same the other way: a published connection whose key did not leak was asked for by a client
      that holds that key and shares the session. */
  lemma ServerAgreement(s: State, c: ConnId) returns (k: nat)
    requires Reachable(s) && c in s.conns && s.conns[c].authed
    requires s.conns[c].authKey.Some? ==> s.conns[c].authKey.value.key !in s.leaked
    ensures s.conns[c].authKey.Some? && s.conns[c].authKey.value.key != []
    ensures k in s.clients && Asked(s.clients[k], s.conns[c].authKey.value.key, s.conns[c].exporter)
  {
    ReachableInv(s);
    assert Revocation.ConnOk(s.conns[c]) && ChoiceOk(s, s.conns[c]);
    var key := s.conns[c].control.key;
    assert Written(s, Mac(key, s.conns[c].exporter, ClientRole));
    k :| k in s.clients && Asked(s.clients[k], key, s.conns[c].exporter);
  }

  /** Readiness precedes the reply: the server's proof is on the wire only after `authed` was closed
      and the key stored, on some connection of that session. */
  lemma ProofAfterPublish(s: State, key: KeyBytes, exporter: nat) returns (c: ConnId)
    requires Reachable(s) && Mac(key, exporter, ServerRole) in s.wire
    ensures c in s.conns && Vouches(s.conns[c], key, exporter)
  {
    ReachableInv(s);
    assert Written(s, Mac(key, exporter, ServerRole));
    c :| c in s.conns && Vouches(s.conns[c], key, exporter);
  }
}

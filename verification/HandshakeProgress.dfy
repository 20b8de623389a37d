/** Whom the server lets in (internal/tunnel/credentials.go, internal/server/server.go): exactly the proofs of
    acceptable keys are answered, and whoever holds such a key can complete the handshake. */
module HandshakeProgress {
  import opened Bytes
  import opened Credentials
  import opened AuthMachine

  /** A client's proof of `k` for this session is answered with `k` iff the key is not empty and the snapshot
      accepts it at that time; no other proof ever is. */
  lemma SelectExactly(snapshot: Snapshot, exporter: nat, got: Proof, now: real)
    ensures Select(snapshot, exporter, got, now) ==
            if got.exporter == exporter && got.role.ClientRole? && got.key != [] && Accepts(snapshot, KeyId(got.key), now)
            then Some(got.key) else None
  {
  }

  // ---- A client that has sent its proof has put it on the wire -------------------------------

  ghost predicate SentOk(s: State)
  {
    forall k :: k in s.clients && !s.clients[k].step.Fresh? ==>
      Mac(s.clients[k].psk, s.clients[k].exporter, ClientRole) in s.wire
  }

  predicate OfClient(e: Event)
  {
    e.NewClient? || e.ClientSend? || e.ClientRead?
  }

  lemma OthersKeepSent(s: State, e: Event)
    requires Enabled(s, e) && !OfClient(e)
    ensures Apply(s, e).clients == s.clients && s.wire <= Apply(s, e).wire
  {
  }

  lemma SentStep(s: State, e: Event)
    requires SentOk(s) && Enabled(s, e)
    ensures SentOk(Apply(s, e))
  {
    if !OfClient(e) {
      OthersKeepSent(s, e);
    }
  }

  lemma {:induction false} SentRun(s: State, es: seq<Event>, s': State)
    requires SentOk(s) && Run(s, es, s')
    ensures SentOk(s')
    decreases |es|
  {
    if |es| > 0 {
      SentStep(s, es[0]);
      SentRun(Apply(s, es[0]), es[1..], s');
    }
  }

  lemma ReachableSent(s: State)
    requires Reachable(s)
    ensures SentOk(s)
  {
    var snapshot, now, leaked, es :| Run(Initial(snapshot, now, leaked), es, s);
    SentRun(Initial(snapshot, now, leaked), es, s);
  }

  // ---- The run that lets it in ---------------------------------------------------------------

  lemma RunCons(s: State, e: Event, es: seq<Event>, s': State)
    requires Enabled(s, e) && Run(Apply(s, e), es, s')
    ensures Run(s, [e] + es, s')
  {
    assert ([e] + es)[1..] == es;
  }

  lemma RunNone(s: State)
    ensures Run(s, [], s)
  {
  }

  /** The connection's control stream is at `control`, for the session of client `k` whose key is acceptable. */
  ghost predicate Meets(s: State, c: ConnId, k: nat, control: Control)
  {
    && c in s.conns && s.conns[c].control == control
    && k in s.clients && s.clients[k].step.Waiting? && s.clients[k].exporter == s.conns[c].exporter
    && s.clients[k].psk != [] && Accepts(s.current, KeyId(s.clients[k].psk), s.now)
  }

  lemma ReadsProof(s: State, c: ConnId, k: nat)
    requires Meets(s, c, k, Loaded(s.current)) && Mac(s.clients[k].psk, s.clients[k].exporter, ClientRole) in s.wire
    ensures var e := ReadProof(c, Mac(s.clients[k].psk, s.clients[k].exporter, ClientRole));
            Enabled(s, e) && Meets(Apply(s, e), c, k, Selected(s.clients[k].psk)) && Apply(s, e).clients == s.clients
  {
    SelectExactly(s.current, s.conns[c].exporter, Mac(s.clients[k].psk, s.clients[k].exporter, ClientRole), s.now);
  }

  lemma StoresKey(s: State, c: ConnId, k: nat, key: KeyBytes)
    requires Meets(s, c, k, Selected(key))
    ensures Enabled(s, StoreKey(c)) && Meets(Apply(s, StoreKey(c)), c, k, Stored(key))
    ensures Apply(s, StoreKey(c)).clients == s.clients && Apply(s, StoreKey(c)).conns[c].authKey == Some(KeyId(key))
  {
  }

  lemma ChecksKey(s: State, c: ConnId, k: nat, key: KeyBytes)
    requires Meets(s, c, k, Stored(key)) && s.clients[k].psk == key
    ensures Enabled(s, CheckKey(c)) && Meets(Apply(s, CheckKey(c)), c, k, Passed(key))
    ensures Apply(s, CheckKey(c)).clients == s.clients && Apply(s, CheckKey(c)).conns[c].authKey == s.conns[c].authKey
  {
  }

  lemma Publishes(s: State, c: ConnId, k: nat, key: KeyBytes)
    requires Meets(s, c, k, Passed(key))
    ensures Enabled(s, Publish(c)) && Meets(Apply(s, Publish(c)), c, k, Published(key))
    ensures Apply(s, Publish(c)).clients == s.clients && Apply(s, Publish(c)).conns[c].authed
    ensures Apply(s, Publish(c)).conns[c].authKey == s.conns[c].authKey
  {
  }

  lemma Replies(s: State, c: ConnId, k: nat, key: KeyBytes)
    requires Meets(s, c, k, Published(key)) && s.clients[k].psk == key
    ensures Enabled(s, Reply(c)) && Meets(Apply(s, Reply(c)), c, k, Replied(key))
    ensures Apply(s, Reply(c)).clients == s.clients && Mac(key, s.clients[k].exporter, ServerRole) in Apply(s, Reply(c)).wire
    ensures Apply(s, Reply(c)).conns[c] == s.conns[c].(control := Replied(key))
  {
  }

  /** The client is in, and the connection is published under its key. */
  ghost predicate LetIn(s: State, c: ConnId, k: nat, key: KeyBytes)
  {
    && k in s.clients && s.clients[k].step.Accepted?
    && c in s.conns && s.conns[c].authed && s.conns[c].authKey == Some(KeyId(key))
  }

  lemma ClientAccepts(s: State, c: ConnId, k: nat, key: KeyBytes)
    requires Meets(s, c, k, Replied(key)) && s.clients[k].psk == key && Mac(key, s.clients[k].exporter, ServerRole) in s.wire
    requires s.conns[c].authed && s.conns[c].authKey == Some(KeyId(key))
    ensures var e := ClientRead(k, Mac(key, s.clients[k].exporter, ServerRole)); Enabled(s, e) && LetIn(Apply(s, e), c, k, key)
  {
  }

  /** From the reply on. */
  lemma Finishes(s: State, c: ConnId, k: nat, key: KeyBytes) returns (es: seq<Event>, s': State)
    requires Meets(s, c, k, Published(key)) && s.clients[k].psk == key
    requires s.conns[c].authed && s.conns[c].authKey == Some(KeyId(key))
    ensures Run(s, es, s') && LetIn(s', c, k, key)
  {
    Replies(s, c, k, key);
    var s1 := Apply(s, Reply(c));
    var read := ClientRead(k, Mac(key, s.clients[k].exporter, ServerRole));
    ClientAccepts(s1, c, k, key);
    s' := Apply(s1, read);
    RunNone(s');
    RunCons(s1, read, [], s');
    es := [Reply(c)] + ([read] + []);
    RunCons(s, Reply(c), [read] + [], s');
  }

  /** From the selection on. */
  lemma PublishesAndFinishes(s: State, c: ConnId, k: nat, key: KeyBytes) returns (es: seq<Event>, s': State)
    requires Meets(s, c, k, Selected(key)) && s.clients[k].psk == key
    ensures Run(s, es, s') && LetIn(s', c, k, key)
  {
    StoresKey(s, c, k, key);
    var s1 := Apply(s, StoreKey(c));
    ChecksKey(s1, c, k, key);
    var s2 := Apply(s1, CheckKey(c));
    Publishes(s2, c, k, key);
    var s3 := Apply(s2, Publish(c));
    var rest;
    rest, s' := Finishes(s3, c, k, key);
    RunCons(s2, Publish(c), rest, s');
    RunCons(s1, CheckKey(c), [Publish(c)] + rest, s');
    RunCons(s, StoreKey(c), [CheckKey(c)] + ([Publish(c)] + rest), s');
    es := [StoreKey(c)] + ([CheckKey(c)] + ([Publish(c)] + rest));
  }

  lemma LoadedCompletes(s: State, c: ConnId, k: nat) returns (es: seq<Event>, s': State)
    requires SentOk(s) && Meets(s, c, k, Loaded(s.current))
    ensures Run(s, es, s') && LetIn(s', c, k, s.clients[k].psk)
  {
    var e := ReadProof(c, Mac(s.clients[k].psk, s.clients[k].exporter, ClientRole));
    ReadsProof(s, c, k);
    var rest;
    rest, s' := PublishesAndFinishes(Apply(s, e), c, k, s.clients[k].psk);
    RunCons(s, e, rest, s');
    es := [e] + rest;
  }

  /** In every reachable state where a connection has loaded the current snapshot and a client of its session has
      sent the proof of an acceptable key, primary or previous, the handshake can be completed: a run leads to that
      client accepting and to the connection being published under that key. */
  lemma HandshakeCompletes(s: State, c: ConnId, k: nat) returns (es: seq<Event>, s': State)
    requires Reachable(s) && Meets(s, c, k, Loaded(s.current))
    ensures Run(s, es, s') && LetIn(s', c, k, s.clients[k].psk)
  {
    ReachableSent(s);
    es, s' := LoadedCompletes(s, c, k);
  }

  /** The same from a connection that is only registered. */
  lemma HolderGetsIn(s: State, c: ConnId, k: nat) returns (es: seq<Event>, s': State)
    requires Reachable(s) && Meets(s, c, k, NoControl) && s.conns[c].member.Listed?
    ensures Run(s, es, s') && LetIn(s', c, k, s.clients[k].psk)
  {
    ReachableSent(s);
    var s1 := Apply(s, StartControl(c));
    var s2 := Apply(s1, LoadSnapshot(c));
    var rest;
    rest, s' := LoadedCompletes(s2, c, k);
    RunCons(s1, LoadSnapshot(c), rest, s');
    RunCons(s, StartControl(c), [LoadSnapshot(c)] + rest, s');
    es := [StartControl(c)] + ([LoadSnapshot(c)] + rest);
  }
}

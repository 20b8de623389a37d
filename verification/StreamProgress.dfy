/** What a call of `OpenTCP` gets (internal/client/client.go, internal/server/server.go): capacity is used up to
    its limit, compression is used whenever it is wanted, supported and within capacity, and everything taken can
    be given back. */
module StreamProgress {
  import opened Bytes
  import opened StreamMachine
  import opened StreamLeases

  lemma RunCons(s: State, e: Event, es: seq<Event>, s': State)
    requires Enabled(s, e) && Run(Apply(s, e), es, s')
    ensures Run(s, [e] + es, s')
  {
    assert ([e] + es)[1..] == es;
  }

  lemma RunNone(s: State)
    ensures Run(s, [], s)
  {
  }

  // ---- Capacity ------------------------------------------------------------------------------

  /** Every budget turns a call away exactly when as many leases are out as it has. */
  lemma CapacityExactly(s: State, e: Event)
    requires Reachable(s) && Enabled(s, e)
    ensures e.Open? ==> (Apply(s, e).sessions[e.c].pc.Admitted? <==> |StreamHolders(s.sessions)| < s.cfg.maxActive)
    ensures e.TakeSlot? ==> (Apply(s, e).sessions[e.c].pc.Queued? <==> |SlotHolders(s.sessions)| < s.cfg.maxPending)
    ensures e.Negotiate? ==>
            (Apply(s, e).sessions[e.c].asked <==>
             s.sessions[e.c].want && s.cfg.compression && |CodecHolders(s.sessions)| < s.cfg.maxCodecs)
    ensures e.Serve? ==>
            (Apply(s, e).served[e.c].useComp <==>
             s.cfg.serverCompression && s.sessions[e.c].asked && |ServerHolders(s.served)| < s.cfg.maxServerCodecs)
  {
    ReachableInv(s);
    if e.Negotiate? { assert SessionOk(s.sessions[e.c]); }
  }

  // ---- Compression ---------------------------------------------------------------------------

  /** Compression is asked for, and used, only if it is wanted and supported. */
  predicate SessionWanted(cfg: Config, x: Session)
  {
    (x.asked ==> x.want && cfg.compression) && (HasStream(x) && x.compressed ==> x.asked)
  }

  ghost predicate ServerWanted(s: State, c: nat)
    requires c in s.served
  {
    s.served[c].useComp ==> s.cfg.serverCompression && c in s.sessions && s.sessions[c].asked
  }

  ghost predicate Wanted(s: State)
  {
    && (forall c :: c in s.sessions ==> SessionWanted(s.cfg, s.sessions[c]))
    && (forall c :: c in s.served ==> ServerWanted(s, c))
  }

  lemma CfgStays(s: State, e: Event)
    requires Enabled(s, e)
    ensures Apply(s, e).cfg == s.cfg
  {
  }

  lemma OpeningWanted(s: State, e: Event)
    requires Enabled(s, e) && (e.Open? || e.TakeSlot? || e.Connect? || e.Negotiate?)
    requires e.c in s.sessions ==> SessionWanted(s.cfg, s.sessions[e.c])
    ensures SessionWanted(s.cfg, Apply(s, e).sessions[e.c])
  {
  }

  lemma CheckedWanted(cfg: Config, x: Session, flags: byte)
    requires SessionWanted(cfg, x)
    ensures SessionWanted(cfg, Checked(x, flags))
  {
  }

  lemma ReplyWanted(s: State, e: Event)
    requires Enabled(s, e) && (e.Serve? || e.ServerEnds? || e.ReadReply? || e.Return? || e.Fail?)
    requires e.c in s.sessions ==> SessionWanted(s.cfg, s.sessions[e.c])
    ensures e.c in Apply(s, e).sessions ==> SessionWanted(s.cfg, Apply(s, e).sessions[e.c])
  {
  }

  predicate Releases(e: Event)
  {
    || e.FreeSlot? || e.ReleaseStream? || e.ReleaseCodec? || e.CloseStream? || e.TunnelLost? || e.OnceCodec? || e.OnceStream?
  }

  lemma ReleaseWanted(s: State, e: Event)
    requires Enabled(s, e) && Releases(e) && SessionWanted(s.cfg, s.sessions[e.c])
    ensures SessionWanted(s.cfg, Apply(s, e).sessions[e.c])
  {
  }

  lemma OwnWanted(s: State, e: Event)
    requires Enabled(s, e) && (e.c in s.sessions ==> SessionWanted(s.cfg, s.sessions[e.c]))
    ensures e.c in Apply(s, e).sessions ==> SessionWanted(s.cfg, Apply(s, e).sessions[e.c])
  {
    if e.CheckFlags? {
      CheckedIs(s, e.c, s.sessions[e.c], s.sessions[e.c].pc.flags);
      CheckedWanted(s.cfg, s.sessions[e.c], s.sessions[e.c].pc.flags);
    } else if e.Open? || e.TakeSlot? || e.Connect? || e.Negotiate? {
      OpeningWanted(s, e);
    } else if Releases(e) {
      ReleaseWanted(s, e);
    } else {
      ReplyWanted(s, e);
    }
  }

  lemma AskedStays(s: State, e: Event)
    requires Enabled(s, e) && e.c in s.sessions
    ensures e.c in Apply(s, e).sessions && (s.sessions[e.c].asked ==> Apply(s, e).sessions[e.c].asked)
  {
  }

  lemma WantedSessions(s: State, e: Event, c: nat)
    requires Wanted(s) && Enabled(s, e) && c in Apply(s, e).sessions
    ensures SessionWanted(s.cfg, Apply(s, e).sessions[c])
  {
    if e.c in s.sessions { assert SessionWanted(s.cfg, s.sessions[e.c]); }
    OwnWanted(s, e);
    if c != e.c {
      OnlyOwn(s, e, c);
      assert SessionWanted(s.cfg, s.sessions[c]);
    }
  }

  lemma OnlyOwn(s: State, e: Event, c: nat)
    requires Enabled(s, e) && c != e.c && c in Apply(s, e).sessions
    ensures c in s.sessions && Apply(s, e).sessions[c] == s.sessions[c]
  {
  }

  lemma ServedOwn(s: State, e: Event, c: nat)
    requires Enabled(s, e) && c in Apply(s, e).served
    ensures c in s.served ==> Apply(s, e).served[c].useComp == s.served[c].useComp
    ensures c !in s.served ==>
            e == Serve(c) && Apply(s, e).sessions == s.sessions
            && (Apply(s, e).served[c].useComp ==> s.cfg.serverCompression && s.sessions[c].asked)
  {
  }

  lemma WantedServed(s: State, e: Event, c: nat)
    requires Wanted(s) && Enabled(s, e) && Apply(s, e).cfg == s.cfg && c in Apply(s, e).served
    ensures ServerWanted(Apply(s, e), c)
  {
    ServedOwn(s, e, c);
    if c in s.served && s.served[c].useComp {
      assert ServerWanted(s, c);
      if c == e.c { AskedStays(s, e); } else { OthersStay(s, e, c); }
    }
  }

  lemma WantedStep(s: State, e: Event)
    requires Wanted(s) && Enabled(s, e)
    ensures Wanted(Apply(s, e))
  {
    CfgStays(s, e);
    var s' := Apply(s, e);
    forall c | c in s'.sessions ensures SessionWanted(s'.cfg, s'.sessions[c]) { WantedSessions(s, e, c); }
    forall c | c in s'.served ensures ServerWanted(s', c) { WantedServed(s, e, c); }
  }

  lemma {:induction false} WantedRun(s: State, es: seq<Event>, s': State)
    requires Wanted(s) && Run(s, es, s')
    ensures Wanted(s')
    decreases |es|
  {
    if |es| > 0 {
      WantedStep(s, es[0]);
      WantedRun(Apply(s, es[0]), es[1..], s');
    }
  }

  lemma ReachableWanted(s: State)
    requires Reachable(s)
    ensures Inv(s) && Wanted(s)
  {
    var cfg, es :| ValidConfig(cfg) && Run(Initial(cfg), es, s);
    WantedRun(Initial(cfg), es, s);
    ReachableInv(s);
  }

  /** Whatever the server sends, a stream is compressed only if its caller wanted that and the client supports it;
      with a server that sends what it decided, only if the server supports it too. */
  lemma CompressedIsWanted(s: State, c: nat)
    requires Reachable(s) && c in s.sessions && HasStream(s.sessions[c]) && s.sessions[c].compressed
    ensures s.sessions[c].want && s.cfg.compression && (s.cfg.honest ==> s.cfg.serverCompression)
  {
    ReachableWanted(s);
    assert Agreed(s, c) && SessionWanted(s.cfg, s.sessions[c]);
    if s.cfg.honest { assert ServerWanted(s, c); }
  }

  /** A server that sends what it decided is never refused: its reply always leads to a stream in its mode. */
  lemma HonestReplyAccepted(s: State, c: nat)
    requires Reachable(s) && s.cfg.honest && Enabled(s, CheckFlags(c))
    ensures var x := Apply(s, CheckFlags(c)).sessions[c]; HasStream(x) && c in s.served && x.compressed == s.served[c].useComp
  {
    ReachableWanted(s);
    assert Agreed(s, c) && ServerWanted(s, c);
    CheckedIs(s, c, s.sessions[c], s.sessions[c].pc.flags);
  }

  /** Whatever the server sends, a stream is handed out exactly on a reply without flags, or on one with the
      compression flag alone to a request that asked for it, and then in that mode. */
  lemma FlagsExactly(s: State, c: nat)
    requires Enabled(s, CheckFlags(c))
    ensures var flags, x, y := s.sessions[c].pc.flags, s.sessions[c], Apply(s, CheckFlags(c)).sessions[c];
            && (HasStream(y) <==> flags == 0 || (flags == FLAG_COMPRESS && x.asked))
            && (HasStream(y) ==> (y.compressed <==> flags == FLAG_COMPRESS))
            && (!HasStream(y) ==> y.pc.Failing?)
  {
    CheckedIs(s, c, s.sessions[c], s.sessions[c].pc.flags);
    ByteFlags(s.sessions[c].pc.flags);
  }

  lemma ByteFlags(flags: byte)
    ensures flags / 2 == 0 <==> flags == 0 || flags == 1
  {
  }

  /** The session is at `pc`, and nothing stands in the way of compression. */
  ghost predicate CanCompress(s: State, c: nat, pc: Pc)
  {
    c in s.sessions && s.sessions[c].pc == pc && s.cfg.serverCompression && s.serverCodecs < s.cfg.maxServerCodecs
  }

  lemma Asks(s: State, c: nat)
    requires CanCompress(s, c, Opened) && c !in s.served
    requires s.sessions[c].want && s.cfg.compression && s.codecs < s.cfg.maxCodecs
    ensures var s' := Apply(s, Negotiate(c));
            Enabled(s, Negotiate(c)) && CanCompress(s', c, Requesting) && c !in s'.served && s'.sessions[c].asked && s'.sessions[c].sent
  {
  }

  lemma IsServed(s: State, c: nat)
    requires CanCompress(s, c, Requesting) && c !in s.served && s.sessions[c].asked && s.sessions[c].sent
    ensures var s' := Apply(s, Serve(c));
            && Enabled(s, Serve(c)) && s'.sessions == s.sessions && c in s'.served && s'.served[c].useComp
            && Enabled(s', ReadReply(c, FLAG_COMPRESS))
  {
  }

  lemma ReadsReply(s: State, c: nat)
    requires Enabled(s, ReadReply(c, FLAG_COMPRESS)) && s.sessions[c].asked
    ensures var s' := Apply(s, ReadReply(c, FLAG_COMPRESS));
            && Enabled(s', CheckFlags(c))
            && var s'' := Apply(s', CheckFlags(c));
            && Enabled(s'', Return(c)) && s''.sessions[c].compressed && s''.sessions[c].pc.Returning?
  {
    CheckedIs(Apply(s, ReadReply(c, FLAG_COMPRESS)), c, s.sessions[c].(pc := Answered(FLAG_COMPRESS)), FLAG_COMPRESS);
  }

  lemma Returns(s: State, c: nat)
    requires Enabled(s, Return(c))
    ensures Apply(s, Return(c)).sessions[c].pc.Returned? && Apply(s, Return(c)).sessions[c].compressed == s.sessions[c].compressed
  {
  }

  lemma ReplyRun(s: State, c: nat) returns (es: seq<Event>, s': State)
    requires Enabled(s, ReadReply(c, FLAG_COMPRESS)) && s.sessions[c].asked
    ensures Run(s, es, s') && c in s'.sessions && s'.sessions[c].pc.Returned? && s'.sessions[c].compressed
  {
    ReadsReply(s, c);
    var s1 := Apply(s, ReadReply(c, FLAG_COMPRESS));
    var s2 := Apply(s1, CheckFlags(c));
    Returns(s2, c);
    s' := Apply(s2, Return(c));
    RunNone(s');
    RunCons(s2, Return(c), [], s');
    RunCons(s1, CheckFlags(c), [Return(c)] + [], s');
    RunCons(s, ReadReply(c, FLAG_COMPRESS), [CheckFlags(c)] + ([Return(c)] + []), s');
    es := [ReadReply(c, FLAG_COMPRESS)] + ([CheckFlags(c)] + ([Return(c)] + []));
  }

  /** When it is wanted, supported on both sides and within both capacities, compression can be had. */
  lemma CompressionCanBeHad(s: State, c: nat) returns (es: seq<Event>, s': State)
    requires Reachable(s) && CanCompress(s, c, Opened)
    requires s.sessions[c].want && s.cfg.compression && s.codecs < s.cfg.maxCodecs
    ensures Run(s, es, s') && c in s'.sessions && s'.sessions[c].pc.Returned? && s'.sessions[c].compressed
  {
    ReachableInv(s);
    assert SessionOk(s.sessions[c]);
    Asks(s, c);
    var s1 := Apply(s, Negotiate(c));
    IsServed(s1, c);
    var s2 := Apply(s1, Serve(c));
    var rest;
    rest, s' := ReplyRun(s2, c);
    RunCons(s1, Serve(c), rest, s');
    RunCons(s, Negotiate(c), [Serve(c)] + rest, s');
    es := [Negotiate(c)] + ([Serve(c)] + rest);
  }

  // ---- Everything can be given back ----------------------------------------------------------

  /** Steps a session needs at most to give everything back. */
  function ToSettle(x: Session): nat
  {
    match x.pc
    case Admitted => 7
    case Queued => 6
    case Opened => 6
    case Requesting => 6
    case Answered(_) => 6
    case Failing => if x.slot then 4 else 3
    case Releasing => 2
    case Ended => 0
    case Returning => 5
    case Returned => (match x.once case Ready => 3 case CodecNext => 2 case StreamNext => 1 case Done => 0)
  }

  /** The step that brings it nearer: its caller's, of the deferred functions, or of the release. */
  function Settling(c: nat, x: Session): Event
  {
    match x.pc
    case Admitted => TakeSlot(c)
    case Queued => Fail(c)
    case Opened => Fail(c)
    case Requesting => Fail(c)
    case Answered(_) => Fail(c)
    case Failing => if x.slot then FreeSlot(c) else ReleaseStream(c)
    case Releasing => ReleaseCodec(c)
    case Ended => ReleaseCodec(c)
    case Returning => Return(c)
    case Returned => (match x.once case Ready => CloseStream(c) case CodecNext => OnceCodec(c) case _ => OnceStream(c))
  }

  lemma SettlesStep(s: State, c: nat)
    requires c in s.sessions && SessionOk(s.sessions[c]) && !Settled(s.sessions[c])
    ensures var e := Settling(c, s.sessions[c]);
            Enabled(s, e) && c in Apply(s, e).sessions && ToSettle(Apply(s, e).sessions[c]) < ToSettle(s.sessions[c])
  {
  }

  lemma {:induction false} SettlesRun(s: State, c: nat) returns (es: seq<Event>, s': State)
    requires Inv(s) && c in s.sessions
    ensures Run(s, es, s') && c in s'.sessions && Settled(s'.sessions[c])
    decreases ToSettle(s.sessions[c])
  {
    if Settled(s.sessions[c]) {
      RunNone(s);
      es, s' := [], s;
    } else {
      var e := Settling(c, s.sessions[c]);
      SettlesStep(s, c);
      InvStep(s, e);
      var rest;
      rest, s' := SettlesRun(Apply(s, e), c);
      RunCons(s, e, rest, s');
      es := [e] + rest;
    }
  }

  /** From every reachable state every call can be brought to an end in which it holds nothing: a call in progress
      by failing, a stream by closing it. */
  lemma CanGiveBack(s: State, c: nat) returns (es: seq<Event>, s': State)
    requires Reachable(s) && c in s.sessions
    ensures Run(s, es, s') && c in s'.sessions && Settled(s'.sessions[c])
    ensures !s'.sessions[c].stream.Held? && !s'.sessions[c].codec.Held? && !s'.sessions[c].slot
  {
    ReachableInv(s);
    es, s' := SettlesRun(s, c);
    InvRun(s, es, s');
    assert SessionOk(s'.sessions[c]);
  }
}

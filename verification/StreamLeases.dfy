/** Lease conservation and mode agreement for internal/client/client.go, over every interleaving. */
module StreamLeases {
  import opened Bytes
  import opened StreamMachine

  function StreamHolders(sessions: map<nat, Session>): set<nat>
  {
    set c | c in sessions && sessions[c].stream.Held?
  }

  function CodecHolders(sessions: map<nat, Session>): set<nat>
  {
    set c | c in sessions && sessions[c].codec.Held?
  }

  function SlotHolders(sessions: map<nat, Session>): set<nat>
  {
    set c | c in sessions && sessions[c].slot
  }

  function ServerHolders(served: map<nat, Served>): set<nat>
  {
    set c | c in served && served[c].holds
  }

  /** Every token in a budget is a lease somebody still holds, within the limit. */
  ghost predicate Conserved(s: State)
  {
    && s.active == |StreamHolders(s.sessions)| <= s.cfg.maxActive
    && s.codecs == |CodecHolders(s.sessions)| <= s.cfg.maxCodecs
    && s.pending == |SlotHolders(s.sessions)| <= s.cfg.maxPending
    && s.serverCodecs == |ServerHolders(s.served)| <= s.cfg.maxServerCodecs
  }

  /** Who owns what at each point of a session. */
  ghost predicate SessionOk(x: Session)
  {
    && (!HasStream(x) ==> x.once.Ready?)
    && (x.asked ==> !x.codec.Never?)
    && (x.pc.Admitted? || x.pc.Queued? || x.pc.Opened? ==> !x.sent)
    && match x.pc
       case Admitted => x.stream.Held? && x.codec.Never? && !x.slot && !x.asked
       case Queued => x.stream.Held? && x.codec.Never? && x.slot && !x.asked
       case Opened => x.stream.Held? && x.codec.Never? && x.slot && !x.asked
       case Requesting => x.stream.Held? && x.slot && (x.codec.Held? <==> x.asked) && !x.codec.Released?
       case Answered(_) => x.stream.Held? && x.slot && (x.codec.Held? <==> x.asked) && !x.codec.Released?
       case Returning => x.slot && StreamOk(x)
       case Returned => !x.slot && StreamOk(x)
       case Failing => x.stream.Held? && !x.codec.Released?
       case Releasing => !x.stream.Held? && !x.slot && !x.codec.Released?
       case Ended => !x.stream.Held? && !x.codec.Held? && !x.slot
  }

  /** A stream holds its lease until its release is through, and a codec lease exactly if compressed. */
  ghost predicate StreamOk(x: Session)
  {
    match x.once
    case Ready => x.stream.Held? && (x.codec.Held? <==> x.compressed)
    case CodecNext => x.stream.Held? && (x.codec.Held? <==> x.compressed)
    case StreamNext => x.stream.Held? && !x.codec.Held?
    case Done => !x.stream.Held? && !x.codec.Held?
  }

  /** The two ends agree from the reply on. */
  ghost predicate Agreed(s: State, c: nat)
    requires c in s.sessions
  {
    var x := s.sessions[c];
    && (x.pc.Answered? ==> c in s.served && (s.cfg.honest ==> x.pc.flags == if s.served[c].useComp then FLAG_COMPRESS else 0))
    && (HasStream(x) ==> c in s.served && (s.cfg.honest ==> x.compressed == s.served[c].useComp))
  }

  ghost predicate Inv(s: State)
  {
    && ValidConfig(s.cfg) && Conserved(s)
    && (forall c :: c in s.sessions ==> SessionOk(s.sessions[c]) && Agreed(s, c))
    && (forall c :: c in s.served ==> c in s.sessions && s.sessions[c].sent)
    && (forall c :: c in s.served && s.served[c].holds ==> s.served[c].useComp)
  }

  lemma InitialInv(cfg: Config)
    requires ValidConfig(cfg)
    ensures Inv(Initial(cfg))
  {
  }

  // ---- Counting ------------------------------------------------------------------------------

  function Delta(before: bool, after: bool): int
  {
    (if after then 1 else 0) - (if before then 1 else 0)
  }

  lemma CountStreams(m: map<nat, Session>, c: nat, x: Session)
    ensures |StreamHolders(m[c := x])| == |StreamHolders(m)| + Delta(c in m && m[c].stream.Held?, x.stream.Held?)
  {
    var h, h' := StreamHolders(m), StreamHolders(m[c := x]);
    assert h' == if x.stream.Held? then h + {c} else h - {c};
  }

  lemma CountCodecs(m: map<nat, Session>, c: nat, x: Session)
    ensures |CodecHolders(m[c := x])| == |CodecHolders(m)| + Delta(c in m && m[c].codec.Held?, x.codec.Held?)
  {
    var h, h' := CodecHolders(m), CodecHolders(m[c := x]);
    assert h' == if x.codec.Held? then h + {c} else h - {c};
  }

  lemma CountSlots(m: map<nat, Session>, c: nat, x: Session)
    ensures |SlotHolders(m[c := x])| == |SlotHolders(m)| + Delta(c in m && m[c].slot, x.slot)
  {
    var h, h' := SlotHolders(m), SlotHolders(m[c := x]);
    assert h' == if x.slot then h + {c} else h - {c};
  }

  lemma CountServed(m: map<nat, Served>, c: nat, v: Served)
    ensures |ServerHolders(m[c := v])| == |ServerHolders(m)| + Delta(c in m && m[c].holds, v.holds)
  {
    var h, h' := ServerHolders(m), ServerHolders(m[c := v]);
    assert h' == if v.holds then h + {c} else h - {c};
  }

  /** One session moves on and its budgets with it. */
  lemma PutKeeps(s: State, s': State, c: nat, x: Session)
    requires Inv(s) && s'.sessions == s.sessions[c := x] && s'.cfg == s.cfg && s'.served == s.served && s'.serverCodecs == s.serverCodecs
    requires s'.active == s.active + Delta(c in s.sessions && s.sessions[c].stream.Held?, x.stream.Held?) <= s.cfg.maxActive
    requires s'.codecs == s.codecs + Delta(c in s.sessions && s.sessions[c].codec.Held?, x.codec.Held?) <= s.cfg.maxCodecs
    requires s'.pending == s.pending + Delta(c in s.sessions && s.sessions[c].slot, x.slot) <= s.cfg.maxPending
    requires SessionOk(x) && Agreed(s', c) && (c in s.sessions && s.sessions[c].sent ==> x.sent)
    ensures Inv(s')
  {
    CountStreams(s.sessions, c, x);
    CountCodecs(s.sessions, c, x);
    CountSlots(s.sessions, c, x);
    forall d | d in s'.sessions ensures SessionOk(s'.sessions[d]) && Agreed(s', d) {
      if d != c { assert SessionOk(s.sessions[d]) && Agreed(s, d); }
    }
  }

  // ---- Every event ---------------------------------------------------------------------------

  predicate OfClient(e: Event)
  {
    !e.Serve? && !e.ServerEnds?
  }

  lemma OpeningKeeps(s: State, e: Event)
    requires Inv(s) && Enabled(s, e) && (e.Open? || e.TakeSlot? || e.Connect?)
    ensures Inv(Apply(s, e))
  {
    if e.c in s.sessions { assert SessionOk(s.sessions[e.c]) && Agreed(s, e.c); }
    PutKeeps(s, Apply(s, e), e.c, Apply(s, e).sessions[e.c]);
  }

  lemma NegotiateKeeps(s: State, c: nat)
    requires Inv(s) && Enabled(s, Negotiate(c))
    ensures Inv(DoNegotiate(s, c, s.sessions[c]))
  {
    var s' := DoNegotiate(s, c, s.sessions[c]);
    assert SessionOk(s.sessions[c]) && Agreed(s, c);
    PutKeeps(s, s', c, s'.sessions[c]);
  }

  lemma ReplyKeeps(s: State, c: nat, flags: byte)
    requires Inv(s) && Enabled(s, ReadReply(c, flags))
    ensures Inv(Put(s, c, s.sessions[c].(pc := Answered(flags))))
  {
    var s' := Put(s, c, s.sessions[c].(pc := Answered(flags)));
    assert SessionOk(s.sessions[c]) && Agreed(s, c);
    PutKeeps(s, s', c, s'.sessions[c]);
  }

  /** The session after the checks, whatever the flags. */
  function Checked(x: Session, flags: byte): Session
  {
    if flags / 2 != 0 || (flags % 2 == 1 && !x.asked) then x.(pc := Failing)
    else if flags % 2 == 0 then
      x.(pc := Returning, compressed := false, codec := if x.codec.Held? then Released else x.codec)
    else x.(pc := Returning, compressed := true)
  }

  lemma CheckedIs(s: State, c: nat, x: Session, flags: byte)
    ensures DoCheckFlags(s, c, x, flags).sessions == s.sessions[c := Checked(x, flags)]
  {
  }

  lemma CheckedOk(x: Session, flags: byte)
    requires SessionOk(x) && x.pc == Answered(flags)
    ensures var y := Checked(x, flags);
            SessionOk(y) && y.slot && y.stream.Held? && (y.compressed && HasStream(y) ==> x.asked && y.codec.Held?)
            && (HasStream(y) ==> y.compressed == (flags == FLAG_COMPRESS))
  {
  }

  lemma CheckKeeps(s: State, c: nat)
    requires Inv(s) && Enabled(s, CheckFlags(c))
    ensures Inv(DoCheckFlags(s, c, s.sessions[c], s.sessions[c].pc.flags))
  {
    var x := s.sessions[c];
    var s' := DoCheckFlags(s, c, x, x.pc.flags);
    assert SessionOk(x) && Agreed(s, c);
    CheckedIs(s, c, x, x.pc.flags);
    CheckedOk(x, x.pc.flags);
    PutKeeps(s, s', c, s'.sessions[c]);
  }

  lemma ExitKeeps(s: State, e: Event)
    requires Inv(s) && Enabled(s, e) && (e.Return? || e.Fail? || e.FreeSlot? || e.ReleaseStream? || e.ReleaseCodec?)
    ensures Inv(Apply(s, e))
  {
    assert SessionOk(s.sessions[e.c]) && Agreed(s, e.c);
    PutKeeps(s, Apply(s, e), e.c, Apply(s, e).sessions[e.c]);
  }

  lemma ReleaseKeeps(s: State, e: Event)
    requires Inv(s) && Enabled(s, e) && (e.CloseStream? || e.TunnelLost? || e.OnceCodec? || e.OnceStream?)
    ensures Inv(Apply(s, e))
  {
    assert SessionOk(s.sessions[e.c]) && Agreed(s, e.c);
    PutKeeps(s, Apply(s, e), e.c, Apply(s, e).sessions[e.c]);
  }

  lemma ServerKeeps(s: State, e: Event)
    requires Inv(s) && Enabled(s, e) && !OfClient(e)
    ensures Inv(Apply(s, e))
  {
    var s' := Apply(s, e);
    if e.c in s'.served { CountServed(s.served, e.c, s'.served[e.c]); }
    forall d | d in s'.sessions ensures SessionOk(s'.sessions[d]) && Agreed(s', d) {
      assert SessionOk(s.sessions[d]) && Agreed(s, d);
    }
  }

  lemma InvStep(s: State, e: Event)
    requires Inv(s) && Enabled(s, e)
    ensures Inv(Apply(s, e))
  {
    if !OfClient(e) {
      ServerKeeps(s, e);
    } else if e.Open? || e.TakeSlot? || e.Connect? {
      OpeningKeeps(s, e);
    } else if e.Negotiate? {
      NegotiateKeeps(s, e.c);
    } else if e.ReadReply? {
      ReplyKeeps(s, e.c, e.flags);
    } else if e.CheckFlags? {
      CheckKeeps(s, e.c);
    } else if e.CloseStream? || e.TunnelLost? || e.OnceCodec? || e.OnceStream? {
      ReleaseKeeps(s, e);
    } else {
      ExitKeeps(s, e);
    }
  }

  lemma {:induction false} InvRun(s: State, es: seq<Event>, s': State)
    requires Inv(s) && Run(s, es, s')
    ensures Inv(s')
    decreases |es|
  {
    if es != [] {
      InvStep(s, es[0]);
      InvRun(Apply(s, es[0]), es[1..], s');
    }
  }

  lemma ReachableInv(s: State)
    requires Reachable(s)
    ensures Inv(s)
  {
    var cfg, es :| ValidConfig(cfg) && Run(Initial(cfg), es, s);
    InitialInv(cfg);
    InvRun(Initial(cfg), es, s);
  }

  // ---- What a maintainer gets ----------------------------------------------------------------

  /** Lease conservation: in every reachable state each budget is in use exactly by the sessions that
      hold a lease of it, and never beyond its limit. */
  lemma LeasesConserved(s: State)
    requires Reachable(s)
    ensures Conserved(s)
  {
    ReachableInv(s);
  }

  /** The lease a step gives back. */
  predicate GivesStream(s: State, e: Event)
  {
    (e.ReleaseStream? || e.OnceStream?) && e.c in s.sessions && s.sessions[e.c].stream.Held?
  }

  predicate GivesCodec(s: State, e: Event)
  {
    (e.CheckFlags? || e.ReleaseCodec? || e.OnceCodec?) && e.c in s.sessions && s.sessions[e.c].codec.Held?
  }

  /** Release never blocks: whenever a step gives a lease back, its budget has a token to take. */
  lemma ReleaseNeverBlocks(s: State, e: Event)
    requires Reachable(s) && Enabled(s, e)
    ensures GivesStream(s, e) ==> s.active >= 1
    ensures GivesCodec(s, e) ==> s.codecs >= 1
    ensures (e.FreeSlot? || e.Return?) ==> s.pending >= 1
    ensures e.ServerEnds? && s.served[e.c].holds ==> s.serverCodecs >= 1
  {
    ReachableInv(s);
    if e.c in s.served && s.served[e.c].holds { assert e.c in ServerHolders(s.served); }
    if e.c in s.sessions {
      assert SessionOk(s.sessions[e.c]);
      if s.sessions[e.c].stream.Held? { assert e.c in StreamHolders(s.sessions); }
      if s.sessions[e.c].codec.Held? { assert e.c in CodecHolders(s.sessions); }
      if s.sessions[e.c].slot { assert e.c in SlotHolders(s.sessions); }
    }
  }

  lemma OthersStay(s: State, e: Event, c: nat)
    requires Enabled(s, e) && c in s.sessions && c != e.c
    ensures c in Apply(s, e).sessions && Apply(s, e).sessions[c] == s.sessions[c]
  {
  }

  predicate StillReleased(before: Session, after: Session)
  {
    (before.stream.Released? ==> after.stream.Released?) && (before.codec.Released? ==> after.codec.Released?)
  }

  lemma OwnStaysReleased(s: State, e: Event)
    requires e.c in s.sessions && SessionOk(s.sessions[e.c]) && Enabled(s, e)
    ensures e.c in Apply(s, e).sessions && StillReleased(s.sessions[e.c], Apply(s, e).sessions[e.c])
  {
  }

  lemma {:induction false} StaysReleased(s: State, es: seq<Event>, s': State, c: nat)
    requires Inv(s) && Run(s, es, s') && c in s.sessions
    ensures c in s'.sessions && StillReleased(s.sessions[c], s'.sessions[c])
    decreases |es|
  {
    if es != [] {
      if c == es[0].c {
        OwnStaysReleased(s, es[0]);
      } else {
        OthersStay(s, es[0], c);
      }
      InvStep(s, es[0]);
      StaysReleased(Apply(s, es[0]), es[1..], s', c);
    }
  }

  /** A lease that was given back is never taken or given back again, in any continuation: however often the
      stream is closed and whether or not its tunnel is lost too. */
  lemma ReleasedOnce(s: State, es: seq<Event>, s': State, c: nat)
    requires Reachable(s) && Run(s, es, s') && c in s.sessions
    ensures c in s'.sessions && StillReleased(s.sessions[c], s'.sessions[c])
  {
    ReachableInv(s);
    StaysReleased(s, es, s', c);
  }

  /** A call that is over and a stream whose release is through hold nothing. */
  predicate Settled(x: Session)
  {
    x.pc.Ended? || (x.pc.Returned? && x.once.Done?)
  }

  lemma SettledHoldNothing(sessions: map<nat, Session>)
    requires forall c :: c in sessions ==> SessionOk(sessions[c]) && Settled(sessions[c])
    ensures StreamHolders(sessions) == {} && CodecHolders(sessions) == {} && SlotHolders(sessions) == {}
  {
  }

  /** When every call has ended or had its stream released, all client budgets are empty again. */
  lemma AllReturned(s: State)
    requires Reachable(s) && forall c :: c in s.sessions ==> Settled(s.sessions[c])
    ensures s.active == 0 && s.codecs == 0 && s.pending == 0
  {
    ReachableInv(s);
    SettledHoldNothing(s.sessions);
  }

  /** A codec lease outlives `OpenTCP` iff the stream is compressed. */
  lemma CodecOutlivesIffCompressed(s: State, c: nat)
    requires Reachable(s) && c in s.sessions && s.sessions[c].pc.Returned? && s.sessions[c].once.Ready?
    ensures s.sessions[c].stream.Held?
    ensures s.sessions[c].codec.Held? <==> s.sessions[c].compressed
  {
    ReachableInv(s);
    assert SessionOk(s.sessions[c]);
  }

  /** Mode agreement: with a server that sends what it decided, both ends of every stream handed out
      use the same mode, whichever leases were available on either side. */
  lemma ModesAgree(s: State, c: nat)
    requires Reachable(s) && s.cfg.honest && c in s.sessions && HasStream(s.sessions[c])
    ensures c in s.served && s.sessions[c].compressed == s.served[c].useComp
  {
    ReachableInv(s);
    assert Agreed(s, c);
  }

  /** With any server, a stream is compressed only if the client asked with a codec lease in hand. */
  lemma NeverUnrequested(s: State, e: Event)
    requires Reachable(s) && Enabled(s, e) && e.CheckFlags? && HasStream(Apply(s, e).sessions[e.c])
    ensures Apply(s, e).sessions[e.c].compressed ==> s.sessions[e.c].asked && Apply(s, e).sessions[e.c].codec.Held?
  {
    ReachableInv(s);
    assert SessionOk(s.sessions[e.c]);
    CheckedIs(s, e.c, s.sessions[e.c], s.sessions[e.c].pc.flags);
    CheckedOk(s.sessions[e.c], s.sessions[e.c].pc.flags);
  }
}

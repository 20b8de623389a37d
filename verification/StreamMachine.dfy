/** `OpenTCP` and the life of the streams it returns (internal/client/client.go), with the server side
    of the compression negotiation (internal/server/server.go), as a state machine. A call may fail
    at any point; a stream may be closed repeatedly and lose its tunnel at the same time. */
module StreamMachine {
  import opened Bytes

  const FLAG_COMPRESS: byte := 1

  /** A lease a call may come to own. */
  datatype LeaseState = Never | Held | Released

  /** The `sync.Once` around a stream's release, which first releases the codec, then the stream. */
  datatype Once = Ready | CodecNext | StreamNext | Done

  datatype Pc =
    | Admitted                    // holds a stream lease
    | Queued                      // holds a pending slot too
    | Opened                      // the tunnel stream is open
    | Requesting                  // the request, with its flags, is on its way
    | Answered(flags: byte)       // a reply with status OK was read
    | Returning                   // handed off; the deferred functions run
    | Returned                    // the caller has the stream
    | Failing                     // an error is being returned; the deferred functions run
    | Releasing                   // the stream lease is back, the codec lease is next
    | Ended                       // the call failed

  /** One call of `OpenTCP` and the stream it may return: what it wants, whether its request is on its way and
      asks for compression, what it holds, and the mode and release of its stream. */
  datatype Session = Session(pc: Pc, want: bool, sent: bool, asked: bool, stream: LeaseState, codec: LeaseState,
                             slot: bool, compressed: bool, once: Once)

  /** What the server decided for a session: its mode, and whether its codec lease is still out. */
  datatype Served = Served(useComp: bool, holds: bool)

  datatype Config = Config(maxActive: int, maxCodecs: int, maxPending: int, compression: bool, serverCompression: bool, maxServerCodecs: int, honest: bool)

  datatype State = State(cfg: Config, sessions: map<nat, Session>, served: map<nat, Served>, active: int, codecs: int, pending: int, serverCodecs: int)

  datatype Event =
    | Open(c: nat, want: bool)
    | TakeSlot(c: nat)
    | Connect(c: nat)
    | Negotiate(c: nat)
    | Serve(c: nat)
    | ServerEnds(c: nat)
    | ReadReply(c: nat, flags: byte)
    | CheckFlags(c: nat)
    | Return(c: nat)
    | Fail(c: nat)
    | FreeSlot(c: nat)
    | ReleaseStream(c: nat)
    | ReleaseCodec(c: nat)
    | CloseStream(c: nat)
    | TunnelLost(c: nat)
    | OnceCodec(c: nat)
    | OnceStream(c: nat)

  function Initial(cfg: Config): State
  {
    State(cfg, map[], map[], 0, 0, 0, 0)
  }

  function Put(s: State, c: nat, x: Session): State
  {
    s.(sessions := s.sessions[c := x])
  }

  /** `lease.Release()` on the stream lease of a session that then becomes `x`. */
  function GiveStream(s: State, c: nat, x: Session): State
  {
    if x.stream.Held? then Put(s, c, x.(stream := Released)).(active := s.active - 1) else Put(s, c, x)
  }

  /** `codec.Release()`, also when there is no codec lease. */
  function GiveCodec(s: State, c: nat, x: Session): State
  {
    if x.codec.Held? then Put(s, c, x.(codec := Released)).(codecs := s.codecs - 1) else Put(s, c, x)
  }

  function DoOpen(s: State, c: nat, want: bool): State
  {
    var x := Session(Ended, want, false, false, Never, Never, false, false, Ready);
    if s.active < s.cfg.maxActive then Put(s, c, x.(pc := Admitted, stream := Held)).(active := s.active + 1) else Put(s, c, x)
  }

  function DoTakeSlot(s: State, c: nat, x: Session): State
  {
    if s.pending < s.cfg.maxPending then Put(s, c, x.(pc := Queued, slot := true)).(pending := s.pending + 1)
    else Put(s, c, x.(pc := Failing))
  }

  /** The request's flags: compression is asked for only with a codec lease in hand. */
  function DoNegotiate(s: State, c: nat, x: Session): State
  {
    if x.want && s.cfg.compression && s.codecs < s.cfg.maxCodecs
    then Put(s, c, x.(pc := Requesting, sent := true, asked := true, codec := Held)).(codecs := s.codecs + 1)
    else Put(s, c, x.(pc := Requesting, sent := true))
  }

  /** `handleProxy`: the server's decision, sent in its reply. It may come after the client gave up. */
  function DoServe(s: State, c: nat, x: Session): State
  {
    var useComp := s.cfg.serverCompression && x.asked && s.serverCodecs < s.cfg.maxServerCodecs;
    s.(served := s.served[c := Served(useComp, useComp)], serverCodecs := s.serverCodecs + if useComp then 1 else 0)
  }

  function DoServerEnds(s: State, c: nat, v: Served): State
  {
    if v.holds then s.(served := s.served[c := v.(holds := false)], serverCodecs := s.serverCodecs - 1) else s
  }

  /** The checks on the reply's flags, and the hand-off. */
  function DoCheckFlags(s: State, c: nat, x: Session, flags: byte): State
  {
    if flags / 2 != 0 || (flags % 2 == 1 && !x.asked) then Put(s, c, x.(pc := Failing))
    else if flags % 2 == 0 then GiveCodec(s, c, x.(pc := Returning, compressed := false))
    else Put(s, c, x.(pc := Returning, compressed := true))
  }

  function DoFreeSlot(s: State, c: nat, x: Session, pc: Pc): State
  {
    if x.slot then Put(s, c, x.(pc := pc, slot := false)).(pending := s.pending - 1) else Put(s, c, x.(pc := pc))
  }

  ghost predicate At(s: State, c: nat, pc: Pc)
  {
    c in s.sessions && s.sessions[c].pc == pc
  }

  predicate HasStream(x: Session)
  {
    x.pc.Returning? || x.pc.Returned?
  }

  ghost predicate Enabled(s: State, e: Event)
  {
    match e
    case Open(c, _) => c !in s.sessions
    case TakeSlot(c) => At(s, c, Admitted)
    case Connect(c) => At(s, c, Queued)
    case Negotiate(c) => At(s, c, Opened)
    case Serve(c) => c in s.sessions && s.sessions[c].sent && c !in s.served
    case ServerEnds(c) => c in s.served
    case ReadReply(c, flags) =>
      && At(s, c, Requesting) && c in s.served
      && (s.cfg.honest ==> flags == if s.served[c].useComp then FLAG_COMPRESS else 0)
    case CheckFlags(c) => c in s.sessions && s.sessions[c].pc.Answered?
    case Return(c) => At(s, c, Returning)
    case Fail(c) => c in s.sessions && (s.sessions[c].pc.Queued? || s.sessions[c].pc.Opened? || s.sessions[c].pc.Requesting? || s.sessions[c].pc.Answered?)
    case FreeSlot(c) => At(s, c, Failing) && s.sessions[c].slot
    case ReleaseStream(c) => At(s, c, Failing) && !s.sessions[c].slot
    case ReleaseCodec(c) => At(s, c, Releasing)
    case CloseStream(c) => At(s, c, Returned)
    case TunnelLost(c) => c in s.sessions && HasStream(s.sessions[c])
    case OnceCodec(c) => c in s.sessions && s.sessions[c].once.CodecNext?
    case OnceStream(c) => c in s.sessions && s.sessions[c].once.StreamNext?
  }

  /** Whichever of the two paths comes first starts the release; the other finds it started. */
  function StartRelease(x: Session): Session
  {
    if x.once.Ready? then x.(once := CodecNext) else x
  }

  function Apply(s: State, e: Event): State
    requires Enabled(s, e)
  {
    match e
    case Open(c, want) => DoOpen(s, c, want)
    case TakeSlot(c) => DoTakeSlot(s, c, s.sessions[c])
    case Connect(c) => Put(s, c, s.sessions[c].(pc := Opened))
    case Negotiate(c) => DoNegotiate(s, c, s.sessions[c])
    case Serve(c) => DoServe(s, c, s.sessions[c])
    case ServerEnds(c) => DoServerEnds(s, c, s.served[c])
    case ReadReply(c, flags) => Put(s, c, s.sessions[c].(pc := Answered(flags)))
    case CheckFlags(c) => DoCheckFlags(s, c, s.sessions[c], s.sessions[c].pc.flags)
    case Return(c) => DoFreeSlot(s, c, s.sessions[c], Returned)
    case Fail(c) => Put(s, c, s.sessions[c].(pc := Failing))
    case FreeSlot(c) => DoFreeSlot(s, c, s.sessions[c], Failing)
    case ReleaseStream(c) => GiveStream(s, c, s.sessions[c].(pc := Releasing))
    case ReleaseCodec(c) => GiveCodec(s, c, s.sessions[c].(pc := Ended))
    case CloseStream(c) => Put(s, c, StartRelease(s.sessions[c]))
    case TunnelLost(c) => Put(s, c, StartRelease(s.sessions[c]))
    case OnceCodec(c) => GiveCodec(s, c, s.sessions[c].(once := StreamNext))
    case OnceStream(c) => GiveStream(s, c, s.sessions[c].(once := Done))
  }

  ghost predicate Run(s: State, es: seq<Event>, s': State)
    decreases |es|
  {
    if es == [] then s' == s else Enabled(s, es[0]) && Run(Apply(s, es[0]), es[1..], s')
  }

  ghost predicate Reachable(s: State)
  {
    exists cfg, es :: ValidConfig(cfg) && Run(Initial(cfg), es, s)
  }

  /** The limits `New` fills in are positive. */
  predicate ValidConfig(cfg: Config)
  {
    1 <= cfg.maxActive && 1 <= cfg.maxCodecs && 1 <= cfg.maxPending && 1 <= cfg.maxServerCodecs
  }
}

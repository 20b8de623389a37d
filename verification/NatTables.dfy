/** The state that internal/server/udp.go guards with the NAT mutex, and each critical section. */
module NatTables {
  import opened Bytes
  import Frame

  /** The text `flowKey` makes of a session and a destination. */
  type Key = seq<byte>
  type FlowId = nat

  /** `UDPOptions`. */
  datatype Options = Options(maxFlows: int, queueSize: int, workers: int, newFlowsPerSecond: int, maxPayload: int)

  predicate Sane(o: Options)
  {
    && 1 <= o.maxFlows && 1 <= o.queueSize && 1 <= o.workers <= o.maxFlows
    && 1 <= o.newFlowsPerSecond && 1 <= o.maxPayload <= Frame.MAX_UDP_PAYLOAD
  }

  /** `UDPOptions.defaults`: whatever was configured, the NAT runs with bounds it can work with, and
      bounds that were workable are kept. */
  function Defaults(o: Options): (r: Options)
    ensures Sane(r)
    ensures Sane(o) ==> r == o
  {
    var maxFlows := if o.maxFlows <= 0 then 256 else o.maxFlows;
    var workers := if o.workers <= 0 then 4 else o.workers;
    Options(maxFlows,
            if o.queueSize <= 0 then 128 else o.queueSize,
            if workers > maxFlows then maxFlows else workers,
            if o.newFlowsPerSecond <= 0 then 32 else o.newFlowsPerSecond,
            if o.maxPayload <= 0 || o.maxPayload > Frame.MAX_UDP_PAYLOAD then Frame.MAX_UDP_PAYLOAD else o.maxPayload)
  }

  /** The flow table, the keys with a dial in progress, and the token bucket. */
  datatype Tables = Tables(flows: map<Key, FlowId>, pending: set<Key>, closed: bool, tokens: real, tokenTime: real)

  /** The bucket after refilling it at `now`, capped at the rate. */
  function Refill(rate: int, tokens: real, since: real, now: real): real
  {
    var filled := tokens + (now - since) * (rate as real);
    if filled > rate as real then rate as real else filled
  }

  datatype Admission = Closed | Existing(flow: FlowId) | Busy | AtLimit | Throttled | Admitted

  /** The first critical section of `send`. */
  function Admit(o: Options, t: Tables, key: Key, now: real): (Tables, Admission)
  {
    if t.closed then (t, Closed)
    else if key in t.flows then (t, Existing(t.flows[key]))
    else if key in t.pending then (t, Busy)
    else if |t.flows| + |t.pending| >= o.maxFlows then (t, AtLimit)
    else
      var tokens := Refill(o.newFlowsPerSecond, t.tokens, t.tokenTime, now);
      var refilled := t.(tokens := tokens, tokenTime := now);
      if tokens < 1.0 then (refilled, Throttled)
      else (refilled.(tokens := tokens - 1.0, pending := t.pending + {key}), Admitted)
  }

  /** The second critical section of `send`: `gotSocket` is whether the dial gave a UDP socket, which
      then becomes `flow`. */
  function Install(t: Tables, key: Key, gotSocket: bool, flow: FlowId): Tables
  {
    var cleared := t.(pending := t.pending - {key});
    if gotSocket && !t.closed then cleared.(flows := t.flows[key := flow]) else cleared
  }

  /** The critical section of a pump on its way out. */
  function Retire(t: Tables, key: Key, flow: FlowId): Tables
  {
    if key in t.flows && t.flows[key] == flow then t.(flows := t.flows - {key}) else t
  }

  function Shut(t: Tables): Tables
  {
    t.(closed := true)
  }

  /** What every critical section keeps: a key is never both a flow and pending, the two tables
      together respect the limit, and the bucket holds between none and a second's worth of tokens. */
  ghost predicate TablesValid(o: Options, t: Tables)
  {
    && t.flows.Keys !! t.pending
    && |t.flows| + |t.pending| <= o.maxFlows
    && 0.0 <= t.tokens <= o.newFlowsPerSecond as real
  }

  lemma ProductNonNegative(x: real, y: real)
    requires x >= 0.0 && y >= 0.0
    ensures x * y >= 0.0
  {
  }

  lemma RefillInRange(rate: int, tokens: real, since: real, now: real)
    requires rate >= 1 && 0.0 <= tokens <= rate as real && since <= now
    ensures 0.0 <= Refill(rate, tokens, since, now) <= rate as real
  {
    ProductNonNegative(now - since, rate as real);
  }

  lemma AdmitKeeps(o: Options, t: Tables, key: Key, now: real)
    requires Sane(o) && TablesValid(o, t) && t.tokenTime <= now
    ensures TablesValid(o, Admit(o, t, key, now).0)
  {
    RefillInRange(o.newFlowsPerSecond, t.tokens, t.tokenTime, now);
  }

  /** What the section leaves alone, and what being admitted means. */
  lemma AdmitShape(o: Options, t: Tables, key: Key, now: real)
    requires t.tokenTime <= now
    ensures var (t', a) := Admit(o, t, key, now);
            && t'.flows == t.flows && t'.closed == t.closed && t'.tokenTime <= now
            && (a.Admitted? ==> key !in t.pending && key !in t.flows && !t.closed && t'.pending == t.pending + {key})
            && (!a.Admitted? ==> t'.pending == t.pending)
            && (a.Closed? <==> t.closed)
  {
  }

  /** A dial that was admitted ends without overwriting a flow and without exceeding the limit. */
  lemma InstallKeeps(o: Options, t: Tables, key: Key, gotSocket: bool, flow: FlowId)
    requires TablesValid(o, t) && key in t.pending
    ensures key !in t.flows && TablesValid(o, Install(t, key, gotSocket, flow))
  {
    var t' := Install(t, key, gotSocket, flow);
    assert |t.pending - {key}| == |t.pending| - 1;
    if gotSocket && !t.closed {
      assert t'.flows.Keys == t.flows.Keys + {key};
      assert |t'.flows| == |t'.flows.Keys| == |t.flows.Keys| + 1;
    }
  }

  lemma RetireKeeps(o: Options, t: Tables, key: Key, flow: FlowId)
    requires TablesValid(o, t)
    ensures TablesValid(o, Retire(t, key, flow))
  {
    var t' := Retire(t, key, flow);
    if t' != t {
      assert t'.flows.Keys == t.flows.Keys - {key};
      assert |t'.flows| == |t'.flows.Keys| == |t.flows.Keys| - 1;
    }
  }

  /** `udpNAT`'s guarded fields, with one method for each time the code holds the mutex. */
  class UdpNat {
    const opt: Options
    var flows: map<Key, FlowId>
    var pending: set<Key>
    var closed: bool
    var tokens: real
    var tokenTime: real

    ghost function Contents(): Tables
      reads this
    {
      Tables(flows, pending, closed, tokens, tokenTime)
    }

    ghost predicate Valid()
      reads this
    {
      Sane(opt) && TablesValid(opt, Contents())
    }

    constructor (configured: Options, now: real)
      ensures Valid() && opt == Defaults(configured)
      ensures Contents() == Tables(map[], {}, false, opt.newFlowsPerSecond as real, now)
    {
      var o := Defaults(configured);
      opt := o;
      flows, pending, closed := map[], {}, false;
      tokens, tokenTime := o.newFlowsPerSecond as real, now;
    }

    method AdmitSection(key: Key, now: real) returns (a: Admission)
      requires Valid() && tokenTime <= now
      modifies this
      ensures Valid()
      ensures (Contents(), a) == Admit(opt, old(Contents()), key, now)
    {
      ghost var before := Contents();
      AdmitKeeps(opt, before, key, now);
      if closed { return Closed; }
      if key in flows { return Existing(flows[key]); }
      if key in pending { return Busy; }
      if |flows| + |pending| >= opt.maxFlows { return AtLimit; }
      var ok := TakeToken(now);
      if !ok { return Throttled; }
      pending := pending + {key};
      return Admitted;
    }

    /** The token bucket part of the section. */
    method TakeToken(now: real) returns (ok: bool)
      modifies this`tokens, this`tokenTime
      ensures tokenTime == now
      ensures var filled := Refill(opt.newFlowsPerSecond, old(tokens), old(tokenTime), now);
              ok == (filled >= 1.0) && tokens == if ok then filled - 1.0 else filled
    {
      tokens := tokens + (now - tokenTime) * (opt.newFlowsPerSecond as real);
      if tokens > opt.newFlowsPerSecond as real {
        tokens := opt.newFlowsPerSecond as real;
      }
      tokenTime := now;
      ok := tokens >= 1.0;
      if ok {
        tokens := tokens - 1.0;
      }
    }

    method InstallSection(key: Key, gotSocket: bool, flow: FlowId) returns (installed: bool)
      requires Valid() && key in pending
      modifies this
      ensures Valid()
      ensures Contents() == Install(old(Contents()), key, gotSocket, flow)
      ensures installed == (gotSocket && !old(closed))
    {
      InstallKeeps(opt, Contents(), key, gotSocket, flow);
      pending := pending - {key};
      if !gotSocket || closed { return false; }
      flows := flows[key := flow];
      return true;
    }

    method RetireSection(key: Key, flow: FlowId)
      requires Valid()
      modifies this
      ensures Valid()
      ensures Contents() == Retire(old(Contents()), key, flow)
    {
      RetireKeeps(opt, Contents(), key, flow);
      if key in flows && flows[key] == flow {
        flows := flows - {key};
      }
    }

    method CloseSection() returns (toClose: set<FlowId>)
      requires Valid()
      modifies this
      ensures Valid()
      ensures Contents() == Shut(old(Contents())) && toClose == old(flows).Values
    {
      closed := true;
      toClose := flows.Values;
    }
  }
}

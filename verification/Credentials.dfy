/** Key snapshots of internal/tunnel/credentials.go and the sequential part of revoking sessions in
    internal/server/credentials.go. SHA-256 is an injective symbol. */
module Credentials {
  import opened Bytes

  type KeyBytes = seq<byte>

  /** `sha256.Sum256` of a key. */
  datatype KeyId = KeyId(key: KeyBytes)

  /** `credentialSnapshot`; `expires` is None for Go's zero time. */
  datatype Snapshot = Snapshot(primary: KeyBytes, previous: KeyBytes, expires: Option<real>)

  const WEEK: real := 604800.0

  /** `time.Now().Before(expires)`. */
  predicate Before(now: real, expires: Option<real>)
  {
    expires.Some? && now < expires.value
  }

  /** `Accepts`: a function of the snapshot loaded and the clock read. */
  predicate Accepts(s: Snapshot, id: KeyId, now: real)
  {
    id == KeyId(s.primary) || (id == KeyId(s.previous) && |s.previous| > 0 && Before(now, s.expires))
  }

  /** The replacements `Update` takes. */
  predicate Replaceable(primary: KeyBytes, previous: KeyBytes, expires: Option<real>, certOk: bool, now: real)
  {
    && 16 <= |primary| <= 256 && certOk
    && (previous == [] ==> expires.None?)
    && (previous != [] ==> 16 <= |previous| <= 256 && primary != previous && expires.Some? && expires.value <= now + WEEK)
  }

  /** After a rotation exactly the new key is accepted, and the previous one until it expires, which is
      within a week of the rotation. */
  lemma RotationBounded(primary: KeyBytes, previous: KeyBytes, expires: Option<real>, certOk: bool, now: real, id: KeyId, t: real)
    requires Replaceable(primary, previous, expires, certOk, now)
    ensures Accepts(Snapshot(primary, previous, expires), id, t) <==>
            id == KeyId(primary) || (previous != [] && id == KeyId(previous) && t < expires.value)
    ensures Accepts(Snapshot(primary, previous, expires), id, t) && t >= now + WEEK ==> id == KeyId(primary)
  {
  }

  class ServerCredentials {
    var current: Snapshot

    constructor (primary: KeyBytes, previous: KeyBytes, expires: Option<real>)
      ensures current == Snapshot(primary, previous, expires)
    {
      current := Snapshot(primary, previous, expires);
    }

    /** `Update`: publishes a complete snapshot or changes nothing. */
    method Update(primary: KeyBytes, previous: KeyBytes, expires: Option<real>, certOk: bool, now: real) returns (ok: bool)
      modifies this
      ensures ok <==> Replaceable(primary, previous, expires, certOk, now)
      ensures current == if ok then Snapshot(primary, previous, expires) else old(current)
    {
      if |primary| < 16 || |primary| > 256 || !certOk { return false; }
      if |previous| > 0 && (|previous| < 16 || |previous| > 256 || primary == previous || expires.None? || expires.value > now + WEEK) {
        return false;
      }
      if |previous| == 0 && expires.Some? { return false; }
      current := Snapshot(primary, previous, expires);
      return true;
    }
  }

  type ConnId = nat

  /** The connections of a server: `states`, with each one's authentication key, and which are closed. */
  class Server {
    const credentials: ServerCredentials
    var states: map<ConnId, Option<KeyId>>
    var closed: set<ConnId>

    constructor (credentials: ServerCredentials)
      ensures this.credentials == credentials && states == map[] && closed == {}
    {
      this.credentials := credentials;
      states, closed := map[], {};
    }

    ghost predicate Unauthorized(c: ConnId, now: real)
      reads this, credentials
    {
      c in states && states[c].Some? && !Accepts(credentials.current, states[c].value, now)
    }

    /** `revokeUnauthorized` run alone: closes exactly the connections whose key is not accepted. */
    method RevokeUnauthorized(now: real)
      modifies this`closed
      ensures forall c :: c in closed <==> c in old(closed) || Unauthorized(c, now)
    {
      var closeList: set<ConnId> := {};
      var todo := states.Keys;
      while todo != {}
        invariant todo <= states.Keys
        invariant forall c :: c in closeList <==> c in states.Keys - todo && Unauthorized(c, now)
        decreases todo
      {
        var c :| c in todo;
        if states[c].Some? && !Accepts(credentials.current, states[c].value, now) {
          closeList := closeList + {c};
        }
        todo := todo - {c};
      }
      closed := closed + closeList;
    }

    /** `ReloadCredentials` run alone: a refused reload changes nothing; a successful one leaves no
        connection open under a key that the new snapshot does not accept. */
    method ReloadCredentials(primary: KeyBytes, previous: KeyBytes, expires: Option<real>, certOk: bool, now: real) returns (ok: bool)
      modifies this`closed, credentials
      ensures ok <==> Replaceable(primary, previous, expires, certOk, now)
      ensures !ok ==> closed == old(closed) && credentials.current == old(credentials.current)
      ensures ok ==> credentials.current == Snapshot(primary, previous, expires)
      ensures ok ==> forall c :: c in states && c !in closed && states[c].Some? ==> Accepts(credentials.current, states[c].value, now)
    {
      ok := credentials.Update(primary, previous, expires, certOk, now);
      if ok {
        RevokeUnauthorized(now);
      }
    }
  }
}

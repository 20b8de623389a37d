/** Resolving a destination to the numeric addresses the policy permits (internal/acl/acl.go). */
module Resolve {
  import opened Bytes
  import opened Address
  import opened Policy

  type Ip4 = s: seq<byte> | |s| == 4 witness [0, 0, 0, 0]
  type Ip16 = s: seq<byte> | |s| == 16 witness [0, 0, 0, 0, 0, 0, 0, 0, 0, 0, 0, 0, 0, 0, 0, 0]

  /** `netip.Addr`; only IPv6 addresses carry a zone. */
  datatype NetAddr = Invalid | V4(v4: Ip4) | V6(v6: Ip16, zone: Text)

  /** `Addr.Unmap`: an IPv4-mapped IPv6 address becomes plain IPv4 and loses its zone. */
  function Unmap(x: NetAddr): NetAddr
  {
    if x.V6? && x.v6[..12] == V4_IN_V6 then V4(x.v6[12..]) else x
  }

  /** How the two blocking points of a lookup turn out: the context, the DNS slots and the resolver. */
  datatype Gate = ContextDone | SlotTaken | SlotsFull
  datatype Lookup = Found(ips: seq<NetAddr>) | LookupError

  datatype Refusal = BadAddress | Denied | Busy | ContextEnded | LookupFailed
  datatype Outcome = Approved(list: seq<Address>) | Refused(why: Refusal)

  function Candidate(port: uint16, x: NetAddr): Address
    requires !x.Invalid?
  {
    match x
    case V4(v4) => Address(ATYP_IPV4, [], v4, port)
    case V6(v6, _) => Address(ATYP_IPV6, [], v6, port)
  }

  /** The policy's verdict on one looked-up address. */
  predicate Permitted(l: Rules, a: Address, x: NetAddr)
  {
    !x.Invalid? && ResolvedAllowed(l, a, Candidate(a.port, x))
  }

  /** No earlier answer is the same address. */
  predicate FirstSeen(ips: seq<NetAddr>, i: nat)
    requires i < |ips|
  {
    forall j :: 0 <= j < i ==> Unmap(ips[j]) != Unmap(ips[i])
  }

  predicate Kept(l: Rules, a: Address, ips: seq<NetAddr>, i: nat)
    requires i < |ips|
  {
    FirstSeen(ips, i) && Permitted(l, a, Unmap(ips[i]))
  }

  /** The permitted first occurrences among the first `n` answers, in order. */
  function Selected(l: Rules, a: Address, ips: seq<NetAddr>, n: nat): seq<Address>
    requires n <= |ips|
  {
    if n == 0 then []
    else
      Selected(l, a, ips, n - 1)
      + if Kept(l, a, ips, n - 1) then [Candidate(a.port, Unmap(ips[n - 1]))] else []
  }

  function NonEmpty(list: seq<Address>): Outcome
  {
    if list == [] then Refused(Denied) else Approved(list)
  }

  /** What `Resolve` answers for a name in canonical form. */
  function Answer(l: Rules, a: Address, gate: Gate, lookup: Lookup): Outcome
  {
    if l.Some? && AnyMatch(l.value.denyHosts, a) then Refused(Denied)
    else
      match gate
      case ContextDone => Refused(ContextEnded)
      case SlotsFull => Refused(Busy)
      case SlotTaken =>
        match lookup
        case LookupError => Refused(LookupFailed)
        case Found(ips) => NonEmpty(Selected(l, a, ips, |ips|))
  }

  function Resolution(names: Names, l: Rules, addr: Address, gate: Gate, lookup: Lookup): Outcome
  {
    match Normalized(names, addr)
    case None => Refused(BadAddress)
    case Some(a) =>
      if !PortsAllowed(l, a.port) then Refused(Denied)
      else if a.atyp != ATYP_DOMAIN then
        if Allowed(names, l, a) then Approved([a]) else Refused(Denied)
      else Answer(l, a, gate, lookup)
  }

  /** The loop over the answers. */
  method Filter(l: Rules, a: Address, ips: seq<NetAddr>) returns (out: seq<Address>)
    ensures out == Selected(l, a, ips, |ips|)
  {
    out := [];
    var seen: set<NetAddr> := {};
    for i := 0 to |ips|
      invariant out == Selected(l, a, ips, i)
      invariant forall j :: 0 <= j < i ==> Unmap(ips[j]).Invalid? || Unmap(ips[j]) in seen
      invariant forall x :: x in seen ==> exists j :: 0 <= j < i && Unmap(ips[j]) == x
    {
      var ip := Unmap(ips[i]);
      if ip.Invalid? || ip in seen {
        continue;
      }
      seen := seen + {ip};
      var candidate := Candidate(a.port, ip);
      if ResolvedAllowed(l, a, candidate) {
        out := out + [candidate];
      }
    }
  }

  method ResolveName(l: Rules, a: Address, gate: Gate, lookup: Lookup) returns (r: Outcome)
    ensures r == Answer(l, a, gate, lookup)
  {
    if l.Some? {
      var denied := MatchAny(l.value.denyHosts, a);
      if denied {
        return Refused(Denied);
      }
    }
    match gate
    case ContextDone => return Refused(ContextEnded);
    case SlotsFull => return Refused(Busy);
    case SlotTaken =>
      match lookup
      case LookupError => return Refused(LookupFailed);
      case Found(ips) =>
        var out := Filter(l, a, ips);
        return if |out| == 0 then Refused(Denied) else Approved(out);
  }

  method Resolve(names: Names, l: Rules, addr: Address, gate: Gate, lookup: Lookup) returns (r: Outcome)
    ensures r == Resolution(names, l, addr, gate, lookup)
  {
    match Normalized(names, addr)
    case None => return Refused(BadAddress);
    case Some(a) =>
      if !PortsAllowed(l, a.port) {
        return Refused(Denied);
      }
      if a.atyp != ATYP_DOMAIN {
        return if Allowed(names, l, a) then Approved([a]) else Refused(Denied);
      }
      r := ResolveName(l, a, gate, lookup);
  }

  // ---- What the list is ----------------------------------------------------------------------

  /** Every kept answer is in the list, at the place its predecessors leave for it: order is preserved. */
  lemma {:induction false} KeptIsListed(l: Rules, a: Address, ips: seq<NetAddr>, n: nat, i: nat)
    requires i < n <= |ips| && Kept(l, a, ips, i)
    ensures |Selected(l, a, ips, i)| < |Selected(l, a, ips, n)|
    ensures Selected(l, a, ips, n)[|Selected(l, a, ips, i)|] == Candidate(a.port, Unmap(ips[i]))
    decreases n
  {
    if i < n - 1 {
      KeptIsListed(l, a, ips, n - 1, i);
    }
  }

  /** And every entry is a kept answer. */
  lemma {:induction false} ListedIsKept(l: Rules, a: Address, ips: seq<NetAddr>, n: nat, k: nat) returns (i: nat)
    requires n <= |ips| && k < |Selected(l, a, ips, n)|
    ensures i < n && Kept(l, a, ips, i) && |Selected(l, a, ips, i)| == k
    ensures Selected(l, a, ips, n)[k] == Candidate(a.port, Unmap(ips[i]))
    decreases n
  {
    if k < |Selected(l, a, ips, n - 1)| {
      i := ListedIsKept(l, a, ips, n - 1, k);
    } else {
      i := n - 1;
    }
  }

  /** The first answer equal to a given one. */
  lemma {:induction false} Earliest(ips: seq<NetAddr>, i: nat) returns (j: nat)
    requires i < |ips|
    ensures j <= i && Unmap(ips[j]) == Unmap(ips[i]) && FirstSeen(ips, j)
    decreases i
  {
    if FirstSeen(ips, i) {
      j := i;
    } else {
      var k :| 0 <= k < i && Unmap(ips[k]) == Unmap(ips[i]);
      j := Earliest(ips, k);
    }
  }

  /** The list holds exactly the looked-up addresses that the policy permits. */
  lemma ListedExactly(l: Rules, a: Address, ips: seq<NetAddr>, c: Address)
    ensures c in Selected(l, a, ips, |ips|) <==>
            exists i :: 0 <= i < |ips| && Permitted(l, a, Unmap(ips[i])) && c == Candidate(a.port, Unmap(ips[i]))
  {
    var out := Selected(l, a, ips, |ips|);
    if c in out {
      var k :| 0 <= k < |out| && out[k] == c;
      var i := ListedIsKept(l, a, ips, |ips|, k);
    }
    if i :| 0 <= i < |ips| && Permitted(l, a, Unmap(ips[i])) && c == Candidate(a.port, Unmap(ips[i])) {
      var j := Earliest(ips, i);
      KeptIsListed(l, a, ips, |ips|, j);
    }
  }

  ghost predicate DuplicateFree(s: seq<Address>)
  {
    forall i, j :: 0 <= i < j < |s| ==> s[i] != s[j]
  }

  /** Two answers that differ only in their zone, both permitted. */
  ghost predicate ZoneTwins(l: Rules, a: Address, ips: seq<NetAddr>, i: nat, j: nat)
    requires i < |ips| && j < |ips|
  {
    var x, y := Unmap(ips[i]), Unmap(ips[j]);
    x.V6? && y.V6? && x.v6 == y.v6 && x.zone != y.zone && Permitted(l, a, x)
  }

  lemma SameCandidate(port: uint16, x: NetAddr, y: NetAddr)
    requires !x.Invalid? && !y.Invalid?
    ensures Candidate(port, x) == Candidate(port, y) <==> x == y || (x.V6? && y.V6? && x.v6 == y.v6)
  {
  }

  lemma TwinsRepeat(l: Rules, a: Address, ips: seq<NetAddr>, i: nat, j: nat)
    requires i < |ips| && j < |ips| && ZoneTwins(l, a, ips, i, j)
    ensures !DuplicateFree(Selected(l, a, ips, |ips|))
  {
    var i' := Earliest(ips, i);
    var j' := Earliest(ips, j);
    SameCandidate(a.port, Unmap(ips[i]), Unmap(ips[j]));
    KeptIsListed(l, a, ips, |ips|, i');
    KeptIsListed(l, a, ips, |ips|, j');
    if i' < j' {
      KeptIsListed(l, a, ips, j', i');
    } else {
      KeptIsListed(l, a, ips, i', j');
    }
  }

  lemma RepeatMeansTwins(l: Rules, a: Address, ips: seq<NetAddr>, k: nat, m: nat) returns (i: nat, j: nat)
    requires k < m < |Selected(l, a, ips, |ips|)|
    requires Selected(l, a, ips, |ips|)[k] == Selected(l, a, ips, |ips|)[m]
    ensures i < |ips| && j < |ips| && ZoneTwins(l, a, ips, i, j)
  {
    i := ListedIsKept(l, a, ips, |ips|, k);
    j := ListedIsKept(l, a, ips, |ips|, m);
    SameCandidate(a.port, Unmap(ips[i]), Unmap(ips[j]));
  }

  /** The list is free of duplicates exactly when no two answers differ only in their zone. */
  lemma DuplicateFreeExactly(l: Rules, a: Address, ips: seq<NetAddr>)
    ensures DuplicateFree(Selected(l, a, ips, |ips|)) <==>
            forall i: nat, j: nat :: i < |ips| && j < |ips| ==> !ZoneTwins(l, a, ips, i, j)
  {
    var out := Selected(l, a, ips, |ips|);
    if i: nat, j: nat :| i < |ips| && j < |ips| && ZoneTwins(l, a, ips, i, j) {
      TwinsRepeat(l, a, ips, i, j);
    }
    if !DuplicateFree(out) {
      var k, m :| 0 <= k < m < |out| && out[k] == out[m];
      var i, j := RepeatMeansTwins(l, a, ips, k, m);
    }
  }

  /** In particular for every lookup without zones. */
  lemma ZoneFreeIsDuplicateFree(l: Rules, a: Address, ips: seq<NetAddr>)
    requires forall i :: 0 <= i < |ips| && ips[i].V6? ==> ips[i].zone == []
    ensures DuplicateFree(Selected(l, a, ips, |ips|))
  {
    DuplicateFreeExactly(l, a, ips);
  }

  /** With zones it can fail: one link-local address on two interfaces is listed twice. */
  lemma ZonesCanRepeat(a: Address, v6: Ip16)
    requires v6[..12] != V4_IN_V6
    ensures var ips := [V6(v6, [101]), V6(v6, [102])];
            !DuplicateFree(Selected(None, a, ips, |ips|))
  {
    var ips := [V6(v6, [101]), V6(v6, [102])];
    TwinsRepeat(None, a, ips, 0, 1);
  }

  // ---- What an answer guarantees -------------------------------------------------------------

  /** `c` passes the policy for the destination whose canonical form is `a`. */
  ghost predicate Vetted(names: Names, l: Rules, a: Address, c: Address)
  {
    && Normalized(names, c) == Some(c) && c.atyp != ATYP_DOMAIN && c.port == a.port
    && PortsAllowed(l, a.port)
    && (l.Some? ==>
          && !AnyMatch(l.value.denyHosts, a) && !AnyMatch(l.value.denyHosts, c)
          && (l.value.allowHosts == [] || AnyMatch(l.value.allowHosts, a) || AnyMatch(l.value.allowHosts, c)))
  }

  /** A success is never empty. Each address in it is numeric, canonical and for the port asked for; the port is
      permitted; neither the address nor the name is denied, whatever allowed them; and one of them is allowed. */
  lemma ApprovedIsVetted(names: Names, l: Rules, addr: Address, gate: Gate, lookup: Lookup, k: nat)
    requires Resolution(names, l, addr, gate, lookup).Approved?
    ensures Resolution(names, l, addr, gate, lookup).list != []
    ensures k < |Resolution(names, l, addr, gate, lookup).list| ==>
            Vetted(names, l, Normalized(names, addr).value, Resolution(names, l, addr, gate, lookup).list[k])
  {
    var a := Normalized(names, addr).value;
    var list := Resolution(names, l, addr, gate, lookup).list;
    if k < |list| {
      if a.atyp != ATYP_DOMAIN {
        LiteralIsNormal(names, a, addr);
      } else {
        var i := ListedIsKept(l, a, lookup.ips, |lookup.ips|, k);
        CandidateIsNormal(names, a.port, lookup.ips[i]);
      }
    }
  }

  lemma LiteralIsNormal(names: Names, a: Address, addr: Address)
    requires Normalized(names, addr) == Some(a) && a.atyp != ATYP_DOMAIN
    ensures Normalized(names, a) == Some(a) && a.port == addr.port
  {
  }

  lemma CandidateIsNormal(names: Names, port: uint16, x: NetAddr)
    requires port != 0 && !Unmap(x).Invalid?
    ensures Normalized(names, Candidate(port, Unmap(x))) == Some(Candidate(port, Unmap(x)))
  {
  }

  /** A literal is approved exactly when `Allowed` says so, and then alone. */
  lemma LiteralExactly(names: Names, l: Rules, addr: Address, gate: Gate, lookup: Lookup)
    requires Normalized(names, addr).Some? && Normalized(names, addr).value.atyp != ATYP_DOMAIN
    ensures Resolution(names, l, addr, gate, lookup) ==
            if Allowed(names, l, addr) then Approved([Normalized(names, addr).value]) else Refused(Denied)
  {
    LiteralIsNormal(names, Normalized(names, addr).value, addr);
  }

  /** A numeric host in domain form resolves exactly like its literal, whatever DNS would say. */
  lemma NumericResolvesLikeLiteral(names: Names, l: Rules, a: Address, literal: byte, gate: Gate, lookup: Lookup)
    requires a.atyp == ATYP_DOMAIN && names.parse(CanonicalName(names, a.host)).Some?
    requires literal == ATYP_IPV4 || literal == ATYP_IPV6
    ensures var ip := names.parse(CanonicalName(names, a.host)).value;
            Resolution(names, l, a, gate, lookup)
            == Resolution(names, l, Address(literal, [], ip, a.port), gate, lookup)
  {
    NumericLikeLiteral(names, a, literal);
  }

  /** Resolving the canonical form gives the same answer. */
  lemma ResolvesLikeCanonical(names: Names, l: Rules, addr: Address, gate: Gate, lookup: Lookup)
    requires Sane(names) && Normalized(names, addr).Some?
    ensures Resolution(names, l, Normalized(names, addr).value, gate, lookup)
            == Resolution(names, l, addr, gate, lookup)
  {
    NormalizedIdempotent(names, addr);
  }

  // ---- Deny rules only remove ----------------------------------------------------------------

  /** `l` with one more deny rule, at any place; without a list, the list of that rule alone. */
  function AddDeny(l: Rules, k: nat, r: Rule): Rules
    requires l.Some? ==> k <= |l.value.denyHosts|
  {
    match l
    case None => Some(List([], [r], {}, {}))
    case Some(list) => Some(list.(denyHosts := list.denyHosts[..k] + [r] + list.denyHosts[k..]))
  }

  ghost predicate IsSubsequence(s: seq<Address>, t: seq<Address>)
    decreases |t|
  {
    if t == [] then s == []
    else
      var rest := t[..|t| - 1];
      || IsSubsequence(s, rest)
      || (s != [] && s[|s| - 1] == t[|t| - 1] && IsSubsequence(s[..|s| - 1], rest))
  }

  /** A stricter outcome: denied, or the same refusal, or some of the same addresses in the same order. */
  ghost predicate Stricter(r: Outcome, than: Outcome)
  {
    r == Refused(Denied) || r == than || (r.Approved? && than.Approved? && IsSubsequence(r.list, than.list))
  }

  lemma InsertMatches(before: seq<Rule>, after: seq<Rule>, r: Rule, a: Address)
    ensures AnyMatch(before + [r] + after, a) <==> AnyMatch(before + after, a) || Matches(r, a)
  {
    var with, without := before + [r] + after, before + after;
    if Matches(r, a) {
      assert with[|before|] == r;
    }
    if i :| 0 <= i < |with| && Matches(with[i], a) && i != |before| {
      assert without[if i < |before| then i else i - 1] == with[i];
    }
    if i :| 0 <= i < |without| && Matches(without[i], a) {
      assert with[if i < |before| then i else i + 1] == without[i];
    }
  }

  lemma DenyMatches(l: Rules, k: nat, r: Rule, a: Address)
    requires l.Some? && k <= |l.value.denyHosts|
    ensures AnyMatch(AddDeny(l, k, r).value.denyHosts, a) <==> AnyMatch(l.value.denyHosts, a) || Matches(r, a)
  {
    var deny := l.value.denyHosts;
    InsertMatches(deny[..k], deny[k..], r, a);
    assert deny[..k] + deny[k..] == deny;
  }

  lemma PermittedShrinks(l: Rules, k: nat, r: Rule, a: Address, x: NetAddr)
    requires l.Some? ==> k <= |l.value.denyHosts|
    requires Permitted(AddDeny(l, k, r), a, x)
    ensures Permitted(l, a, x)
  {
    if l.Some? {
      DenyMatches(l, k, r, a);
      DenyMatches(l, k, r, Candidate(a.port, x));
    }
  }

  lemma Append(s: seq<Address>, t: seq<Address>, c: Address, both: bool)
    requires IsSubsequence(s, t)
    ensures IsSubsequence(s + if both then [c] else [], t + [c])
  {
    assert (t + [c])[..|t|] == t && (s + [c])[..|s|] == s && s + [] == s;
  }

  lemma {:induction false} SelectionShrinks(l: Rules, k: nat, r: Rule, a: Address, ips: seq<NetAddr>, n: nat)
    requires n <= |ips| && (l.Some? ==> k <= |l.value.denyHosts|)
    ensures IsSubsequence(Selected(AddDeny(l, k, r), a, ips, n), Selected(l, a, ips, n))
    decreases n
  {
    if n > 0 {
      SelectionShrinks(l, k, r, a, ips, n - 1);
      var s, t := Selected(AddDeny(l, k, r), a, ips, n - 1), Selected(l, a, ips, n - 1);
      if Kept(l, a, ips, n - 1) {
        Append(s, t, Candidate(a.port, Unmap(ips[n - 1])), Kept(AddDeny(l, k, r), a, ips, n - 1));
      } else {
        if Permitted(AddDeny(l, k, r), a, Unmap(ips[n - 1])) {
          PermittedShrinks(l, k, r, a, Unmap(ips[n - 1]));
        }
        assert s + [] == s && t + [] == t;
      }
    }
  }

  lemma AnswerShrinks(l: Rules, k: nat, r: Rule, a: Address, gate: Gate, lookup: Lookup)
    requires l.Some? ==> k <= |l.value.denyHosts|
    ensures Stricter(Answer(AddDeny(l, k, r), a, gate, lookup), Answer(l, a, gate, lookup))
  {
    if l.Some? {
      DenyMatches(l, k, r, a);
    }
    if lookup.Found? {
      SelectionShrinks(l, k, r, a, lookup.ips, |lookup.ips|);
    }
  }

  /** Adding a deny rule, wherever it stands and whatever it matches, can only remove results. */
  lemma DenyOnlyRemoves(names: Names, l: Rules, k: nat, r: Rule, addr: Address, gate: Gate, lookup: Lookup)
    requires l.Some? ==> k <= |l.value.denyHosts|
    ensures Stricter(Resolution(names, AddDeny(l, k, r), addr, gate, lookup), Resolution(names, l, addr, gate, lookup))
  {
    match Normalized(names, addr)
    case None =>
    case Some(a) =>
      if a.atyp != ATYP_DOMAIN {
        LiteralIsNormal(names, a, addr);
        if l.Some? {
          DenyMatches(l, k, r, a);
        }
      } else {
        AnswerShrinks(l, k, r, a, gate, lookup);
      }
  }

  /** `l` with one more deny port; without a list, the list of that port alone. */
  function AddDenyPort(l: Rules, port: uint16): Rules
  {
    match l
    case None => Some(List([], [], {}, {port}))
    case Some(list) => Some(list.(denyPorts := list.denyPorts + {port}))
  }

  lemma OtherPortsUntouched(l: Rules, port: uint16, a: Address, c: Address)
    requires a.port != port
    ensures PortsAllowed(AddDenyPort(l, port), a.port) == PortsAllowed(l, a.port)
    ensures ResolvedAllowed(AddDenyPort(l, port), a, c) == ResolvedAllowed(l, a, c)
    ensures HostAllowed(AddDenyPort(l, port), a) == HostAllowed(l, a)
  {
  }

  lemma {:induction false} SelectionUntouched(l: Rules, port: uint16, a: Address, ips: seq<NetAddr>, n: nat)
    requires n <= |ips| && a.port != port
    ensures Selected(AddDenyPort(l, port), a, ips, n) == Selected(l, a, ips, n)
    decreases n
  {
    if n > 0 {
      SelectionUntouched(l, port, a, ips, n - 1);
      var x := Unmap(ips[n - 1]);
      if !x.Invalid? {
        OtherPortsUntouched(l, port, a, Candidate(a.port, x));
      }
    }
  }

  lemma AnswerUntouched(l: Rules, port: uint16, a: Address, gate: Gate, lookup: Lookup)
    requires a.port != port
    ensures Answer(AddDenyPort(l, port), a, gate, lookup) == Answer(l, a, gate, lookup)
  {
    if lookup.Found? {
      SelectionUntouched(l, port, a, lookup.ips, |lookup.ips|);
    }
  }

  /** Adding a deny port denies that port and leaves every other answer as it was. */
  lemma DenyPortOnlyRemoves(names: Names, l: Rules, port: uint16, addr: Address, gate: Gate, lookup: Lookup)
    ensures Resolution(names, AddDenyPort(l, port), addr, gate, lookup) ==
            if addr.port == port && Normalized(names, addr).Some? then Refused(Denied)
            else Resolution(names, l, addr, gate, lookup)
  {
    match Normalized(names, addr)
    case None =>
    case Some(a) =>
      KeepsPort(names, addr);
      if a.port != port {
        OtherPortsUntouched(l, port, a, a);
        if a.atyp != ATYP_DOMAIN {
          LiteralIsNormal(names, a, addr);
        } else {
          AnswerUntouched(l, port, a, gate, lookup);
        }
      }
  }

  lemma KeepsPort(names: Names, addr: Address)
    requires Normalized(names, addr).Some?
    ensures Normalized(names, addr).value.port == addr.port
  {
  }
}

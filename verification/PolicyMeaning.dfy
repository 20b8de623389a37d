/** What the rules of internal/acl/acl.go mean: a network rule covers the addresses that agree with it in its
    prefix, a domain rule covers the names that end in its labels, and a destination is approved accordingly. */
module PolicyMeaning {
  import opened Bytes
  import opened Address
  import opened Policy
  import opened Resolve
  import opened Prefixes

  // ---- Names by their labels -----------------------------------------------------------------

  /** `strings.Join(labels, ".")`. */
  function Joined(labels: seq<Text>): Text
  {
    if |labels| == 0 then [] else if |labels| == 1 then labels[0] else labels[0] + [DOT] + Joined(labels[1..])
  }

  lemma LabelsAt(s: Text, first: Text, rest: Text)
    requires FirstDot(s) < |s| && first == s[..FirstDot(s)] && rest == s[FirstDot(s) + 1..]
    ensures Labels(s) == [first] + Labels(rest)
  {
  }

  lemma JoinedCons(first: Text, rest: seq<Text>)
    requires |rest| > 0
    ensures Joined([first] + rest) == first + [DOT] + Joined(rest)
  {
    assert ([first] + rest)[1..] == rest;
  }

  lemma JoinedMore(s: Text, first: Text, rest: Text)
    requires FirstDot(s) < |s| && first == s[..FirstDot(s)] && rest == s[FirstDot(s) + 1..]
    requires Joined(Labels(rest)) == rest
    ensures Joined(Labels(s)) == s
  {
    LabelsAt(s, first, rest);
    JoinedCons(first, Labels(rest));
    CutAtDot(s, FirstDot(s));
  }

  lemma CutAtDot(s: Text, i: nat)
    requires i < |s| && s[i] == DOT
    ensures s == s[..i] + [DOT] + s[i + 1..]
  {
  }

  lemma JoinedOne(s: Text)
    requires FirstDot(s) == |s|
    ensures Joined(Labels(s)) == s
  {
  }

  lemma {:induction false} JoinedLabels(s: Text)
    ensures Joined(Labels(s)) == s
    decreases |s|
  {
    var i := FirstDot(s);
    if i < |s| {
      JoinedLabels(s[i + 1..]);
      JoinedMore(s, s[..i], s[i + 1..]);
    } else {
      JoinedOne(s);
    }
  }

  lemma FirstDotStays(a: Text, b: Text)
    ensures FirstDot(a + [DOT] + b) == FirstDot(a)
  {
    var s := a + [DOT] + b;
    var i, j := FirstDot(a), FirstDot(s);
    assert j >= i by {
      assert forall k :: 0 <= k < i ==> a[..i][k] == s[k];
    }
    assert s[i] == DOT && forall k :: 0 <= k < j ==> s[..j][k] == s[k];
  }

  lemma CutAt(a: Text, b: Text, i: nat)
    requires i < |a|
    ensures (a + [DOT] + b)[..i] == a[..i] && (a + [DOT] + b)[i + 1..] == a[i + 1..] + [DOT] + b
  {
  }

  lemma Regroup(first: Text, p: seq<Text>, q: seq<Text>)
    ensures [first] + (p + q) == [first] + p + q
  {
  }

  lemma LabelsJoinLast(a: Text, b: Text)
    requires FirstDot(a) == |a|
    ensures Labels(a + [DOT] + b) == Labels(a) + Labels(b)
  {
    var s := a + [DOT] + b;
    FirstDotStays(a, b);
    assert s[..|a|] == a && s[|a| + 1..] == b;
    LabelsAt(s, a, b);
  }

  lemma LabelsJoinMore(a: Text, b: Text, first: Text, rest: Text)
    requires FirstDot(a) < |a| && first == a[..FirstDot(a)] && rest == a[FirstDot(a) + 1..]
    requires Labels(rest + [DOT] + b) == Labels(rest) + Labels(b)
    ensures Labels(a + [DOT] + b) == Labels(a) + Labels(b)
  {
    FirstDotStays(a, b);
    CutAt(a, b, FirstDot(a));
    LabelsAt(a + [DOT] + b, first, rest + [DOT] + b);
    LabelsAt(a, first, rest);
    Regroup(first, Labels(rest), Labels(b));
  }

  /** Splitting at a dot splits the labels. */
  lemma {:induction false} LabelsJoin(a: Text, b: Text)
    ensures Labels(a + [DOT] + b) == Labels(a) + Labels(b)
    decreases |a|
  {
    var i := FirstDot(a);
    if i == |a| {
      LabelsJoinLast(a, b);
    } else {
      LabelsJoin(a[i + 1..], b);
      LabelsJoinMore(a, b, a[..i], a[i + 1..]);
    }
  }

  lemma {:induction false} JoinedAppend(p: seq<Text>, q: seq<Text>)
    requires |p| > 0 && |q| > 0
    ensures Joined(p + q) == Joined(p) + [DOT] + Joined(q)
    decreases |p|
  {
    assert (p + q)[1..] == p[1..] + q;
    if |p| == 1 {
      assert p[1..] + q == q;
    } else {
      JoinedAppend(p[1..], q);
      assert Joined(p + q) == p[0] + [DOT] + (Joined(p[1..]) + [DOT] + Joined(q));
    }
  }

  /** `host` is `name` or lies below it: its labels end in those of `name`. */
  predicate EndsIn(host: Text, name: Text)
  {
    var h, n := Labels(host), Labels(name);
    |n| <= |h| && h[|h| - |n|..] == n
  }

  lemma UnderEndsIn(host: Text, name: Text)
    requires Under(host, name)
    ensures EndsIn(host, name)
  {
    var k := |host| - |name| - 1;
    assert host == host[..k] + [DOT] + name;
    LabelsJoin(host[..k], name);
  }

  lemma TailIsUnder(host: Text, front: Text, name: Text)
    requires host == front + [DOT] + name
    ensures Under(host, name)
  {
    assert host[|front|..] == [DOT] + name;
  }

  lemma FrontAndTail(h: seq<Text>, n: seq<Text>)
    requires 0 < |n| <= |h| && h[|h| - |n|..] == n
    ensures h == n || exists front :: |front| > 0 && h == front + n
  {
    var front := h[..|h| - |n|];
    assert h == front + n;
  }

  lemma EndsInUnder(host: Text, name: Text)
    requires EndsIn(host, name)
    ensures host == name || Under(host, name)
  {
    var h, n := Labels(host), Labels(name);
    JoinedLabels(host);
    JoinedLabels(name);
    FrontAndTail(h, n);
    if h != n {
      var front :| |front| > 0 && h == front + n;
      JoinedAppend(front, n);
      TailIsUnder(host, Joined(front), name);
    }
  }

  // ---- What a rule covers --------------------------------------------------------------------

  /** A rule as it is written: a network and a prefix length, or a domain. */
  datatype Spec = Network(net: Ip, prefix: nat) | Zone(name: Text)

  predicate SpecOk(spec: Spec)
  {
    match spec
    case Network(net, prefix) => (|net| == 4 || |net| == 16) && prefix <= 8 * |net|
    case Zone(name) => name != []
  }

  function RuleOf(spec: Spec): Rule
  {
    match spec
    case Network(net, prefix) => Cidr(net, PrefixMask(|net|, prefix))
    case Zone(name) => Domain(name)
  }

  function Short(ip: Ip): Ip
  {
    match To4(ip) case Some(v4) => v4 case None => ip
  }

  /** Same family, and the same first bits; an IPv4 network written in IPv6 has 96 bits in front. */
  predicate InNetwork(net: Ip, prefix: nat, ip: Ip)
  {
    |Short(ip)| == |Short(net)| &&
    SamePrefix(Short(net), Short(ip), if |Short(net)| < |net| then prefix - 96 else prefix)
  }

  predicate Covers(spec: Spec, a: Address)
  {
    match spec
    case Network(net, prefix) => a.atyp != ATYP_DOMAIN && InNetwork(net, prefix, a.ip)
    case Zone(name) => a.atyp == ATYP_DOMAIN && EndsIn(a.host, name)
  }

  lemma NetworkMask(net: Ip, prefix: nat)
    requires |net| == 4 || |net| == 16
    ensures var p := if |Short(net)| < |net| then prefix - 96 else prefix;
            NetworkAndMask(net, PrefixMask(|net|, prefix)) == (Short(net), PrefixMask(|Short(net)|, p))
  {
    if |Short(net)| < |net| {
      MaskTail(4, prefix);
    }
  }

  /** A network rule contains exactly the addresses of its family with its prefix. */
  lemma ContainsExactly(net: Ip, prefix: nat, ip: Ip)
    requires |net| == 4 || |net| == 16
    ensures Contains(net, PrefixMask(|net|, prefix), ip) <==> InNetwork(net, prefix, ip)
  {
    NetworkMask(net, prefix);
    var p := if |Short(net)| < |net| then prefix - 96 else prefix;
    if |Short(ip)| == |Short(net)| {
      PrefixAgrees(Short(net), Short(ip), p);
      AgreeIsContains(Short(net), PrefixMask(|Short(net)|, p), Short(ip));
    }
  }

  lemma AgreeIsContains(number: Ip, m: seq<byte>, x: Ip)
    requires |number| == |m| == |x|
    ensures Agree(number, x, m) <==> forall i :: 0 <= i < |x| ==> And(number[i], m[i]) == And(x[i], m[i])
  {
  }

  /** A rule matches exactly what it covers. */
  lemma MatchesExactly(spec: Spec, a: Address)
    requires SpecOk(spec)
    ensures Matches(RuleOf(spec), a) <==> Covers(spec, a)
  {
    match spec
    case Network(net, prefix) => ContainsExactly(net, prefix, a.ip);
    case Zone(name) =>
      if a.atyp == ATYP_DOMAIN {
        if Under(a.host, name) { UnderEndsIn(a.host, name); }
        if EndsIn(a.host, name) { EndsInUnder(a.host, name); }
        assert a.host == name ==> EndsIn(a.host, name);
      }
  }

  // ---- What a policy approves ----------------------------------------------------------------

  /** A policy as it is written. */
  datatype Config = Config(allow: seq<Spec>, deny: seq<Spec>, allowPorts: set<uint16>, denyPorts: set<uint16>)

  ghost predicate ConfigOk(cfg: Config)
  {
    && (forall i :: 0 <= i < |cfg.allow| ==> SpecOk(cfg.allow[i]))
    && (forall i :: 0 <= i < |cfg.deny| ==> SpecOk(cfg.deny[i]))
  }

  function RulesOf(specs: seq<Spec>): (rules: seq<Rule>)
    ensures |rules| == |specs| && forall i :: 0 <= i < |specs| ==> rules[i] == RuleOf(specs[i])
  {
    if |specs| == 0 then [] else RulesOf(Init(specs)) + [RuleOf(Last(specs))]
  }

  function PolicyOf(cfg: Config): Rules
  {
    Some(List(RulesOf(cfg.allow), RulesOf(cfg.deny), cfg.allowPorts, cfg.denyPorts))
  }

  ghost predicate SomeCovers(specs: seq<Spec>, a: Address)
  {
    exists i :: 0 <= i < |specs| && Covers(specs[i], a)
  }

  lemma AnyMatchExactly(specs: seq<Spec>, a: Address)
    requires forall i :: 0 <= i < |specs| ==> SpecOk(specs[i])
    ensures AnyMatch(RulesOf(specs), a) <==> SomeCovers(specs, a)
  {
    var rules := RulesOf(specs);
    forall i | 0 <= i < |specs| ensures Matches(rules[i], a) <==> Covers(specs[i], a) {
      MatchesExactly(specs[i], a);
    }
    if i :| 0 <= i < |rules| && Matches(rules[i], a) {
      assert Covers(specs[i], a);
    }
    if i :| 0 <= i < |specs| && Covers(specs[i], a) {
      assert Matches(rules[i], a);
    }
  }

  /** The port is not denied, and allowed if any are. */
  ghost predicate PortOk(cfg: Config, port: uint16)
  {
    port !in cfg.denyPorts && (cfg.allowPorts == {} || port in cfg.allowPorts)
  }

  /** What `Resolve` does with a literal, from the words of the policy: approved, alone, iff its port is open, no
      deny rule covers it, and an allow rule does if there are any. */
  lemma LiteralVerdict(names: Names, cfg: Config, addr: Address, a: Address, gate: Gate, lookup: Lookup)
    requires ConfigOk(cfg) && Normalized(names, addr) == Some(a) && a.atyp != ATYP_DOMAIN
    ensures Resolution(names, PolicyOf(cfg), addr, gate, lookup) ==
            if PortOk(cfg, a.port) && !SomeCovers(cfg.deny, a) && (cfg.allow == [] || SomeCovers(cfg.allow, a))
            then Approved([a]) else Refused(Denied)
  {
    LiteralExactly(names, PolicyOf(cfg), addr, gate, lookup);
    AnyMatchExactly(cfg.allow, a);
    AnyMatchExactly(cfg.deny, a);
    assert |RulesOf(cfg.allow)| == |cfg.allow|;
  }

  lemma VerdictExactly(cfg: Config, a: Address, c: Address)
    requires ConfigOk(cfg)
    ensures ResolvedAllowed(PolicyOf(cfg), a, c) <==>
            && PortOk(cfg, a.port) && !SomeCovers(cfg.deny, a) && !SomeCovers(cfg.deny, c)
            && (cfg.allow == [] || SomeCovers(cfg.allow, a) || SomeCovers(cfg.allow, c))
  {
    AnyMatchExactly(cfg.allow, a);
    AnyMatchExactly(cfg.deny, a);
    AnyMatchExactly(cfg.allow, c);
    AnyMatchExactly(cfg.deny, c);
    assert |RulesOf(cfg.allow)| == |cfg.allow|;
  }

  /** What it does with a name that was looked up: an address is approved iff it was an answer, the port is open,
      no deny rule covers the name or the address, and an allow rule covers one of them if there are any. */
  lemma NameVerdict(names: Names, cfg: Config, addr: Address, a: Address, ips: seq<NetAddr>, c: Address)
    requires ConfigOk(cfg) && Normalized(names, addr) == Some(a) && a.atyp == ATYP_DOMAIN
    ensures var r := Resolution(names, PolicyOf(cfg), addr, SlotTaken, Found(ips));
            r.Approved? && c in r.list <==>
            && (exists i :: 0 <= i < |ips| && !Unmap(ips[i]).Invalid? && c == Candidate(a.port, Unmap(ips[i])))
            && PortOk(cfg, a.port) && !SomeCovers(cfg.deny, a) && !SomeCovers(cfg.deny, c)
            && (cfg.allow == [] || SomeCovers(cfg.allow, a) || SomeCovers(cfg.allow, c))
  {
    var l := PolicyOf(cfg);
    AnyMatchExactly(cfg.deny, a);
    ListedExactly(l, a, ips, c);
    VerdictExactly(cfg, a, c);
    if i :| 0 <= i < |ips| && !Unmap(ips[i]).Invalid? && c == Candidate(a.port, Unmap(ips[i])) {
      assert Permitted(l, a, Unmap(ips[i])) <==> ResolvedAllowed(l, a, c);
    }
  }

  /** So no address of a denied network is ever approved, whatever name leads to it and whatever allows that. */
  lemma DeniedNetworkStaysOut(names: Names, cfg: Config, addr: Address, gate: Gate, lookup: Lookup, i: nat, k: nat)
    requires ConfigOk(cfg) && i < |cfg.deny| && cfg.deny[i].Network?
    requires Resolution(names, PolicyOf(cfg), addr, gate, lookup).Approved?
    requires k < |Resolution(names, PolicyOf(cfg), addr, gate, lookup).list|
    ensures !InNetwork(cfg.deny[i].net, cfg.deny[i].prefix, Resolution(names, PolicyOf(cfg), addr, gate, lookup).list[k].ip)
  {
    var c := Resolution(names, PolicyOf(cfg), addr, gate, lookup).list[k];
    ApprovedIsVetted(names, PolicyOf(cfg), addr, gate, lookup, k);
    AnyMatchExactly(cfg.deny, c);
    assert !Covers(cfg.deny[i], c);
  }

  /** A rule that is one address covers that address and nothing else. */
  lemma SingleAddress(ip: Ip, a: Address)
    requires |ip| == 4 || |ip| == 16
    ensures Covers(Network(ip, 8 * |ip|), a) <==> a.atyp != ATYP_DOMAIN && Short(a.ip) == Short(ip)
  {
    var p := if |Short(ip)| < |ip| then 8 * |ip| - 96 else 8 * |ip|;
    assert Free(|Short(ip)|, p) == 0;
    if |Short(a.ip)| == |Short(ip)| && Number(Short(ip)) == Number(Short(a.ip)) {
      NumberInjective(Short(ip), Short(a.ip));
    }
  }
}

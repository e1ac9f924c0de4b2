/** The compiler is correct: where a new packet from the WAN ends up, when exactly that is what the config says, and that it
    is counted once. */
module FirewallTheorem {
  import opened Common
  import opened Ports
  import opened Routes
  import opened Nft
  import opened Firewall
  import opened FirewallMeaning
  import opened FirewallDelivery
  import opened FirewallForward

  // p after DNAT to addr and port, routed into the tunnel; conntrack keeps the port it came to.
  function Translated(p: Packet, addr: Addr, port: nat): Packet
  {
    p.(dst := addr, dport := port, orig := p.dport, oif := Tunnel)
  }

  // p where prerouting has no verdict: it goes on as it came.
  function Untouched(p: Packet): Packet
  {
    p.(orig := p.dport)
  }

  /** The packet as it leaves prerouting, unless it is dropped there. */
  function AfterNat(rs: Ruleset, k: Kernel, p: Packet): Option<Packet>
  {
    match VerdictOf(rs.prerouting, Table(rs.natSets, k), p)
    case None => Some(Untouched(p))
    case Some(Dnat(addr, to)) => Some(Translated(p, addr, LinePort(to, p.dport)))
    case Some(_) => None
  }

  /** The peer and port a packet reaches: where it goes after prerouting, if that is the tunnel and the forward chain
      accepts it. */
  function Delivered(rs: Ruleset, k: Kernel, p: Packet): Option<(Addr, nat)>
  {
    match AfterNat(rs, k, p)
    case None => None
    case Some(p2) =>
      if p2.oif == Tunnel && VerdictOf(rs.forward, Table(rs.inetSets, k), p2) == Some(Accept) then Some((p2.dst, p2.dport)) else None
  }

  predicate FromWan(p: Packet)
  {
    p.iif == Wan && p.state == NewFlow
  }

  // ---- The policy ----

  // Route i is the active route that owns p's protocol and public port.
  predicate Owns(c: Config, i: nat, p: Packet)
  {
    i < |c.routes| && Uses(c.routes[i], p.proto, p.dport)
  }

  // A limit of route i stops p.
  predicate RateLimited(c: Config, k: Kernel, i: nat, p: Packet)
    requires i < |c.routes|
  {
    var own, all := c.routes[i].rate, c.rate;
    && !Glass(c, p.src)
    && (|| ((own.conn > 0 || all.conn > 0) && p.state != NoFlow && k.over(ConnMeter(i, p.proto), p.src))
        || (p.proto == Tcp && p.syn && p.state == NewFlow && (if own.syn > 0 then k.over(RouteSynMeter(i), p.src) else all.syn > 0 && k.over(SynMeter, p.src)))
        || (p.proto == Udp && (if own.udp > 0 then k.over(RouteUdpMeter(i), p.src) else all.udp > 0 && k.over(UdpMeter, p.src))))
  }

  // After DNAT to port, p looks in the forward chain like traffic of route j, which has no maps to tell it apart.
  predicate Mistaken(c: Config, i: nat, p: Packet, port: nat, j: nat)
  {
    && j < |c.routes| && j != i
    && var r := c.routes[j];
       !r.disabled && Speaks(r.proto, p.proto) && r.maps == [] && CoveredBy(r.ports, port)
  }

  // Some route p is mistaken for denies or limits its source.
  ghost predicate MistakenlyStopped(c: Config, k: Kernel, i: nat, p: Packet, port: nat)
  {
    exists j: nat :: Mistaken(c, i, p, port, j) && (InAny(c.routes[j].deny, p.src) || RateLimited(c, k, j, p))
  }

  // Some route p is mistaken for has the target addr and allows its source.
  ghost predicate MistakenlyPassed(c: Config, i: nat, p: Packet, addr: Addr, port: nat)
  {
    exists j: nat :: Mistaken(c, i, p, port, j) && c.routes[j].target == addr && AllowListed(c.routes[j], p.src)
  }

  /** Exactly when the owner's packet is delivered. */
  ghost predicate Delivers(c: Config, k: Kernel, i: nat, p: Packet)
    requires i < |c.routes|
  {
    var r := c.routes[i];
    var port := PortAt(r, p.dport);
    && AdmissionOf(c, k, i, r, p.src) == Admitted
    && !Banned(c, k, p.src)
    && !RateLimited(c, k, i, p)
    && !MistakenlyStopped(c, k, i, p, port)
    && (AllowListed(r, p.src) || MistakenlyPassed(c, i, p, r.target, port))
  }

  /** Exactly when the owner's packet, left alone by prerouting, reaches the target it is already addressed to: the forward
      chain does not ask for its zone. */
  predicate Slips(c: Config, k: Kernel, i: nat, p: Packet)
    requires i < |c.routes|
  {
    var r := c.routes[i];
    && p.oif == Tunnel && p.dst == r.target && CoveredBy(ForwardPorts(r).ports, p.dport)
    && AdmissionOf(c, k, i, r, p.src) == Ignored && AllowListed(r, p.src)
    && !Banned(c, k, p.src) && !RateLimited(c, k, i, p)
  }

  // ---- The forward chain's view of a compiled policy ----

  // Table t answers about source a as the config does, where policy q asks.
  ghost predicate Answers(c: Config, k: Kernel, q: Policy, t: Table, a: Addr)
    requires Compiled(c, q)
  {
    var r := c.routes[q.route];
    && t.kernel == k
    && (q.globalDeny.Some? && Contains(t, q.globalDeny.value, a) <==> InAny(c.deny, a))
    && (q.deny.Some? && Contains(t, q.deny.value, a) <==> InAny(r.deny, a))
    && (q.crowdsec.Some? && Contains(t, q.crowdsec.value, a) <==> c.crowdsec && k.listed(CrowdsecBlock, a))
    && (InGlass(q, t, a) <==> Glass(c, a))
    && (q.allow == None || Contains(t, q.allow.value, a) <==> AllowListed(r, a))
  }

  lemma InetAnswers(c: Config, k: Kernel, q: Policy, a: Addr)
    requires Compiled(c, q)
    ensures Answers(c, k, q, InetTable(c, k), a)
  {
    GlobalDenySetHolds(c, true, k, q, a);
    RouteDenySetHolds(c, true, k, q, a);
    CrowdsecSetHolds(c, k, q, a);
    GlassSetHolds(c, true, k, q, a);
    AllowSetHolds(c, true, k, q, a);
  }

  lemma BlockedMeaning(c: Config, k: Kernel, q: Policy, t: Table, p: Packet)
    requires Compiled(c, q) && q.proto == p.proto && Answers(c, k, q, t, p.src)
    ensures Blocked(q, t, p) <==>
            Denied(c, c.routes[q.route], p.src) || Banned(c, k, p.src) || RateLimited(c, k, q.route, p)
  {
  }

  lemma {:induction false} UnmappedPortTo(es: seq<Entry>, n: nat)
    ensures PortTo(es, [], n) == if CoveredBy(es, n) then Some(n) else None
  {
    PortToMeaning(es, [], n);
    if es != [] {
      UnmappedPortTo(es[1..], n);
    }
  }

  // A port of the route is, where it goes, among the ports of the route's rules in the forward chain.
  lemma OwnPorts(r: Route, n: nat)
    requires ValidRoute(r) && !r.disabled && CoveredBy(r.ports, n)
    ensures CoveredBy(ForwardPorts(r).ports, PortAt(r, n))
  {
    if r.maps == [] {
      UnmappedPortTo(r.ports, n);
    } else {
      PortToMeaning(r.ports, r.maps, n);
      var m :| 0 <= m < |r.ports| && Covers(r.ports[m], n) && PortTo(r.ports, r.maps, n) == Some(EntryTo(r.ports[m], r.maps, n));
      var e := r.ports[m];
      if MapOf(e, r.maps).Some? {
        var j :| 0 <= j < |r.maps| && r.maps[j] == PortMap(e, MapOf(e, r.maps).value);
        assert GoodMap(r.maps[j]);
      }
      assert Covers(ForwardPorts(r).ports[m], EntryTo(e, r.maps, n));
    }
  }

  /** In the forward chain the packet is taken for its owner's traffic, and for that of an unmapped route that has
      the internal port as a public one; never for anything else. */
  lemma ForPolicyMeaning(c: Config, q: Policy, i: nat, p: Packet, addr: Addr, port: nat)
    requires Valid(c) && Compiled(c, q) && Owns(c, i, p) && port == PortAt(c.routes[i], p.dport)
    ensures ForPolicy(q, Translated(p, addr, port)) <==>
            q.proto == p.proto && (q.route == i || Mistaken(c, i, p, port, q.route))
  {
    var r, own := c.routes[q.route], c.routes[i];
    ClaimsAreEntries(own, p.dport);
    ClaimsAreEntries(r, p.dport);
    OwnPorts(own, p.dport);
    if q.route != i && q.proto == p.proto {
      assert Apart(c.routes[if i < q.route then i else q.route], c.routes[if i < q.route then q.route else i]);
    }
  }

  // ---- Prerouting finds the owner ----

  lemma PolicyOfOwner(c: Config, qs: seq<Policy>, i: nat, p: Packet) returns (m: nat)
    requires Valid(c) && !c.maintenance && Policies(c) == Some(qs) && Owns(c, i, p)
    ensures m < |qs| && qs[m].route == i && qs[m].proto == p.proto && Compiled(c, qs[m])
    ensures forall j | 0 <= j < |qs| :: Compiled(c, qs[j]) && (Serves(c, qs[j], p) <==> j == m)
  {
    m := PolicyExists(c, |c.routes|, i, p.proto);
    forall j | 0 <= j < |qs| ensures Compiled(c, qs[j]) && (Serves(c, qs[j], p) <==> j == m) {
      PoliciesAreCompiled(c, |c.routes|, j);
      ServesOnce(c, qs, i, p, m, j);
    }
  }

  lemma ServesOnce(c: Config, qs: seq<Policy>, i: nat, p: Packet, m: nat, j: nat)
    requires Valid(c) && !c.maintenance && Policies(c) == Some(qs) && Owns(c, i, p)
    requires m < |qs| && qs[m].route == i && qs[m].proto == p.proto && j < |qs| && Compiled(c, qs[j])
    ensures Serves(c, qs[j], p) <==> j == m
  {
    var jr := qs[j].route;
    ClaimsAreEntries(c.routes[i], p.dport);
    ClaimsAreEntries(c.routes[jr], p.dport);
    if jr != i {
      assert Apart(c.routes[if i < jr then i else jr], c.routes[if i < jr then jr else i]);
    } else if j != m {
      PoliciesAreDistinct(c, |c.routes|, if j < m then j else m, if j < m then m else j);
    }
  }

  /** Prerouting decides by the owner alone: refuse, leave alone, or send to the owner's target and port. */
  lemma PreroutingVerdict(c: Config, k: Kernel, qs: seq<Policy>, i: nat, p: Packet)
    requires Valid(c) && !c.maintenance && Policies(c) == Some(qs) && Owns(c, i, p)
    ensures var v, r := VerdictOf(NatRules(qs, {}), NatTable(c, k), p), c.routes[i];
            match AdmissionOf(c, k, i, r, p.src)
            case Refused => v == Some(Drop)
            case Ignored => v == None
            case Admitted => v.Some? && SendsTo(v.value, p.dport, r.target, PortAt(r, p.dport))
  {
    var t := NatTable(c, k);
    var m := PolicyOfOwner(c, qs, i, p);
    forall j | 0 <= j < |qs| ensures j != m ==> PolicyVerdict(qs[j], t, p) == None {
      PolicyHit(c, k, qs[j], p);
    }
    OnlyServer(qs, t, p, m);
    PolicyHit(c, k, qs[m], p);
  }

  lemma NobodyServes(c: Config, k: Kernel, qs: seq<Policy>, p: Packet)
    requires Valid(c) && Policies(c) == Some(qs) && (c.maintenance || forall i: nat :: !Owns(c, i, p))
    ensures VerdictOf(NatRules(qs, {}), NatTable(c, k), p) == None
  {
    forall j | 0 <= j < |qs| ensures PolicyVerdict(qs[j], NatTable(c, k), p) == None {
      PoliciesAreCompiled(c, |c.routes|, j);
      ClaimsAreEntries(c.routes[qs[j].route], p.dport);
      PolicyHit(c, k, qs[j], p);
      assert !Owns(c, qs[j].route, p);
    }
    NoServer(qs, NatTable(c, k), p);
  }

  // ---- The forward chain ----

  // The owner's rules, or those of a route the packet is mistaken for, stop it.
  ghost predicate SomeoneStops(c: Config, k: Kernel, i: nat, p: Packet, port: nat)
    requires i < |c.routes|
  {
    Denied(c, c.routes[i], p.src) || Banned(c, k, p.src) || RateLimited(c, k, i, p) || MistakenlyStopped(c, k, i, p, port)
  }

  ghost predicate SomeonePasses(c: Config, i: nat, p: Packet, addr: Addr, port: nat)
    requires i < |c.routes|
  {
    (c.routes[i].target == addr && AllowListed(c.routes[i], p.src)) || MistakenlyPassed(c, i, p, addr, port)
  }

  // Route j's rules in the forward chain are for p.
  predicate Involved(c: Config, i: nat, p: Packet, port: nat, j: nat)
  {
    j == i || Mistaken(c, i, p, port, j)
  }

  lemma OneStops(c: Config, k: Kernel, q: Policy, t: Table, i: nat, p: Packet, addr: Addr, port: nat)
    requires Valid(c) && Compiled(c, q) && Owns(c, i, p) && port == PortAt(c.routes[i], p.dport) && Answers(c, k, q, t, p.src)
    ensures Stops(q, t, Translated(p, addr, port)) <==>
            q.proto == p.proto && Involved(c, i, p, port, q.route) &&
            (Denied(c, c.routes[q.route], p.src) || Banned(c, k, p.src) || RateLimited(c, k, q.route, p))
  {
    ForPolicyMeaning(c, q, i, p, addr, port);
    if q.proto == p.proto {
      BlockedMeaning(c, k, q, t, Translated(p, addr, port));
    }
  }

  lemma OnePasses(c: Config, k: Kernel, q: Policy, t: Table, i: nat, p: Packet, addr: Addr, port: nat)
    requires Valid(c) && Compiled(c, q) && Owns(c, i, p) && port == PortAt(c.routes[i], p.dport) && Answers(c, k, q, t, p.src)
    ensures Passes(q, t, Translated(p, addr, port)) <==>
            q.proto == p.proto && Involved(c, i, p, port, q.route) && c.routes[q.route].target == addr && AllowListed(c.routes[q.route], p.src)
  {
    ForPolicyMeaning(c, q, i, p, addr, port);
  }

  lemma PolicyOfRoute(c: Config, qs: seq<Policy>, j: nat, proto: Proto) returns (m: nat)
    requires !c.maintenance && Policies(c) == Some(qs) && j < |c.routes| && !c.routes[j].disabled && Speaks(c.routes[j].proto, proto)
    ensures m < |qs| && Compiled(c, qs[m]) && qs[m].route == j && qs[m].proto == proto
  {
    m := PolicyExists(c, |c.routes|, j, proto);
    PoliciesAreCompiled(c, |c.routes|, m);
  }

  // Every policy's questions are answered.
  ghost predicate AllAnswered(c: Config, k: Kernel, qs: seq<Policy>, t: Table, a: Addr)
  {
    forall m | 0 <= m < |qs| :: Compiled(c, qs[m]) && Answers(c, k, qs[m], t, a)
  }

  lemma StopsMeaning(c: Config, k: Kernel, qs: seq<Policy>, t: Table, i: nat, p: Packet, addr: Addr, port: nat)
    requires Valid(c) && !c.maintenance && Policies(c) == Some(qs) && Owns(c, i, p) && port == PortAt(c.routes[i], p.dport)
    requires AllAnswered(c, k, qs, t, p.src)
    ensures AnyStops(qs, t, Translated(p, addr, port)) <==> SomeoneStops(c, k, i, p, port)
  {
    var p2 := Translated(p, addr, port);
    if m :| 0 <= m < |qs| && Stops(qs[m], t, p2) {
      OneStops(c, k, qs[m], t, i, p, addr, port);
    }
    if Denied(c, c.routes[i], p.src) || Banned(c, k, p.src) || RateLimited(c, k, i, p) {
      var m := PolicyOfRoute(c, qs, i, p.proto);
      OneStops(c, k, qs[m], t, i, p, addr, port);
      assert Stops(qs[m], t, p2);
    }
    if MistakenlyStopped(c, k, i, p, port) {
      var j: nat :| Mistaken(c, i, p, port, j) && (InAny(c.routes[j].deny, p.src) || RateLimited(c, k, j, p));
      var m := PolicyOfRoute(c, qs, j, p.proto);
      OneStops(c, k, qs[m], t, i, p, addr, port);
      assert Stops(qs[m], t, p2);
    }
  }

  lemma PassesMeaning(c: Config, k: Kernel, qs: seq<Policy>, t: Table, i: nat, p: Packet, addr: Addr, port: nat)
    requires Valid(c) && !c.maintenance && Policies(c) == Some(qs) && Owns(c, i, p) && port == PortAt(c.routes[i], p.dport)
    requires AllAnswered(c, k, qs, t, p.src)
    ensures AnyPasses(qs, t, Translated(p, addr, port)) <==> SomeonePasses(c, i, p, addr, port)
  {
    var p2 := Translated(p, addr, port);
    if m :| 0 <= m < |qs| && Passes(qs[m], t, p2) {
      OnePasses(c, k, qs[m], t, i, p, addr, port);
    }
    if c.routes[i].target == addr && AllowListed(c.routes[i], p.src) {
      var m := PolicyOfRoute(c, qs, i, p.proto);
      OnePasses(c, k, qs[m], t, i, p, addr, port);
      assert Passes(qs[m], t, p2);
    }
    if MistakenlyPassed(c, i, p, addr, port) {
      var j: nat :| Mistaken(c, i, p, port, j) && c.routes[j].target == addr && AllowListed(c.routes[j], p.src);
      var m := PolicyOfRoute(c, qs, j, p.proto);
      OnePasses(c, k, qs[m], t, i, p, addr, port);
      assert Passes(qs[m], t, p2);
    }
  }

  // ---- A packet prerouting leaves alone ----

  /** In the forward chain such a packet is taken for its owner's traffic, when the port is among the owner's internal ports,
      and for nothing else. */
  lemma ForPolicyUntouched(c: Config, q: Policy, i: nat, p: Packet)
    requires Valid(c) && Compiled(c, q) && Owns(c, i, p)
    ensures ForPolicy(q, Untouched(p)) <==> q.proto == p.proto && q.route == i && CoveredBy(ForwardPorts(c.routes[i]).ports, p.dport)
  {
    ClaimsAreEntries(c.routes[q.route], p.dport);
    ClaimsAreEntries(c.routes[i], p.dport);
    if ForPolicy(q, Untouched(p)) {
      assert CoveredBy(c.routes[q.route].ports, p.dport);
      OneOwner(c, i, q.route, p);
    }
  }

  lemma NobodysPolicy(c: Config, q: Policy, p: Packet)
    requires Valid(c) && Compiled(c, q) && !Owns(c, q.route, p)
    ensures !ForPolicy(q, Untouched(p))
  {
    ClaimsAreEntries(c.routes[q.route], p.dport);
  }

  // The owner's rules for a packet left alone.
  lemma OwnerUntouched(c: Config, k: Kernel, q: Policy, t: Table, i: nat, p: Packet)
    requires Valid(c) && Compiled(c, q) && Owns(c, i, p) && q.route == i && q.proto == p.proto && Answers(c, k, q, t, p.src)
    ensures var p2, r, ours := Untouched(p), c.routes[i], CoveredBy(ForwardPorts(c.routes[i]).ports, p.dport);
            && (Stops(q, t, p2) <==> ours && (Denied(c, r, p.src) || Banned(c, k, p.src) || RateLimited(c, k, i, p)))
            && (Passes(q, t, p2) <==> ours && p.dst == r.target && AllowListed(r, p.src))
  {
    ForPolicyUntouched(c, q, i, p);
    BlockedMeaning(c, k, q, t, Untouched(p));
  }

  lemma OthersUntouched(c: Config, qs: seq<Policy>, t: Table, i: nat, p: Packet, m: nat, j: nat)
    requires Valid(c) && !c.maintenance && Policies(c) == Some(qs) && Owns(c, i, p)
    requires m < |qs| && qs[m].route == i && qs[m].proto == p.proto && j < |qs| && j != m && Compiled(c, qs[j])
    ensures !Stops(qs[j], t, Untouched(p)) && !Passes(qs[j], t, Untouched(p))
  {
    ForPolicyUntouched(c, qs[j], i, p);
    PoliciesAreDistinct(c, |c.routes|, if j < m then j else m, if j < m then m else j);
  }

  // What stops or passes a packet left alone is the owner's rules.
  lemma UntouchedMeaning(c: Config, k: Kernel, qs: seq<Policy>, t: Table, i: nat, p: Packet)
    requires Valid(c) && !c.maintenance && Policies(c) == Some(qs) && Owns(c, i, p) && AllAnswered(c, k, qs, t, p.src)
    ensures var p2, r, ours := Untouched(p), c.routes[i], CoveredBy(ForwardPorts(c.routes[i]).ports, p.dport);
            && (AnyStops(qs, t, p2) <==> ours && (Denied(c, r, p.src) || Banned(c, k, p.src) || RateLimited(c, k, i, p)))
            && (AnyPasses(qs, t, p2) <==> ours && p.dst == r.target && AllowListed(r, p.src))
  {
    var m := PolicyOfRoute(c, qs, i, p.proto);
    OwnerUntouched(c, k, qs[m], t, i, p);
    forall j | 0 <= j < |qs| && j != m ensures !Stops(qs[j], t, Untouched(p)) && !Passes(qs[j], t, Untouched(p)) {
      OthersUntouched(c, qs, t, i, p, m, j);
    }
  }

  // ---- The theorem ----

  lemma AllAreAnswered(c: Config, k: Kernel, qs: seq<Policy>, a: Addr)
    requires Policies(c) == Some(qs)
    ensures AllAnswered(c, k, qs, InetTable(c, k), a)
  {
    forall m | 0 <= m < |qs| ensures Compiled(c, qs[m]) && Answers(c, k, qs[m], InetTable(c, k), a) {
      if !c.maintenance {
        PoliciesAreCompiled(c, |c.routes|, m);
      }
      InetAnswers(c, k, qs[m], a);
    }
  }

  // The forward chain's answer to the owner's packet.
  lemma OwnersForward(c: Config, k: Kernel, qs: seq<Policy>, i: nat, p: Packet)
    requires Valid(c) && !c.maintenance && Policies(c) == Some(qs) && FromWan(p) && Owns(c, i, p)
    ensures var addr, port := c.routes[i].target, PortAt(c.routes[i], p.dport);
            VerdictOf(ForwardChain(c, qs), InetTable(c, k), Translated(p, addr, port)) == Some(Accept) <==>
            !SomeoneStops(c, k, i, p, port) && SomeonePasses(c, i, p, addr, port)
  {
    var t, addr, port := InetTable(c, k), c.routes[i].target, PortAt(c.routes[i], p.dport);
    AllAreAnswered(c, k, qs, p.src);
    ForwardHit(c, qs, t, Translated(p, addr, port));
    StopsMeaning(c, k, qs, t, i, p, addr, port);
    PassesMeaning(c, k, qs, t, i, p, addr, port);
  }

  lemma UntouchedForward(c: Config, k: Kernel, qs: seq<Policy>, i: nat, p: Packet)
    requires Valid(c) && !c.maintenance && Policies(c) == Some(qs) && FromWan(p) && Owns(c, i, p) && p.oif == Tunnel
    requires AdmissionOf(c, k, i, c.routes[i], p.src) == Ignored
    ensures VerdictOf(ForwardChain(c, qs), InetTable(c, k), Untouched(p)) == Some(Accept) <==> Slips(c, k, i, p)
  {
    AllAreAnswered(c, k, qs, p.src);
    ForwardHit(c, qs, InetTable(c, k), Untouched(p));
    UntouchedMeaning(c, k, qs, InetTable(c, k), i, p);
  }

  // What is left of Delivered when prerouting's verdict is known.
  lemma SentOn(c: Config, rs: Ruleset, k: Kernel, p: Packet, addr: Addr, port: nat)
    requires Compile(c) == Some(rs)
    requires var v := VerdictOf(NatRules(Policies(c).value, {}), NatTable(c, k), p); v.Some? && SendsTo(v.value, p.dport, addr, port)
    ensures Delivered(rs, k, p) ==
            if VerdictOf(ForwardChain(c, Policies(c).value), InetTable(c, k), Translated(p, addr, port)) == Some(Accept) then Some((addr, port))
            else None
  {
  }

  lemma LeftAlone(c: Config, rs: Ruleset, k: Kernel, p: Packet)
    requires Compile(c) == Some(rs) && VerdictOf(NatRules(Policies(c).value, {}), NatTable(c, k), p) == None
    ensures Delivered(rs, k, p) ==
            if p.oif == Tunnel && VerdictOf(ForwardChain(c, Policies(c).value), InetTable(c, k), Untouched(p)) == Some(Accept)
            then Some((p.dst, p.dport)) else None
  {
  }

  lemma AdmittedMeaning(c: Config, k: Kernel, i: nat, p: Packet)
    requires i < |c.routes| && AdmissionOf(c, k, i, c.routes[i], p.src) == Admitted
    ensures var addr, port := c.routes[i].target, PortAt(c.routes[i], p.dport);
            Delivers(c, k, i, p) <==> !SomeoneStops(c, k, i, p, port) && SomeonePasses(c, i, p, addr, port)
  {
  }

  /** Compiler correctness, for every valid config and every new WAN packet whose port a route owns: it reaches the owner's
      target, at the port its first covering entry maps to, exactly when Delivers says so; at the port it came to, when it was
      on its way into the tunnel to that target already, exactly when Slips does; and nothing else. */
  lemma DeliveryIsExact(c: Config, rs: Ruleset, k: Kernel, i: nat, p: Packet)
    requires Valid(c) && !c.maintenance && Compile(c) == Some(rs) && FromWan(p) && Owns(c, i, p)
    ensures Delivered(rs, k, p) ==
            if Delivers(c, k, i, p) then Some((c.routes[i].target, PortAt(c.routes[i], p.dport)))
            else if Slips(c, k, i, p) then Some((c.routes[i].target, p.dport))
            else None
  {
    var qs, r := Policies(c).value, c.routes[i];
    PreroutingVerdict(c, k, qs, i, p);
    match AdmissionOf(c, k, i, r, p.src)
    case Refused =>
    case Ignored =>
      LeftAlone(c, rs, k, p);
      if p.oif == Tunnel {
        UntouchedForward(c, k, qs, i, p);
      }
    case Admitted =>
      SentOn(c, rs, k, p, r.target, PortAt(r, p.dport));
      OwnersForward(c, k, qs, i, p);
      AdmittedMeaning(c, k, i, p);
  }

  /** A new packet no active route owns reaches no peer, wherever it comes from and goes, and in maintenance mode none does. */
  lemma NothingElseIsDelivered(c: Config, rs: Ruleset, k: Kernel, p: Packet)
    requires Valid(c) && Compile(c) == Some(rs) && p.state == NewFlow && (c.maintenance || forall i: nat :: !Owns(c, i, p))
    ensures Delivered(rs, k, p) == None
  {
    var qs, t, p2 := Policies(c).value, InetTable(c, k), Untouched(p);
    NobodyServes(c, k, qs, p);
    if p.oif == Tunnel && p.iif == Wan {
      ForwardHit(c, qs, t, p2);
      forall j | 0 <= j < |qs| ensures !Passes(qs[j], t, p2) {
        PoliciesAreCompiled(c, |c.routes|, j);
        NobodysPolicy(c, qs[j], p);
      }
    } else if p.oif == Tunnel {
      ForwardIsExact(c, qs, t, p2);
    }
  }

  // ---- The policy as the documentation tells it ----

  predicate NoLimits(c: Config)
  {
    c.rate == RateLimit(0, 0, 0) && forall i | 0 <= i < |c.routes| :: c.routes[i].rate == RateLimit(0, 0, 0)
  }

  // No port a map leads to is also a port of a route without maps.
  ghost predicate InternalPortsApart(c: Config)
  {
    forall i: nat, p: Packet, j: nat | Owns(c, i, p) :: !Mistaken(c, i, p, PortAt(c.routes[i], p.dport), j)
  }

  // Source a may use route i.
  predicate Accepts(c: Config, k: Kernel, i: nat, a: Addr)
    requires i < |c.routes|
  {
    var r := c.routes[i];
    && !InAny(c.deny, a)
    && !InAny(r.deny, a)
    && !Banned(c, k, a)
    && AllowListed(r, a)
    && GeoPasses(c, k, i, r, a)
  }

  // The one active route that owns p's protocol and public port maps it to target and port, and accepts its source.
  ghost predicate Grants(c: Config, k: Kernel, p: Packet, target: Addr, port: nat)
  {
    exists i: nat :: Owns(c, i, p) && c.routes[i].target == target && PortAt(c.routes[i], p.dport) == port && Accepts(c, k, i, p.src)
  }

  // p's port is owned by a route that lists its zones, p's source is outside them and may use the route in every other
  // respect, and p is addressed into the tunnel to the route's target, at one of its internal ports.
  ghost predicate BesideTheZones(c: Config, k: Kernel, p: Packet)
  {
    exists i: nat :: Owns(c, i, p) && OutOfZone(c, k, i, p)
  }

  predicate OutOfZone(c: Config, k: Kernel, i: nat, p: Packet)
    requires i < |c.routes|
  {
    var r := c.routes[i];
    && p.oif == Tunnel && p.dst == r.target && CoveredBy(ForwardPorts(r).ports, p.dport)
    && GeoApplies(c, r) && !c.geo.block && !InZones(k, i, r, p.src) && !Glass(c, p.src)
    && !Denied(c, r, p.src) && AllowListed(r, p.src) && !Banned(c, k, p.src)
  }

  /** With rate limits unset and internal ports apart, a new WAN packet reaches a target and port if and only if the policy
      grants it; and that holds of a packet exactly when it is not one addressed into the tunnel from outside the zones. */
  lemma DeliveryIsThePolicy(c: Config, rs: Ruleset, k: Kernel, p: Packet)
    requires Valid(c) && !c.maintenance && Compile(c) == Some(rs) && FromWan(p) && NoLimits(c) && InternalPortsApart(c)
    ensures (forall target: Addr, port: nat :: Delivered(rs, k, p) == Some((target, port)) <==> Grants(c, k, p, target, port)) <==>
            !BesideTheZones(c, k, p)
  {
    if i: nat :| Owns(c, i, p) {
      DeliveryIsExact(c, rs, k, i, p);
      DeliversSimply(c, k, i, p);
      SlipsSimply(c, k, i, p);
      OwnerGrants(c, k, i, p);
      DiffersWhenSlipping(c, k, i, p, Delivered(rs, k, p));
    } else {
      NothingElseIsDelivered(c, rs, k, p);
    }
  }

  lemma DiffersWhenSlipping(c: Config, k: Kernel, i: nat, p: Packet, d: Option<(Addr, nat)>)
    requires Valid(c) && Owns(c, i, p) && (OutOfZone(c, k, i, p) ==> !Accepts(c, k, i, p.src))
    requires d == if Accepts(c, k, i, p.src) then Some((c.routes[i].target, PortAt(c.routes[i], p.dport)))
                  else if OutOfZone(c, k, i, p) then Some((c.routes[i].target, p.dport)) else None
    ensures (forall target: Addr, port: nat :: d == Some((target, port)) <==> Grants(c, k, p, target, port)) <==> !OutOfZone(c, k, i, p)
  {
    OwnerGrants(c, k, i, p);
    if OutOfZone(c, k, i, p) {
      assert !Grants(c, k, p, c.routes[i].target, p.dport);
    }
  }

  // What the policy says of p is what it says of its one owner.
  lemma OwnerGrants(c: Config, k: Kernel, i: nat, p: Packet)
    requires Valid(c) && Owns(c, i, p)
    ensures BesideTheZones(c, k, p) <==> OutOfZone(c, k, i, p)
    ensures forall target: Addr, port: nat :: Grants(c, k, p, target, port) <==>
              c.routes[i].target == target && PortAt(c.routes[i], p.dport) == port && Accepts(c, k, i, p.src)
  {
    forall j: nat | Owns(c, j, p) ensures j == i {
      OneOwner(c, i, j, p);
    }
  }

  /** So with geo blocking off, or blocking the countries listed, or for a packet not already on its way into the tunnel,
      what is delivered is the policy. */
  lemma DeliveryIsThePolicyOutside(c: Config, rs: Ruleset, k: Kernel, p: Packet, target: Addr, port: nat)
    requires Valid(c) && !c.maintenance && Compile(c) == Some(rs) && FromWan(p) && NoLimits(c) && InternalPortsApart(c)
    requires !c.geo.enabled || c.geo.block || p.oif != Tunnel
    ensures Delivered(rs, k, p) == Some((target, port)) <==> Grants(c, k, p, target, port)
  {
    assert !BesideTheZones(c, k, p);
    DeliveryIsThePolicy(c, rs, k, p);
  }

  lemma SlipsSimply(c: Config, k: Kernel, i: nat, p: Packet)
    requires NoLimits(c) && Owns(c, i, p)
    ensures Slips(c, k, i, p) <==> OutOfZone(c, k, i, p)
    ensures Slips(c, k, i, p) ==> !Accepts(c, k, i, p.src)
  {
  }

  // One route for tcp port 80, for the listed zones only.
  function ZonesOnly(): Config
  {
    var route := Route(false, Words([TcpWord]), [One(Single(80))], [], 100, [], [], Inherit, RateLimit(0, 0, 0));
    Config(Geo(true, false, false, []), false, false, [], RateLimit(0, 0, 0), [route], [], [], 51820, [])
  }

  lemma ZonesOnlyIsValid()
    ensures Valid(ZonesOnly()) && Compile(ZonesOnly()).Some?
  {
    var c := ZonesOnly();
    assert ValidRoute(c.routes[0]);
    ValidCompiles(c);
  }

  // Addressed to the route's target itself.
  function ToTheTarget(): Packet
  {
    Packet(5, 100, Tcp, 80, 80, Wan, Tunnel, NewFlow, true)
  }

  lemma ToTheTargetIsOutside(k: Kernel)
    requires !k.listed(GeoSet, ToTheTarget().src)
    ensures Owns(ZonesOnly(), 0, ToTheTarget()) && OutOfZone(ZonesOnly(), k, 0, ToTheTarget()) && NoLimits(ZonesOnly())
  {
    var r := ZonesOnly().routes[0];
    assert Covers(r.ports[0], 80) && WordProto(r.proto.words[0]) == Some(Tcp);
  }

  /** Whatever is out of the zones reaches the target, though the policy does not accept its source. */
  lemma OutOfZoneIsDelivered(c: Config, rs: Ruleset, k: Kernel, i: nat, p: Packet)
    requires Valid(c) && !c.maintenance && Compile(c) == Some(rs) && FromWan(p) && NoLimits(c) && Owns(c, i, p) && OutOfZone(c, k, i, p)
    ensures Delivered(rs, k, p) == Some((c.routes[i].target, p.dport)) && !Accepts(c, k, i, p.src)
  {
    SlipsSimply(c, k, i, p);
    DeliveryIsExact(c, rs, k, i, p);
  }

  /** A new WAN packet addressed to the route's target itself reaches it from outside the zones. */
  lemma ZonesAreMissed(k: Kernel)
    requires !k.listed(GeoSet, ToTheTarget().src)
    ensures var c, p := ZonesOnly(), ToTheTarget();
            && Valid(c) && Compile(c).Some? && FromWan(p) && Owns(c, 0, p)
            && Delivered(Compile(c).value, k, p) == Some((100, 80)) && !Accepts(c, k, 0, p.src)
  {
    var c, p := ZonesOnly(), ToTheTarget();
    ZonesOnlyIsValid();
    ToTheTargetIsOutside(k);
    OutOfZoneIsDelivered(c, Compile(c).value, k, 0, p);
  }

  lemma OneOwner(c: Config, i: nat, j: nat, p: Packet)
    requires Valid(c) && Owns(c, i, p) && Owns(c, j, p)
    ensures i == j
  {
    assert j < i ==> Apart(c.routes[j], c.routes[i]);
    assert i < j ==> Apart(c.routes[i], c.routes[j]);
  }

  lemma DeliversSimply(c: Config, k: Kernel, i: nat, p: Packet)
    requires NoLimits(c) && InternalPortsApart(c) && Owns(c, i, p)
    ensures Delivers(c, k, i, p) <==> Accepts(c, k, i, p.src)
  {
    AdmissionMeaning(c, k, i, c.routes[i], p.src);
    assert forall j: nat :: !Mistaken(c, i, p, PortAt(c.routes[i], p.dport), j);
  }

  // ---- Counting ----

  predicate CountsIt(q: Policy, p: Packet)
  {
    ForPolicy(q, p) && p.dst == q.target && CoveredBy(q.ports, p.orig)
  }

  lemma CountRuleHolds(q: Policy, t: Table, p: Packet)
    requires ToTunnel(p) && (q.forward.orig.Some? ==> q.forward.orig.value == q.ports)
    ensures AllHold(CountRule(q).matches, t, p) <==> CountsIt(q, p)
  {
    TunnelScope(t, p);
    AllHoldOne(Dst(q.target), t, p);
    ForwardMatchHolds(q, t, p);
    TwoHold(Dport(q.proto, q.forward.ports), OrigDport(q.ports), t, p);
    var ports := if q.forward.orig == None then [Dport(q.proto, q.forward.ports), OrigDport(q.ports)] else ForwardMatch(q);
    ThreeParts(TO_TUNNEL, [Dst(q.target)], ports, t, p);
  }

  lemma CountOne(q: Policy, t: Table, p: Packet)
    requires ToTunnel(p) && (q.forward.orig.Some? ==> q.forward.orig.value == q.ports)
    ensures Counted([CountRule(q)], t, p) == if CountsIt(q, p) then [(Some(q.route), q.proto)] else []
  {
    CountRuleHolds(q, t, p);
    assert [CountRule(q)][1..] == [];
  }

  lemma {:induction false} CountOnly(qs: seq<Policy>, t: Table, p: Packet, m: int)
    requires ToTunnel(p) && forall j | 0 <= j < |qs| :: qs[j].forward.orig.Some? ==> qs[j].forward.orig.value == qs[j].ports
    requires forall j | 0 <= j < |qs| :: CountsIt(qs[j], p) <==> j == m
    ensures Counted(CountChain(qs), t, p) == if 0 <= m < |qs| then [(Some(qs[m].route), qs[m].proto)] else []
  {
    if qs != [] {
      var last := |qs| - 1;
      CountOnly(qs[..last], t, p, m);
      CountOne(qs[last], t, p);
      CountedConcat(CountChain(qs[..last]), [CountRule(qs[last])], t, p);
    }
  }

  lemma OwnerCounts(c: Config, q: Policy, i: nat, p: Packet)
    requires Valid(c) && Compiled(c, q) && Owns(c, i, p)
    ensures var r := c.routes[i];
            CountsIt(q, Translated(p, r.target, PortAt(r, p.dport))) <==> Serves(c, q, p) && q.route == i
    ensures Serves(c, q, p) ==> q.route == i
  {
    var r := c.routes[i];
    ForPolicyMeaning(c, q, i, p, r.target, PortAt(r, p.dport));
    ClaimsAreEntries(r, p.dport);
    ClaimsAreEntries(c.routes[q.route], p.dport);
    if Serves(c, q, p) {
      OneOwner(c, i, q.route, p);
    }
  }

  lemma OwnerIsCounted(c: Config, qs: seq<Policy>, t: Table, i: nat, p: Packet)
    requires Valid(c) && !c.maintenance && Policies(c) == Some(qs) && FromWan(p) && Owns(c, i, p)
    ensures var r := c.routes[i];
            Counted(CountChain(qs), t, Translated(p, r.target, PortAt(r, p.dport))) == [(Some(i), p.proto)]
  {
    var p2 := Translated(p, c.routes[i].target, PortAt(c.routes[i], p.dport));
    var m := PolicyOfOwner(c, qs, i, p);
    forall j | 0 <= j < |qs| ensures CountsIt(qs[j], p2) <==> j == m {
      OwnerCounts(c, qs[j], i, p);
    }
    CountOnly(qs, t, p2, m);
  }

  lemma SlippedIsCounted(c: Config, qs: seq<Policy>, t: Table, k: Kernel, i: nat, p: Packet)
    requires Valid(c) && !c.maintenance && Policies(c) == Some(qs) && FromWan(p) && Owns(c, i, p) && Slips(c, k, i, p)
    ensures Counted(CountChain(qs), t, Untouched(p)) == [(Some(i), p.proto)]
  {
    var m := PolicyOfOwner(c, qs, i, p);
    forall j | 0 <= j < |qs| ensures CountsIt(qs[j], Untouched(p)) <==> j == m {
      ForPolicyUntouched(c, qs[j], i, p);
      OwnerCounts(c, qs[j], i, p);
      ClaimsAreEntries(c.routes[i], p.dport);
    }
    CountOnly(qs, t, Untouched(p), m);
  }

  /** Every delivered packet increments exactly one counter, that of the route that owns its public port, also when
      port maps send two routes to one target and port. */
  lemma DeliveredIsCountedOnce(c: Config, rs: Ruleset, k: Kernel, p: Packet)
    requires Valid(c) && Compile(c) == Some(rs) && FromWan(p) && Delivered(rs, k, p).Some?
    ensures exists i: nat :: Owns(c, i, p) && Counted(rs.counts, Table([], k), AfterNat(rs, k, p).value) == [(Some(i), p.proto)]
  {
    var qs := Policies(c).value;
    if c.maintenance || forall i: nat :: !Owns(c, i, p) {
      NothingElseIsDelivered(c, rs, k, p);
    } else {
      var i: nat :| Owns(c, i, p);
      DeliveryIsExact(c, rs, k, i, p);
      PreroutingVerdict(c, k, qs, i, p);
      if Delivers(c, k, i, p) {
        OwnerIsCounted(c, qs, Table([], k), i, p);
      } else {
        SlippedIsCounted(c, qs, Table([], k), k, i, p);
      }
    }
  }
}

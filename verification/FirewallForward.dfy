/** What the forward chain does with a packet, whichever way it goes and whatever conntrack knows of it. */
module FirewallForward {
  import opened Common
  import opened Ports
  import opened Routes
  import opened Nft
  import opened Firewall
  import opened FirewallMeaning
  import opened FirewallDelivery

  predicate ToTunnel(p: Packet)
  {
    p.iif == Wan && p.oif == Tunnel
  }

  // p's protocol and ports are those of the policy in the forward chain.
  predicate ForPolicy(q: Policy, p: Packet)
  {
    && p.proto == q.proto
    && CoveredBy(q.forward.ports, p.dport)
    && (q.forward.orig.Some? ==> CoveredBy(q.forward.orig.value, p.orig))
  }

  predicate InGlass(q: Policy, t: Table, a: Addr)
  {
    q.breakGlass.Some? && Contains(t, q.breakGlass.value, a)
  }

  // A rate limit of the policy stops p: connections are counted for new and known flows, SYNs of new ones only, and every
  // UDP packet.
  predicate Limited(q: Policy, t: Table, p: Packet)
  {
    && !InGlass(q, t, p.src)
    && (|| (ConnBound(q) && p.state != NoFlow && t.kernel.over(ConnMeter(q.route, q.proto), p.src))
        || (q.proto == Tcp && SynBinding(q).Some? && p.syn && p.state == NewFlow && t.kernel.over(SynBinding(q).value, p.src))
        || (q.proto == Udp && UdpBinding(q).Some? && t.kernel.over(UdpBinding(q).value, p.src)))
  }

  predicate Blocked(q: Policy, t: Table, p: Packet)
  {
    || (q.globalDeny.Some? && Contains(t, q.globalDeny.value, p.src))
    || (q.deny.Some? && Contains(t, q.deny.value, p.src))
    || (q.crowdsec.Some? && Contains(t, q.crowdsec.value, p.src) && !InGlass(q, t, p.src))
    || Limited(q, t, p)
  }

  lemma TwoHold(a: Match, b: Match, t: Table, p: Packet)
    ensures AllHold([a, b], t, p) <==> Holds(a, t, p) && Holds(b, t, p)
  {
    assert [a, b] == [a] + [b];
    AllHoldOne(a, t, p);
    AllHoldOne(b, t, p);
    AllHoldConcat([a], [b], t, p);
  }

  lemma ForwardMatchHolds(q: Policy, t: Table, p: Packet)
    ensures AllHold(ForwardMatch(q), t, p) <==> ForPolicy(q, p)
  {
    AllHoldOne(Dport(q.proto, q.forward.ports), t, p);
    if q.forward.orig.Some? {
      TwoHold(Dport(q.proto, q.forward.ports), OrigDport(q.forward.orig.value), t, p);
      assert ForwardMatch(q) == [Dport(q.proto, q.forward.ports), OrigDport(q.forward.orig.value)];
    } else {
      assert ForwardMatch(q) == [Dport(q.proto, q.forward.ports)];
    }
  }

  // ---- Rate limits ----

  lemma ConnRuleHit(head: seq<Match>, flag: Match, over: Match, i: nat, t: Table, p: Packet)
    ensures VerdictOf([Rule(head + [flag, over], Drop, Some(i))], t, p) ==
            if AllHold(head, t, p) && Holds(flag, t, p) && Holds(over, t, p) then Some(Drop) else None
  {
    HitOne(Rule(head + [flag, over], Drop, Some(i)), t, p);
    TwoHold(flag, over, t, p);
    AllHoldConcat(head, [flag, over], t, p);
  }

  // A counter's rule for known flows, and the one for new ones.
  lemma KnownHits(head: seq<Match>, meter: SetName, i: nat, t: Table, p: Packet)
    ensures VerdictOf([Rule(head + [Known, Over(meter)], Drop, Some(i))], t, p) ==
            if AllHold(head, t, p) && t.kernel.over(meter, p.src) && p.state == KnownFlow then Some(Drop) else None
  {
    ConnRuleHit(head, Known, Over(meter), i, t, p);
  }

  lemma FreshHits(head: seq<Match>, meter: SetName, i: nat, t: Table, p: Packet)
    ensures VerdictOf([Rule(head + [Fresh, Over(meter)], Drop, Some(i))], t, p) ==
            if AllHold(head, t, p) && t.kernel.over(meter, p.src) && p.state == NewFlow then Some(Drop) else None
  {
    ConnRuleHit(head, Fresh, Over(meter), i, t, p);
  }

  lemma EitherFlow(a: seq<Rule>, b: seq<Rule>, over: bool, t: Table, p: Packet)
    requires VerdictOf(a, t, p) == if over && p.state == KnownFlow then Some(Drop) else None
    requires VerdictOf(b, t, p) == if over && p.state == NewFlow then Some(Drop) else None
    ensures VerdictOf(a + b, t, p) == if over && p.state != NoFlow then Some(Drop) else None
  {
    VerdictConcat(a, b, t, p);
  }

  lemma ConnRulesHit(q: Policy, head: seq<Match>, t: Table, p: Packet)
    ensures VerdictOf(ConnRules(q, head), t, p) ==
            if ConnBound(q) && AllHold(head, t, p) && p.state != NoFlow && t.kernel.over(ConnMeter(q.route, q.proto), p.src)
            then Some(Drop) else None
  {
    if ConnBound(q) {
      var meter := ConnMeter(q.route, q.proto);
      var a, b := [Rule(head + [Known, Over(meter)], Drop, Some(q.route))], [Rule(head + [Fresh, Over(meter)], Drop, Some(q.route))];
      assert ConnRules(q, head) == a + b;
      KnownHits(head, meter, q.route, t, p);
      FreshHits(head, meter, q.route, t, p);
      EitherFlow(a, b, AllHold(head, t, p) && t.kernel.over(meter, p.src), t, p);
    }
  }

  lemma MeterRuleHit(q: Policy, meter: Option<SetName>, head: seq<Match>, t: Table, p: Packet)
    ensures VerdictOf(MeterRule(q, meter, head), t, p) ==
            if meter.Some? && AllHold(head, t, p) && t.kernel.over(meter.value, p.src) then Some(Drop) else None
  {
    if meter.Some? {
      HitOne(Rule(head + [Over(meter.value)], Drop, Some(q.route)), t, p);
      AllHoldOne(Over(meter.value), t, p);
      AllHoldConcat(head, [Over(meter.value)], t, p);
    }
  }

  lemma SynRuleHit(q: Policy, meter: Option<SetName>, head: seq<Match>, t: Table, p: Packet)
    ensures VerdictOf(MeterRule(q, meter, head + [SynFlag, Fresh]), t, p) ==
            if meter.Some? && AllHold(head, t, p) && p.syn && p.state == NewFlow && t.kernel.over(meter.value, p.src) then Some(Drop) else None
  {
    TwoHold(SynFlag, Fresh, t, p);
    AllHoldConcat(head, [SynFlag, Fresh], t, p);
    MeterRuleHit(q, meter, head + [SynFlag, Fresh], t, p);
  }

  // The meters' rules after matches head.
  lemma MetersHit(q: Policy, head: seq<Match>, t: Table, p: Packet)
    requires !InGlass(q, t, p.src)
    ensures var syn, udp := if q.proto == Tcp then SynBinding(q) else None, if q.proto == Udp then UdpBinding(q) else None;
            VerdictOf(ConnRules(q, head) + MeterRule(q, syn, head + [SynFlag, Fresh]) + MeterRule(q, udp, head), t, p) ==
            if AllHold(head, t, p) && Limited(q, t, p) then Some(Drop) else None
  {
    var syn, udp := if q.proto == Tcp then SynBinding(q) else None, if q.proto == Udp then UdpBinding(q) else None;
    ConnRulesHit(q, head, t, p);
    SynRuleHit(q, syn, head, t, p);
    MeterRuleHit(q, udp, head, t, p);
    ThreeVerdicts(ConnRules(q, head), MeterRule(q, syn, head + [SynFlag, Fresh]), MeterRule(q, udp, head), t, p);
  }

  // Nothing after matches that do not hold.
  lemma MetersMiss(q: Policy, head: seq<Match>, t: Table, p: Packet)
    requires !AllHold(head, t, p)
    ensures var syn, udp := if q.proto == Tcp then SynBinding(q) else None, if q.proto == Udp then UdpBinding(q) else None;
            VerdictOf(ConnRules(q, head) + MeterRule(q, syn, head + [SynFlag, Fresh]) + MeterRule(q, udp, head), t, p) == None
  {
    var syn, udp := if q.proto == Tcp then SynBinding(q) else None, if q.proto == Udp then UdpBinding(q) else None;
    ConnRulesHit(q, head, t, p);
    SynRuleHit(q, syn, head, t, p);
    MeterRuleHit(q, udp, head, t, p);
    ThreeVerdicts(ConnRules(q, head), MeterRule(q, syn, head + [SynFlag, Fresh]), MeterRule(q, udp, head), t, p);
  }

  lemma RateRulesHit(q: Policy, scope: seq<Match>, ports: seq<Match>, t: Table, p: Packet)
    ensures VerdictOf(RateRules(q, scope, ports), t, p) ==
            if AllHold(scope, t, p) && AllHold(ports, t, p) && Limited(q, t, p) then Some(Drop) else None
  {
    var head := scope + NotSrcMatch(q.breakGlass) + ports;
    ThreeParts(scope, NotSrcMatch(q.breakGlass), ports, t, p);
    SrcMatchHolds(q.breakGlass, t, p);
    if AllHold(head, t, p) {
      MetersHit(q, head, t, p);
    } else {
      MetersMiss(q, head, t, p);
    }
  }

  // ---- Drops ----

  lemma TunnelScope(t: Table, p: Packet)
    ensures AllHold(TO_TUNNEL, t, p) <==> ToTunnel(p)
  {
    TwoHold(In(Wan), Out(Tunnel), t, p);
  }

  lemma CrowdsecHit(q: Policy, scope: seq<Match>, ports: seq<Match>, t: Table, p: Packet)
    ensures VerdictOf(if q.crowdsec.Some? then [Rule(scope + [Src(q.crowdsec.value)] + NotSrcMatch(q.breakGlass) + ports, Drop, Some(q.route))] else [], t, p) ==
            if q.crowdsec.Some? && AllHold(scope, t, p) && AllHold(ports, t, p) && Contains(t, q.crowdsec.value, p.src) && !InGlass(q, t, p.src)
            then Some(Drop) else None
  {
    if q.crowdsec.Some? {
      var s := Src(q.crowdsec.value);
      HitOne(Rule(scope + [s] + NotSrcMatch(q.breakGlass) + ports, Drop, Some(q.route)), t, p);
      ThreeParts(scope + [s], NotSrcMatch(q.breakGlass), ports, t, p);
      AllHoldConcat(scope, [s], t, p);
      AllHoldOne(s, t, p);
      SrcMatchHolds(q.breakGlass, t, p);
    }
  }

  // q's rules stop p.
  predicate Stops(q: Policy, t: Table, p: Packet)
  {
    ForPolicy(q, p) && Blocked(q, t, p)
  }

  lemma ForwardDropsHit(q: Policy, t: Table, p: Packet)
    ensures VerdictOf(ForwardDrops(q), t, p) == if ToTunnel(p) && Stops(q, t, p) then Some(Drop) else None
  {
    var ports := ForwardMatch(q);
    TunnelScope(t, p);
    ForwardMatchHolds(q, t, p);
    var a, b := DropIn(q.globalDeny, TO_TUNNEL, ports, q.route), DropIn(q.deny, TO_TUNNEL, ports, q.route);
    var d := if q.crowdsec.Some? then [Rule(TO_TUNNEL + [Src(q.crowdsec.value)] + NotSrcMatch(q.breakGlass) + ports, Drop, Some(q.route))] else [];
    var e := RateRules(q, TO_TUNNEL, ports);
    DropInHit(q.globalDeny, TO_TUNNEL, ports, q.route, t, p);
    DropInHit(q.deny, TO_TUNNEL, ports, q.route, t, p);
    CrowdsecHit(q, TO_TUNNEL, ports, t, p);
    RateRulesHit(q, TO_TUNNEL, ports, t, p);
    FourVerdicts(a, b, d, e, t, p);
    assert ForwardDrops(q) == a + b + d + e;
  }

  lemma FourVerdicts(a: seq<Rule>, b: seq<Rule>, d: seq<Rule>, e: seq<Rule>, t: Table, p: Packet)
    ensures VerdictOf(a + b + d + e, t, p) ==
            if VerdictOf(a, t, p).Some? then VerdictOf(a, t, p)
            else if VerdictOf(b, t, p).Some? then VerdictOf(b, t, p)
            else if VerdictOf(d, t, p).Some? then VerdictOf(d, t, p)
            else VerdictOf(e, t, p)
  {
    VerdictConcat(a, b, t, p);
    VerdictConcat(a + b, d, t, p);
    VerdictConcat(a + b + d, e, t, p);
  }

  lemma DropsStep(qs: seq<Policy>, t: Table, p: Packet)
    requires qs != []
    ensures var before := VerdictOf(AllForwardDrops(qs[..|qs| - 1]), t, p);
            VerdictOf(AllForwardDrops(qs), t, p) ==
            if before.Some? then before else if ToTunnel(p) && Stops(qs[|qs| - 1], t, p) then Some(Drop) else None
  {
    ForwardDropsHit(qs[|qs| - 1], t, p);
    VerdictConcat(AllForwardDrops(qs[..|qs| - 1]), ForwardDrops(qs[|qs| - 1]), t, p);
  }

  ghost predicate AnyStops(qs: seq<Policy>, t: Table, p: Packet)
  {
    exists j | 0 <= j < |qs| :: Stops(qs[j], t, p)
  }

  lemma AnyStopsSnoc(qs: seq<Policy>, t: Table, p: Packet)
    requires qs != []
    ensures AnyStops(qs, t, p) <==> AnyStops(qs[..|qs| - 1], t, p) || Stops(qs[|qs| - 1], t, p)
  {
    var before := qs[..|qs| - 1];
    if j :| 0 <= j < |before| && Stops(before[j], t, p) {
      assert Stops(qs[j], t, p);
    }
    if j :| 0 <= j < |qs| && Stops(qs[j], t, p) {
      assert j < |before| ==> Stops(before[j], t, p);
    }
  }

  lemma {:induction false} AllDropsHit(qs: seq<Policy>, t: Table, p: Packet)
    ensures VerdictOf(AllForwardDrops(qs), t, p) == if ToTunnel(p) && AnyStops(qs, t, p) then Some(Drop) else None
  {
    if qs != [] {
      var before, last := qs[..|qs| - 1], qs[|qs| - 1];
      AllDropsHit(before, t, p);
      DropsStep(qs, t, p);
      AnyStopsSnoc(qs, t, p);
    }
  }

  // ---- Accepts ----

  predicate Passes(q: Policy, t: Table, p: Packet)
  {
    ForPolicy(q, p) && p.dst == q.target && (q.allow.Some? ==> Contains(t, q.allow.value, p.src))
  }

  lemma ForwardAcceptHit(q: Policy, t: Table, p: Packet)
    ensures VerdictOf([ForwardAccept(q)], t, p) == if ToTunnel(p) && Passes(q, t, p) then Some(Accept) else None
  {
    HitOne(ForwardAccept(q), t, p);
    TunnelScope(t, p);
    ForwardMatchHolds(q, t, p);
    SrcMatchHolds(q.allow, t, p);
    AllHoldOne(Dst(q.target), t, p);
    ThreeParts(TO_TUNNEL + SrcMatch(q.allow), [Dst(q.target)], ForwardMatch(q), t, p);
    AllHoldConcat(TO_TUNNEL, SrcMatch(q.allow), t, p);
  }

  ghost predicate AnyPasses(qs: seq<Policy>, t: Table, p: Packet)
  {
    exists m | 0 <= m < |qs| :: Passes(qs[m], t, p)
  }

  lemma {:induction false} AllAcceptsHit(qs: seq<Policy>, t: Table, p: Packet)
    ensures VerdictOf(AllForwardAccepts(qs), t, p) == if ToTunnel(p) && AnyPasses(qs, t, p) then Some(Accept) else None
  {
    if qs != [] {
      var before, last := qs[..|qs| - 1], qs[|qs| - 1];
      AllAcceptsHit(before, t, p);
      ForwardAcceptHit(last, t, p);
      VerdictConcat(AllForwardAccepts(before), [ForwardAccept(last)], t, p);
      assert forall j | 0 <= j < |before| :: before[j] == qs[j];
    }
  }

  // ---- The chain ----

  // Traffic of the local containers: from the WAN to their ranges beside the tunnel, or from their ranges to the WAN.
  predicate LocalTraffic(locals: seq<Cidr>, p: Packet)
  {
    (p.iif == Wan && p.oif != Tunnel && InAny(locals, p.dst)) || (p.oif == Wan && InAny(locals, p.src))
  }

  lemma InAnySnoc(cidrs: seq<Cidr>, a: Addr)
    requires cidrs != []
    ensures var last := cidrs[|cidrs| - 1]; InAny(cidrs, a) <==> InAny(cidrs[..|cidrs| - 1], a) || last.first <= a <= last.last
  {
    var before := cidrs[..|cidrs| - 1];
    if i :| 0 <= i < |before| && before[i].first <= a <= before[i].last {
      assert cidrs[i] == before[i];
    }
    if i :| 0 <= i < |cidrs| && cidrs[i].first <= a <= cidrs[i].last {
      assert i < |before| ==> before[i] == cidrs[i];
    }
  }

  lemma ThreeHold(a: Match, b: Match, c: Match, t: Table, p: Packet)
    ensures AllHold([a, b, c], t, p) <==> Holds(a, t, p) && Holds(b, t, p) && Holds(c, t, p)
  {
    assert [a, b, c] == [a] + [b, c];
    AllHoldOne(a, t, p);
    TwoHold(b, c, t, p);
    AllHoldConcat([a], [b, c], t, p);
  }

  lemma OneLocalHit(c: Cidr, t: Table, p: Packet)
    ensures VerdictOf([Rule([In(Wan), NotOut(Tunnel), DstIn(c)], Accept, None), Rule([SrcIn(c), Out(Wan)], Accept, None)], t, p) ==
            if (p.iif == Wan && p.oif != Tunnel && c.first <= p.dst <= c.last) || (p.oif == Wan && c.first <= p.src <= c.last)
            then Some(Accept) else None
  {
    var a, b := Rule([In(Wan), NotOut(Tunnel), DstIn(c)], Accept, None), Rule([SrcIn(c), Out(Wan)], Accept, None);
    ThreeHold(In(Wan), NotOut(Tunnel), DstIn(c), t, p);
    TwoHold(SrcIn(c), Out(Wan), t, p);
    HitOne(a, t, p);
    HitOne(b, t, p);
    assert [a, b] == [a] + [b];
    VerdictConcat([a], [b], t, p);
  }

  lemma {:induction false} LocalsHit(locals: seq<Cidr>, t: Table, p: Packet)
    ensures VerdictOf(LocalRules(locals), t, p) == if LocalTraffic(locals, p) then Some(Accept) else None
  {
    if locals != [] {
      var before, c := locals[..|locals| - 1], locals[|locals| - 1];
      LocalsHit(before, t, p);
      OneLocalHit(c, t, p);
      VerdictConcat(LocalRules(before), [Rule([In(Wan), NotOut(Tunnel), DstIn(c)], Accept, None), Rule([SrcIn(c), Out(Wan)], Accept, None)], t, p);
      InAnySnoc(locals, p.dst);
      InAnySnoc(locals, p.src);
    }
  }

  lemma TailHit(t: Table, p: Packet)
    ensures VerdictOf([Rule([In(Tunnel), Out(Wan), Known], Accept, None), Rule([Sampled], Drop, None)], t, p) == Some(Accept) <==>
            p.iif == Tunnel && p.oif == Wan && p.state == KnownFlow
  {
    var a, b := Rule([In(Tunnel), Out(Wan), Known], Accept, None), Rule([Sampled], Drop, None);
    assert [a, b] == [a] + [b];
    VerdictConcat([a], [b], t, p);
    HitOne(a, t, p);
    HitOne(b, t, p);
    ThreeHold(In(Tunnel), Out(Wan), Known, t, p);
  }

  /** The whole chain, for every packet: it passes local traffic; of the rest what conntrack knows, unless it goes from the
      WAN into the tunnel and some policy's rules stop it; and of the rest what goes that way, some policy's rule passes,
      and none stops. */
  lemma ForwardIsExact(c: Config, qs: seq<Policy>, t: Table, p: Packet)
    ensures VerdictOf(ForwardChain(c, qs), t, p) == Some(Accept) <==>
            || LocalTraffic(c.locals, p)
            || (p.state == KnownFlow && !(ToTunnel(p) && AnyStops(qs, t, p)))
            || (ToTunnel(p) && !AnyStops(qs, t, p) && AnyPasses(qs, t, p))
  {
    var known := [Rule([Known], Accept, None)];
    var tail := [Rule([In(Tunnel), Out(Wan), Known], Accept, None), Rule([Sampled], Drop, None)];
    LocalsHit(c.locals, t, p);
    AllDropsHit(qs, t, p);
    AllAcceptsHit(qs, t, p);
    HitOne(known[0], t, p);
    AllHoldOne(Known, t, p);
    TailHit(t, p);
    var drops, accepts := AllForwardDrops(qs), AllForwardAccepts(qs);
    FourVerdicts(LocalRules(c.locals), drops, known, accepts, t, p);
    VerdictConcat(LocalRules(c.locals) + drops + known + accepts, tail, t, p);
  }

  /** So a new packet passes into the tunnel exactly when no policy's rules stop it and some policy's rule passes it. */
  lemma ForwardHit(c: Config, qs: seq<Policy>, t: Table, p: Packet)
    requires ToTunnel(p) && p.state == NewFlow
    ensures VerdictOf(ForwardChain(c, qs), t, p) == Some(Accept) <==> !AnyStops(qs, t, p) && AnyPasses(qs, t, p)
  {
    ForwardIsExact(c, qs, t, p);
  }
}

/** What the gateway forwards of the flows conntrack knows, and of what does not go from the WAN to a peer. */
module FirewallReplies {
  import opened Common
  import opened Ports
  import opened Routes
  import opened Nft
  import opened Firewall
  import opened FirewallMeaning
  import opened FirewallForward
  import opened FirewallTheorem

  // In the forward chain p looks like traffic of active route j: its port is one of the route's internal ports, and with
  // port maps the port conntrack saw first is one of its public ones.
  predicate LooksLike(c: Config, j: nat, p: Packet)
  {
    && j < |c.routes|
    && var r := c.routes[j];
       && !r.disabled && Speaks(r.proto, p.proto) && CoveredBy(ForwardPorts(r).ports, p.dport)
       && (r.maps != [] ==> CoveredBy(r.ports, p.orig))
  }

  // Source a of a known flow is denied, banned, or over a limit that counts known flows: connections, and UDP packets.
  predicate CutOff(c: Config, k: Kernel, j: nat, proto: Proto, a: Addr)
    requires j < |c.routes|
  {
    var r, all := c.routes[j], c.rate;
    || InAny(c.deny, a)
    || InAny(r.deny, a)
    || (c.crowdsec && k.listed(CrowdsecBlock, a) && !InAny(c.geo.breakGlass, a))
    || (!InAny(c.geo.breakGlass, a) && (r.rate.conn > 0 || all.conn > 0) && k.over(ConnMeter(j, proto), a))
    || (!InAny(c.geo.breakGlass, a) && proto == Udp &&
        (if r.rate.udp > 0 then k.over(RouteUdpMeter(j), a) else all.udp > 0 && k.over(UdpMeter, a)))
  }

  lemma LooksLikeMeaning(c: Config, q: Policy, p: Packet)
    requires Compiled(c, q)
    ensures ForPolicy(q, p) <==> q.proto == p.proto && LooksLike(c, q.route, p)
  {
  }

  lemma CutOffMeaning(c: Config, k: Kernel, q: Policy, p: Packet)
    requires Compiled(c, q) && q.proto == p.proto && p.state == KnownFlow
    ensures Blocked(q, InetTable(c, k), p) <==> CutOff(c, k, q.route, p.proto, p.src)
  {
    InetAnswers(c, k, q, p.src);
    BlockedMeaning(c, k, q, InetTable(c, k), p);
  }

  lemma KnownStops(c: Config, k: Kernel, qs: seq<Policy>, p: Packet)
    requires Policies(c) == Some(qs) && p.state == KnownFlow
    ensures AnyStops(qs, InetTable(c, k), p) <==>
            !c.maintenance && exists j: nat :: LooksLike(c, j, p) && CutOff(c, k, j, p.proto, p.src)
  {
    var t := InetTable(c, k);
    if m :| 0 <= m < |qs| && Stops(qs[m], t, p) {
      PoliciesAreCompiled(c, |c.routes|, m);
      LooksLikeMeaning(c, qs[m], p);
      CutOffMeaning(c, k, qs[m], p);
    }
    if !c.maintenance {
      if j: nat :| LooksLike(c, j, p) && CutOff(c, k, j, p.proto, p.src) {
        var m := PolicyOfRoute(c, qs, j, p.proto);
        LooksLikeMeaning(c, qs[m], p);
        CutOffMeaning(c, k, qs[m], p);
        assert Stops(qs[m], t, p);
      }
    }
  }

  /** Every packet of a known flow is forwarded, except one from the WAN into the tunnel whose source is cut off by a route it
      looks like traffic of. */
  lemma KnownIsExact(c: Config, rs: Ruleset, k: Kernel, p: Packet)
    requires Compile(c) == Some(rs) && p.state == KnownFlow
    ensures VerdictOf(rs.forward, InetTable(c, k), p) == Some(Accept) <==>
            !(p.iif == Wan && p.oif == Tunnel && !c.maintenance && exists j: nat :: LooksLike(c, j, p) && CutOff(c, k, j, p.proto, p.src))
  {
    var qs := Policies(c).value;
    ForwardIsExact(c, qs, InetTable(c, k), p);
    KnownStops(c, k, qs, p);
  }

  /** So every reply of a peer leaves through the WAN, whoever it answers. */
  lemma RepliesLeave(c: Config, rs: Ruleset, k: Kernel, p: Packet)
    requires Compile(c) == Some(rs) && p.state == KnownFlow && p.iif == Tunnel && p.oif == Wan
    ensures VerdictOf(rs.forward, InetTable(c, k), p) == Some(Accept)
  {
    KnownIsExact(c, rs, k, p);
  }

  /** Of what belongs to no known flow and does not go from the WAN into the tunnel, exactly the local containers' traffic is
      forwarded: what comes from the WAN to their ranges, and what leaves their ranges for the WAN. */
  lemma LocalIsExact(c: Config, rs: Ruleset, k: Kernel, p: Packet)
    requires Compile(c) == Some(rs) && p.state != KnownFlow && !(p.iif == Wan && p.oif == Tunnel)
    ensures VerdictOf(rs.forward, InetTable(c, k), p) == Some(Accept) <==>
            (p.iif == Wan && InAny(c.locals, p.dst)) || (p.oif == Wan && InAny(c.locals, p.src))
  {
    ForwardIsExact(c, Policies(c).value, InetTable(c, k), p);
  }
}

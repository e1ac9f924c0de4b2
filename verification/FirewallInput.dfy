/** What the input chain lets through to the host itself: the ports the config opens, and the routes' public ports for the
    sources a route accepts. */
module FirewallInput {
  import opened Common
  import opened Ports
  import opened Routes
  import opened Nft
  import opened Firewall
  import opened FirewallMeaning
  import opened FirewallDelivery
  import opened FirewallForward
  import opened FirewallTheorem
  import opened FirewallSets

  // ---- The policy ----

  // An enabled entry for p's protocol and port.
  predicate OpensPort(a: InputAllow, p: Packet)
  {
    !a.disabled && WordProto(a.proto) == Some(p.proto) && Covers(a.port, p.dport)
  }

  // Some enabled entry of input_allows opens p's port.
  predicate Opened(allows: seq<InputAllow>, p: Packet)
  {
    exists i | 0 <= i < |allows| :: OpensPort(allows[i], p)
  }

  // Geo blocking, where it is on for input_allows, lets source a through.
  predicate InputGeoPasses(c: Config, k: Kernel, a: Addr)
  {
    (c.geo.enabled && c.geo.onInput) ==> Glass(c, a) || (if c.geo.block then !k.listed(GeoSet, a) else k.listed(GeoSet, a))
  }

  // The host's own ports: admin ports and WireGuard.
  predicate OwnPort(c: Config, p: Packet)
  {
    (p.proto == Tcp && p.dport in c.adminPorts) || (p.proto == Udp && p.dport == c.listenPort)
  }

  // Route i owns p's port and lets its source through.
  predicate LetsIn(c: Config, k: Kernel, i: nat, p: Packet)
  {
    Owns(c, i, p) && AdmissionOf(c, k, i, c.routes[i], p.src) == Admitted && !Banned(c, k, p.src) && !RateLimited(c, k, i, p)
  }

  predicate ToHost(p: Packet)
  {
    p.state != KnownFlow && p.iif != Loopback
  }

  // ---- One policy ----

  // The log of a drop decides nothing.
  lemma GeoLogHit(ms: seq<Match>, route: Option<nat>, t: Table, p: Packet)
    ensures VerdictOf(GeoLogDrop(ms, route), t, p) == if AllHold(ms, t, p) then Some(Drop) else None
  {
    var log, drop := Rule(ms + [Sampled], Log, route), Rule(ms, Drop, route);
    HitOne(log, t, p);
    HitOne(drop, t, p);
    VerdictConcat([log], [drop], t, p);
    assert GeoLogDrop(ms, route) == [log] + [drop];
  }

  // Without denials the geo part accepts exactly the sources that are admitted.
  predicate PartLetsIn(q: Policy, ports: seq<Match>, t: Table, p: Packet)
  {
    VerdictOf(InputGeoPart(q, ports), t, p) == Some(Accept) <==>
    Decision(q, SourceOf(q, t, p.src).(globalDeny := false, deny := false)) == Admitted
  }

  lemma BlockListedLetsIn(q: Policy, ports: seq<Match>, t: Table, p: Packet)
    requires q.geo.BlockListed? && AllHold(ports, t, p)
    ensures PartLetsIn(q, ports, t, p)
  {
    var ms := [Src(q.geo.name)] + NotSrcMatch(q.breakGlass) + ports;
    GeoLogHit(ms, Some(q.route), t, p);
    AllHoldOne(Src(q.geo.name), t, p);
    SrcMatchHolds(q.breakGlass, t, p);
    ThreeParts([Src(q.geo.name)], NotSrcMatch(q.breakGlass), ports, t, p);
    AllowHit(q.allow, None, ports, Accept, q.route, t, p);
    VerdictConcat(GeoLogDrop(ms, Some(q.route)), AllowRule(q.allow, None, ports, Accept, q.route), t, p);
  }

  lemma OnlyListedLetsIn(q: Policy, ports: seq<Match>, t: Table, p: Packet)
    requires q.geo.OnlyListed? && AllHold(ports, t, p)
    ensures PartLetsIn(q, ports, t, p)
  {
    var allow := AllowRule(q.allow, Some(q.geo.name), ports, Accept, q.route);
    AllowHit(q.allow, Some(q.geo.name), ports, Accept, q.route, t, p);
    if q.breakGlass.Some? {
      GlassHit(q, ports, Accept, t, p);
      VerdictConcat(allow, [Rule([Src(q.breakGlass.value)] + ports, Accept, Some(q.route))], t, p);
    } else {
      GeoLogHit(ports + [NotSrc(q.geo.name)], Some(q.route), t, p);
      VerdictConcat(allow, GeoLogDrop(ports + [NotSrc(q.geo.name)], Some(q.route)), t, p);
    }
  }

  lemma GeoPartLetsIn(q: Policy, ports: seq<Match>, t: Table, p: Packet)
    requires AllHold(ports, t, p)
    ensures PartLetsIn(q, ports, t, p)
  {
    match q.geo
    case NoGeo => AllowHit(q.allow, None, ports, Accept, q.route, t, p);
    case BlockListed(_) => BlockListedLetsIn(q, ports, t, p);
    case OnlyListed(_) => OnlyListedLetsIn(q, ports, t, p);
  }

  // The rules of an input policy before its geo part stop what the policy blocks.
  function InputDrops(q: Policy, ports: seq<Match>): seq<Rule>
  {
    DropIn(q.globalDeny, [], ports, q.route) + DropIn(q.deny, [], ports, q.route) +
    (if q.crowdsec.Some? then [Rule([Src(q.crowdsec.value)] + NotSrcMatch(q.breakGlass) + ports, Drop, Some(q.route))] else []) +
    RateRules(q, [], ports)
  }

  lemma InputDropsHit(q: Policy, ports: seq<Match>, t: Table, p: Packet)
    requires AllHold(ports, t, p)
    ensures VerdictOf(InputDrops(q, ports), t, p) == if Blocked(q, t, p) then Some(Drop) else None
  {
    DropInHit(q.globalDeny, [], ports, q.route, t, p);
    DropInHit(q.deny, [], ports, q.route, t, p);
    CrowdsecHit(q, [], ports, t, p);
    RateRulesHit(q, [], ports, t, p);
    if q.crowdsec.Some? {
      assert [] + [Src(q.crowdsec.value)] == [Src(q.crowdsec.value)];
    }
    FourVerdicts(DropIn(q.globalDeny, [], ports, q.route), DropIn(q.deny, [], ports, q.route),
                 if q.crowdsec.Some? then [Rule([Src(q.crowdsec.value)] + NotSrcMatch(q.breakGlass) + ports, Drop, Some(q.route))] else [],
                 RateRules(q, [], ports), t, p);
  }

  lemma InputPolicyHit(q: Policy, t: Table, p: Packet)
    requires p.proto == q.proto && CoveredBy(q.ports, p.dport)
    ensures VerdictOf(InputPolicy(q), t, p) == Some(Accept) <==>
            !Blocked(q, t, p) && Decision(q, SourceOf(q, t, p.src)) == Admitted
  {
    var ports := [Dport(q.proto, q.ports)];
    AllHoldOne(ports[0], t, p);
    InputDropsHit(q, ports, t, p);
    GeoPartLetsIn(q, ports, t, p);
    VerdictConcat(InputDrops(q, ports), InputGeoPart(q, ports), t, p);
    assert InputPolicy(q) == InputDrops(q, ports) + InputGeoPart(q, ports);
    assert q.globalDeny.Some? && Contains(t, q.globalDeny.value, p.src) ==> Blocked(q, t, p);
  }

  lemma RatesNamePorts(q: Policy, port: Match)
    ensures forall r | r in RateRules(q, [], [port]) :: port in r.matches
  {
  }

  lemma DropsNamePort(q: Policy, port: Match)
    ensures forall r | r in InputDrops(q, [port]) :: port in r.matches
  {
    RatesNamePorts(q, port);
  }

  lemma GeoNamesPort(q: Policy, port: Match)
    ensures forall r | r in InputGeoPart(q, [port]) :: port in r.matches
  {
  }

  lemma InputPolicyMiss(q: Policy, t: Table, p: Packet)
    requires p.proto != q.proto || !CoveredBy(q.ports, p.dport)
    ensures VerdictOf(InputPolicy(q), t, p) == None
  {
    var ports := [Dport(q.proto, q.ports)];
    AllHoldOne(ports[0], t, p);
    DropsNamePort(q, ports[0]);
    GeoNamesPort(q, ports[0]);
    assert InputPolicy(q) == InputDrops(q, ports) + InputGeoPart(q, ports);
    NothingHits(InputPolicy(q), ports, t, p);
  }

  // ---- All policies ----

  lemma {:induction false} NoPolicy(qs: seq<Policy>, t: Table, p: Packet)
    requires forall j | 0 <= j < |qs| :: p.proto != qs[j].proto || !CoveredBy(qs[j].ports, p.dport)
    ensures VerdictOf(AllInputPolicies(qs), t, p) == None
  {
    if qs != [] {
      NoPolicy(qs[..|qs| - 1], t, p);
      InputPolicyMiss(qs[|qs| - 1], t, p);
      VerdictConcat(AllInputPolicies(qs[..|qs| - 1]), InputPolicy(qs[|qs| - 1]), t, p);
    }
  }

  lemma {:induction false} OnePolicy(qs: seq<Policy>, t: Table, p: Packet, m: nat)
    requires m < |qs| && forall j | 0 <= j < |qs| && j != m :: p.proto != qs[j].proto || !CoveredBy(qs[j].ports, p.dport)
    ensures VerdictOf(AllInputPolicies(qs), t, p) == VerdictOf(InputPolicy(qs[m]), t, p)
  {
    var last := |qs| - 1;
    var before := qs[..last];
    VerdictConcat(AllInputPolicies(before), InputPolicy(qs[last]), t, p);
    if m == last {
      NoPolicy(before, t, p);
    } else {
      assert before[m] == qs[m];
      OnePolicy(before, t, p, m);
      InputPolicyMiss(qs[last], t, p);
    }
  }

  // In the inet table a policy's sets answer about a source as the config does.
  lemma InetSourceIs(c: Config, k: Kernel, q: Policy, p: Packet)
    requires Compiled(c, q) && q.proto == p.proto
    ensures var t, r := InetTable(c, k), c.routes[q.route];
            (!Blocked(q, t, p) && Decision(q, SourceOf(q, t, p.src)) == Admitted) <==>
            AdmissionOf(c, k, q.route, r, p.src) == Admitted && !Banned(c, k, p.src) && !RateLimited(c, k, q.route, p)
  {
    InetAnswers(c, k, q, p.src);
    BlockedMeaning(c, k, q, InetTable(c, k), p);
    if !q.geo.NoGeo? {
      GeoSetHolds(c, true, k, q, p.src);
    }
  }

  lemma OwnerLetsIn(c: Config, k: Kernel, qs: seq<Policy>, i: nat, p: Packet)
    requires Valid(c) && Policies(c) == Some(qs) && !c.maintenance && Owns(c, i, p)
    ensures VerdictOf(AllInputPolicies(qs), InetTable(c, k), p) == Some(Accept) <==> LetsIn(c, k, i, p)
  {
    var t := InetTable(c, k);
    var m := PolicyOfOwner(c, qs, i, p);
    forall j | 0 <= j < |qs| && j != m ensures p.proto != qs[j].proto || !CoveredBy(qs[j].ports, p.dport) {
      assert Compiled(c, qs[j]) && !Serves(c, qs[j], p);
    }
    assert Serves(c, qs[m], p);
    OnePolicy(qs, t, p, m);
    InputPolicyHit(qs[m], t, p);
    InetSourceIs(c, k, qs[m], p);
  }

  lemma NobodyLetsIn(c: Config, k: Kernel, qs: seq<Policy>, p: Packet)
    requires Valid(c) && Policies(c) == Some(qs) && (c.maintenance || forall i: nat :: !Owns(c, i, p))
    ensures VerdictOf(AllInputPolicies(qs), InetTable(c, k), p) == None
  {
    forall j | 0 <= j < |qs| ensures p.proto != qs[j].proto || !CoveredBy(qs[j].ports, p.dport) {
      PoliciesAreCompiled(c, |c.routes|, j);
      ClaimsAreEntries(c.routes[qs[j].route], p.dport);
      assert !Owns(c, qs[j].route, p);
    }
    NoPolicy(qs, InetTable(c, k), p);
  }

  lemma PoliciesLetIn(c: Config, k: Kernel, qs: seq<Policy>, p: Packet)
    requires Valid(c) && Policies(c) == Some(qs)
    ensures VerdictOf(AllInputPolicies(qs), InetTable(c, k), p) == Some(Accept) <==> !c.maintenance && exists i: nat :: LetsIn(c, k, i, p)
  {
    if i: nat :| !c.maintenance && Owns(c, i, p) {
      OwnerLetsIn(c, k, qs, i, p);
      if j: nat :| LetsIn(c, k, j, p) {
        OneOwner(c, i, j, p);
      }
    } else {
      NobodyLetsIn(c, k, qs, p);
    }
  }

  // ---- input_allows, and the host's own ports ----

  lemma GlassMeaning(c: Config, k: Kernel, a: Addr)
    ensures var glass := IfAny(c.geo.breakGlass, BreakGlass);
            glass.Some? && Contains(InetTable(c, k), BreakGlass, a) <==> Glass(c, a)
    ensures c.geo.enabled ==> (Contains(InetTable(c, k), GeoSet, a) <==> k.listed(GeoSet, a))
  {
    SetsAreDeclared(c, true, BreakGlass);
    SetsAreDeclared(c, true, GeoSet);
  }

  lemma AcceptOn(ports: seq<Match>, t: Table, p: Packet)
    ensures VerdictOf([Rule(ports, Accept, None)], t, p) == if AllHold(ports, t, p) then Some(Accept) else None
  {
    HitOne(Rule(ports, Accept, None), t, p);
  }

  lemma AcceptFrom(name: SetName, ports: seq<Match>, t: Table, p: Packet)
    ensures VerdictOf([Rule([Src(name)] + ports, Accept, None)], t, p) ==
            if Contains(t, name, p.src) && AllHold(ports, t, p) then Some(Accept) else None
  {
    AcceptOn([Src(name)] + ports, t, p);
    AllHoldOne(Src(name), t, p);
    AllHoldConcat([Src(name)], ports, t, p);
  }

  lemma BlockingAllowHit(c: Config, k: Kernel, ports: seq<Match>, p: Packet)
    requires c.geo.enabled && c.geo.onInput && c.geo.block
    ensures var t, glass := InetTable(c, k), IfAny(c.geo.breakGlass, BreakGlass);
            VerdictOf(GeoLogDrop([Src(GeoSet)] + NotSrcMatch(glass) + ports, None) + [Rule(ports, Accept, None)], t, p) ==
            if !AllHold(ports, t, p) then None else if InputGeoPasses(c, k, p.src) then Some(Accept) else Some(Drop)
  {
    var t, glass := InetTable(c, k), IfAny(c.geo.breakGlass, BreakGlass);
    var ms := [Src(GeoSet)] + NotSrcMatch(glass) + ports;
    GlassMeaning(c, k, p.src);
    GeoLogHit(ms, None, t, p);
    AllHoldOne(Src(GeoSet), t, p);
    SrcMatchHolds(glass, t, p);
    ThreeParts([Src(GeoSet)], NotSrcMatch(glass), ports, t, p);
    AcceptOn(ports, t, p);
    VerdictConcat(GeoLogDrop(ms, None), [Rule(ports, Accept, None)], t, p);
  }

  lemma ListingAllowHit(c: Config, k: Kernel, ports: seq<Match>, p: Packet)
    requires c.geo.enabled && c.geo.onInput && !c.geo.block
    ensures var t, glass := InetTable(c, k), IfAny(c.geo.breakGlass, BreakGlass);
            VerdictOf([Rule([Src(GeoSet)] + ports, Accept, None)] +
                      (if glass.Some? then [Rule([Src(glass.value)] + ports, Accept, None)] else []) +
                      GeoLogDrop(ports + [NotSrc(GeoSet)], None), t, p) ==
            if !AllHold(ports, t, p) then None else if InputGeoPasses(c, k, p.src) then Some(Accept) else Some(Drop)
  {
    var t, glass := InetTable(c, k), IfAny(c.geo.breakGlass, BreakGlass);
    GlassMeaning(c, k, p.src);
    AcceptFrom(GeoSet, ports, t, p);
    AcceptFrom(BreakGlass, ports, t, p);
    GeoLogHit(ports + [NotSrc(GeoSet)], None, t, p);
    AllHoldOne(NotSrc(GeoSet), t, p);
    AllHoldConcat(ports, [NotSrc(GeoSet)], t, p);
    ThreeVerdicts([Rule([Src(GeoSet)] + ports, Accept, None)],
                  if glass.Some? then [Rule([Src(glass.value)] + ports, Accept, None)] else [],
                  GeoLogDrop(ports + [NotSrc(GeoSet)], None), t, p);
  }

  lemma InputAllowHit(c: Config, k: Kernel, a: InputAllow, p: Packet)
    requires InputAllowRules(c, a).Some?
    ensures VerdictOf(InputAllowRules(c, a).value, InetTable(c, k), p) ==
            if !OpensPort(a, p) then None else if InputGeoPasses(c, k, p.src) then Some(Accept) else Some(Drop)
  {
    if !a.disabled {
      OpenPortHit(c, k, WordProto(a.proto).value, a.port, p);
    }
  }

  lemma OpenPortHit(c: Config, k: Kernel, proto: Proto, port: Entry, p: Packet)
    ensures VerdictOf(OpenPortRules(c, proto, port), InetTable(c, k), p) ==
            if proto != p.proto || !Covers(port, p.dport) then None
            else if InputGeoPasses(c, k, p.src) then Some(Accept) else Some(Drop)
  {
    var ports := [Dport(proto, [port])];
    AllHoldOne(ports[0], InetTable(c, k), p);
    assert CoveredBy([port], p.dport) <==> Covers([port][0], p.dport);
    if !(c.geo.enabled && c.geo.onInput) {
      AcceptOn(ports, InetTable(c, k), p);
    } else if c.geo.block {
      BlockingAllowHit(c, k, ports, p);
    } else {
      ListingAllowHit(c, k, ports, p);
    }
  }

  lemma {:induction false} AllowsHit(c: Config, k: Kernel, allows: seq<InputAllow>, p: Packet)
    requires AllInputAllows(c, allows).Some?
    ensures VerdictOf(AllInputAllows(c, allows).value, InetTable(c, k), p) ==
            if !Opened(allows, p) then None else if InputGeoPasses(c, k, p.src) then Some(Accept) else Some(Drop)
  {
    if allows != [] {
      var before, last := allows[..|allows| - 1], allows[|allows| - 1];
      AllowsHit(c, k, before, p);
      InputAllowHit(c, k, last, p);
      VerdictConcat(AllInputAllows(c, before).value, InputAllowRules(c, last).value, InetTable(c, k), p);
      OpenedSnoc(allows, p);
    }
  }

  lemma OpenedSnoc(allows: seq<InputAllow>, p: Packet)
    requires allows != []
    ensures var last := allows[|allows| - 1];
            Opened(allows, p) <==> Opened(allows[..|allows| - 1], p) || OpensPort(last, p)
  {
    var before := allows[..|allows| - 1];
    if i :| 0 <= i < |before| && OpensPort(before[i], p) {
      assert allows[i] == before[i];
    }
    if i :| 0 <= i < |allows| && OpensPort(allows[i], p) {
      assert i < |before| ==> before[i] == allows[i];
    }
  }

  lemma PortHit(proto: Proto, n: nat, t: Table, p: Packet)
    ensures VerdictOf([Rule([Dport(proto, [One(Single(n))])], Accept, None)], t, p) ==
            if p.proto == proto && p.dport == n then Some(Accept) else None
  {
    AcceptOn([Dport(proto, [One(Single(n))])], t, p);
    AllHoldOne(Dport(proto, [One(Single(n))]), t, p);
    assert CoveredBy([One(Single(n))], p.dport) <==> Covers([One(Single(n))][0], p.dport);
  }

  lemma {:induction false} AdminHit(ports: seq<nat>, t: Table, p: Packet)
    ensures VerdictOf(AdminRules(ports), t, p) == if p.proto == Tcp && p.dport in ports then Some(Accept) else None
    decreases |ports|
  {
    if ports != [] {
      var before, last := ports[..|ports| - 1], ports[|ports| - 1];
      AdminHit(before, t, p);
      PortHit(Tcp, last, t, p);
      assert AdminRules(ports) == AdminRules(before) + [Rule([Dport(Tcp, [One(Single(last))])], Accept, None)];
      VerdictConcat(AdminRules(before), [Rule([Dport(Tcp, [One(Single(last))])], Accept, None)], t, p);
      assert ports == before + [last];
    }
  }

  // ---- The chain ----

  lemma StartMisses(t: Table, p: Packet)
    requires ToHost(p)
    ensures VerdictOf([Rule([Known], Accept, None), Rule([In(Loopback)], Accept, None)], t, p) == None
  {
    AcceptOn([Known], t, p);
    AcceptOn([In(Loopback)], t, p);
    AllHoldOne(Known, t, p);
    AllHoldOne(In(Loopback), t, p);
    VerdictConcat([Rule([Known], Accept, None)], [Rule([In(Loopback)], Accept, None)], t, p);
    assert [Rule([Known], Accept, None), Rule([In(Loopback)], Accept, None)] == [Rule([Known], Accept, None)] + [Rule([In(Loopback)], Accept, None)];
  }

  /** For every valid config, a packet to the host that belongs to no known flow is accepted exactly when an enabled input_allows entry opens its port
      and geo blocking there lets its source through; or, with no such entry for the port, when the port is an admin port or
      WireGuard's, or the one active route that owns it admits the source, nobody bans it and no limit stops it. An entry
      that opens a port decides it alone, so it can shut out what the rules after it would accept. */
  lemma InputIsExact(c: Config, rs: Ruleset, k: Kernel, p: Packet)
    requires Valid(c) && Compile(c) == Some(rs) && ToHost(p)
    ensures VerdictOf(rs.input, InetTable(c, k), p) == Some(Accept) <==>
            if Opened(c.inputAllows, p) then InputGeoPasses(c, k, p.src)
            else OwnPort(c, p) || (!c.maintenance && exists i: nat :: LetsIn(c, k, i, p))
  {
    var qs, t, allows := Policies(c).value, InetTable(c, k), AllInputAllows(c, c.inputAllows).value;
    var start := [Rule([Known], Accept, None), Rule([In(Loopback)], Accept, None)];
    var wireguard := [Rule([Dport(Udp, [One(Single(c.listenPort))])], Accept, None)];
    var a, b := start + allows, AdminRules(c.adminPorts);
    StartMisses(t, p);
    AllowsHit(c, k, c.inputAllows, p);
    VerdictConcat(start, allows, t, p);
    AdminHit(c.adminPorts, t, p);
    PortHit(Udp, c.listenPort, t, p);
    PoliciesLetIn(c, k, qs, p);
    FourVerdicts(a, b, wireguard, AllInputPolicies(qs), t, p);
    assert rs.input == a + b + wireguard + AllInputPolicies(qs);
  }
  lemma StartAccepts(t: Table, p: Packet)
    requires p.state == KnownFlow || p.iif == Loopback
    ensures VerdictOf([Rule([Known], Accept, None), Rule([In(Loopback)], Accept, None)], t, p) == Some(Accept)
  {
    var a, b := [Rule([Known], Accept, None)], [Rule([In(Loopback)], Accept, None)];
    AcceptOn([Known], t, p);
    AcceptOn([In(Loopback)], t, p);
    AllHoldOne(Known, t, p);
    AllHoldOne(In(Loopback), t, p);
    VerdictConcat(a, b, t, p);
    assert a + b == [Rule([Known], Accept, None), Rule([In(Loopback)], Accept, None)];
  }

  lemma FirstDecides(a: seq<Rule>, b: seq<Rule>, c: seq<Rule>, d: seq<Rule>, e: seq<Rule>, t: Table, p: Packet)
    requires VerdictOf(a, t, p).Some?
    ensures VerdictOf(a + b + c + d + e, t, p) == VerdictOf(a, t, p)
  {
    VerdictConcat(a, b, t, p);
    VerdictConcat(a + b, c, t, p);
    VerdictConcat(a + b + c, d, t, p);
    VerdictConcat(a + b + c + d, e, t, p);
  }

  /** What belongs to a flow conntrack knows, or comes over loopback, the host accepts before anything else is asked. */
  lemma KnownAndLocalGetIn(c: Config, rs: Ruleset, t: Table, p: Packet)
    requires Compile(c) == Some(rs) && (p.state == KnownFlow || p.iif == Loopback)
    ensures VerdictOf(rs.input, t, p) == Some(Accept)
  {
    StartAccepts(t, p);
    FirstDecides([Rule([Known], Accept, None), Rule([In(Loopback)], Accept, None)], AllInputAllows(c, c.inputAllows).value,
                 AdminRules(c.adminPorts), [Rule([Dport(Udp, [One(Single(c.listenPort))])], Accept, None)],
                 AllInputPolicies(Policies(c).value), t, p);
  }

  // Port 22 is an admin port, and an input_allows entry opens it for the listed zones only.
  function AdminBehindZones(): Config
  {
    Config(Geo(true, false, true, []), false, false, [], RateLimit(0, 0, 0), [], [InputAllow(false, TcpWord, One(Single(22)))], [22], 51820, [])
  }

  function ToAdminPort(): Packet
  {
    Packet(5, 1, Tcp, 22, 22, Wan, OtherIface, NewFlow, true)
  }

  lemma AdminBehindZonesIsValid()
    ensures Valid(AdminBehindZones()) && Compile(AdminBehindZones()).Some?
  {
    ValidCompiles(AdminBehindZones());
  }

  /** From outside the zones that admin port is closed. */
  lemma AdminPortIsShut(k: Kernel)
    requires !k.listed(GeoSet, ToAdminPort().src)
    ensures var c, p := AdminBehindZones(), ToAdminPort();
            && Valid(c) && Compile(c).Some? && OwnPort(c, p)
            && VerdictOf(Compile(c).value.input, InetTable(c, k), p) != Some(Accept)
  {
    var c, p := AdminBehindZones(), ToAdminPort();
    AdminBehindZonesIsValid();
    assert OpensPort(c.inputAllows[0], p);
    InputIsExact(c, Compile(c).value, k, p);
  }
}

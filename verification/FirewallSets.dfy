/** Every set a rule names is declared in the rule's own table. */
module FirewallSets {
  import opened Common
  import opened Ports
  import opened Routes
  import opened Nft
  import opened Firewall
  import opened FirewallMeaning

  function NameIn(m: Match): Option<SetName>
  {
    match m
    case Src(name) => Some(name)
    case NotSrc(name) => Some(name)
    case Over(name) => Some(name)
    case _ => None
  }

  predicate Declared(sets: seq<SetDecl>, name: SetName)
  {
    exists k | 0 <= k < |sets| :: sets[k].name == name
  }

  predicate MatchesClosed(ms: seq<Match>, sets: seq<SetDecl>)
  {
    forall k | 0 <= k < |ms| && NameIn(ms[k]).Some? :: Declared(sets, NameIn(ms[k]).value)
  }

  /** Each set the rules name is declared. */
  predicate Closed(rules: seq<Rule>, sets: seq<SetDecl>)
  {
    forall k | 0 <= k < |rules| :: MatchesClosed(rules[k].matches, sets)
  }

  predicate DeclaredIfAny(name: Option<SetName>, sets: seq<SetDecl>)
  {
    name.Some? ==> Declared(sets, name.value)
  }

  // Every set the writers may name for q, in the ip table.
  predicate NatNames(q: Policy, sets: seq<SetDecl>)
  {
    && DeclaredIfAny(q.globalDeny, sets) && DeclaredIfAny(q.deny, sets) && DeclaredIfAny(q.allow, sets)
    && DeclaredIfAny(q.breakGlass, sets) && (!q.geo.NoGeo? ==> Declared(sets, q.geo.name))
  }

  // And in the inet table.
  predicate InetNames(q: Policy, sets: seq<SetDecl>)
  {
    && NatNames(q, sets) && DeclaredIfAny(q.crowdsec, sets)
    && (ConnBound(q) ==> Declared(sets, ConnMeter(q.route, q.proto)))
    && DeclaredIfAny(SynBinding(q), sets) && DeclaredIfAny(UdpBinding(q), sets)
  }

  // ---- The writers ----

  lemma ClosedConcat(a: seq<Rule>, b: seq<Rule>, sets: seq<SetDecl>)
    requires Closed(a, sets) && Closed(b, sets)
    ensures Closed(a + b, sets)
  {
  }

  lemma DropInClosed(name: Option<SetName>, scope: seq<Match>, ports: seq<Match>, i: nat, sets: seq<SetDecl>)
    requires DeclaredIfAny(name, sets) && MatchesClosed(scope, sets) && MatchesClosed(ports, sets)
    ensures Closed(DropIn(name, scope, ports, i), sets)
  {
  }

  lemma AllowClosed(allow: Option<SetName>, geo: Option<SetName>, ports: seq<Match>, v: Verdict, i: nat, sets: seq<SetDecl>)
    requires DeclaredIfAny(allow, sets) && DeclaredIfAny(geo, sets) && MatchesClosed(ports, sets)
    ensures Closed(AllowRule(allow, geo, ports, v, i), sets)
  {
  }

  lemma SrcRuleClosed(name: SetName, ports: seq<Match>, v: Verdict, i: nat, sets: seq<SetDecl>)
    requires Declared(sets, name) && MatchesClosed(ports, sets)
    ensures Closed([Rule([Src(name)] + ports, v, Some(i))], sets)
  {
  }

  lemma DeniesClosed(q: Policy, ports: seq<Match>, sets: seq<SetDecl>)
    requires NatNames(q, sets) && MatchesClosed(ports, sets)
    ensures Closed(DropIn(q.globalDeny, [], ports, q.route) + DropIn(q.deny, [], ports, q.route), sets)
  {
    DropInClosed(q.globalDeny, [], ports, q.route, sets);
    DropInClosed(q.deny, [], ports, q.route, sets);
  }

  lemma PreroutingClosed(q: Policy, e: Entry, v: Verdict, sets: seq<SetDecl>)
    requires NatNames(q, sets)
    ensures Closed(PreroutingRules(q, e, v), sets)
  {
    var ports := [Dport(q.proto, [e])];
    var denies := DropIn(q.globalDeny, [], ports, q.route) + DropIn(q.deny, [], ports, q.route);
    DeniesClosed(q, ports, sets);
    AllowClosed(q.allow, if q.geo.OnlyListed? then Some(q.geo.name) else None, ports, v, q.route, sets);
    if q.breakGlass.Some? {
      SrcRuleClosed(q.breakGlass.value, ports, v, q.route, sets);
    }
    match q.geo {
      case NoGeo => ClosedConcat(denies, AllowRule(q.allow, None, ports, v, q.route), sets);
      case BlockListed(geo) =>
        assert Closed(GeoBlockDrop(q, geo, ports), sets);
        ClosedConcat(GeoBlockDrop(q, geo, ports), AllowRule(q.allow, None, ports, v, q.route), sets);
        ClosedConcat(denies, GeoBlockDrop(q, geo, ports) + AllowRule(q.allow, None, ports, v, q.route), sets);
      case OnlyListed(geo) =>
        var glass := if q.breakGlass.Some? then [Rule([Src(q.breakGlass.value)] + ports, v, Some(q.route))] else [];
        ClosedConcat(AllowRule(q.allow, Some(geo), ports, v, q.route), glass, sets);
        ClosedConcat(denies, AllowRule(q.allow, Some(geo), ports, v, q.route) + glass, sets);
    }
  }

  lemma {:induction false} LinesClosed(q: Policy, lines: seq<Line>, paused: bool, sets: seq<SetDecl>)
    requires NatNames(q, sets)
    ensures Closed(AllLineRules(q, lines, paused), sets)
  {
    if lines != [] {
      LinesClosed(q, lines[..|lines| - 1], paused, sets);
      var line := lines[|lines| - 1];
      PreroutingClosed(q, line.public, if paused then Pause else Dnat(q.target, line.to), sets);
    }
  }

  lemma {:induction false} NatClosed(qs: seq<Policy>, paused: set<nat>, sets: seq<SetDecl>)
    requires forall k | 0 <= k < |qs| :: NatNames(qs[k], sets)
    ensures Closed(NatRules(qs, paused), sets)
  {
    if qs != [] {
      var q := qs[|qs| - 1];
      NatClosed(qs[..|qs| - 1], paused, sets);
      LinesClosed(q, q.lines, q.route in paused, sets);
    }
  }

  lemma RateClosed(q: Policy, scope: seq<Match>, ports: seq<Match>, sets: seq<SetDecl>)
    requires InetNames(q, sets) && MatchesClosed(scope, sets) && MatchesClosed(ports, sets)
    ensures Closed(RateRules(q, scope, ports), sets)
  {
    var head := scope + NotSrcMatch(q.breakGlass) + ports;
    assert MatchesClosed(head, sets);
    assert Closed(ConnRules(q, head), sets);
    assert Closed(MeterRule(q, if q.proto == Tcp then SynBinding(q) else None, head + [SynFlag, Fresh]), sets);
    assert Closed(MeterRule(q, if q.proto == Udp then UdpBinding(q) else None, head), sets);
  }

  lemma CrowdsecClosed(q: Policy, scope: seq<Match>, ports: seq<Match>, sets: seq<SetDecl>)
    requires InetNames(q, sets) && MatchesClosed(scope, sets) && MatchesClosed(ports, sets)
    ensures Closed(if q.crowdsec.Some? then [Rule(scope + [Src(q.crowdsec.value)] + NotSrcMatch(q.breakGlass) + ports, Drop, Some(q.route))] else [], sets)
  {
  }

  lemma ForwardDropsClosed(q: Policy, sets: seq<SetDecl>)
    requires InetNames(q, sets)
    ensures Closed(ForwardDrops(q), sets)
  {
    var ports := ForwardMatch(q);
    DropInClosed(q.globalDeny, TO_TUNNEL, ports, q.route, sets);
    DropInClosed(q.deny, TO_TUNNEL, ports, q.route, sets);
    CrowdsecClosed(q, TO_TUNNEL, ports, sets);
    RateClosed(q, TO_TUNNEL, ports, sets);
  }

  lemma {:induction false} ForwardPartsClosed(qs: seq<Policy>, sets: seq<SetDecl>)
    requires forall k | 0 <= k < |qs| :: InetNames(qs[k], sets)
    ensures Closed(AllForwardDrops(qs), sets) && Closed(AllForwardAccepts(qs), sets)
  {
    if qs != [] {
      var q := qs[|qs| - 1];
      ForwardPartsClosed(qs[..|qs| - 1], sets);
      ForwardDropsClosed(q, sets);
      assert MatchesClosed(ForwardAccept(q).matches, sets);
      ClosedConcat(AllForwardDrops(qs[..|qs| - 1]), ForwardDrops(q), sets);
      ClosedConcat(AllForwardAccepts(qs[..|qs| - 1]), [ForwardAccept(q)], sets);
    }
  }

  lemma {:induction false} LocalsClosed(locals: seq<Cidr>, sets: seq<SetDecl>)
    ensures Closed(LocalRules(locals), sets)
  {
    if locals != [] {
      LocalsClosed(locals[..|locals| - 1], sets);
    }
  }

  lemma GeoLogClosed(ms: seq<Match>, route: Option<nat>, sets: seq<SetDecl>)
    requires MatchesClosed(ms, sets)
    ensures Closed(GeoLogDrop(ms, route), sets)
  {
    assert MatchesClosed(ms + [Sampled], sets);
  }

  // The rules of InputPolicy after its rate limits.
  function InputGeoPart(q: Policy, ports: seq<Match>): seq<Rule>
  {
    match q.geo
    case NoGeo => AllowRule(q.allow, None, ports, Accept, q.route)
    case BlockListed(geo) =>
      GeoLogDrop([Src(geo)] + NotSrcMatch(q.breakGlass) + ports, Some(q.route)) + AllowRule(q.allow, None, ports, Accept, q.route)
    case OnlyListed(geo) =>
      AllowRule(q.allow, Some(geo), ports, Accept, q.route) +
      if q.breakGlass.Some? then [Rule([Src(q.breakGlass.value)] + ports, Accept, Some(q.route))]
      else GeoLogDrop(ports + [NotSrc(geo)], Some(q.route))
  }

  lemma InputGeoClosed(q: Policy, ports: seq<Match>, sets: seq<SetDecl>)
    requires NatNames(q, sets) && MatchesClosed(ports, sets)
    ensures Closed(InputGeoPart(q, ports), sets)
  {
    AllowClosed(q.allow, if q.geo.OnlyListed? then Some(q.geo.name) else None, ports, Accept, q.route, sets);
    match q.geo {
      case NoGeo =>
      case BlockListed(geo) => GeoLogClosed([Src(geo)] + NotSrcMatch(q.breakGlass) + ports, Some(q.route), sets);
      case OnlyListed(geo) =>
        if q.breakGlass.Some? {
          SrcRuleClosed(q.breakGlass.value, ports, Accept, q.route, sets);
        }
        GeoLogClosed(ports + [NotSrc(geo)], Some(q.route), sets);
    }
  }

  lemma InputPolicyClosed(q: Policy, sets: seq<SetDecl>)
    requires InetNames(q, sets)
    ensures Closed(InputPolicy(q), sets)
  {
    var ports := [Dport(q.proto, q.ports)];
    var denies := DropIn(q.globalDeny, [], ports, q.route) + DropIn(q.deny, [], ports, q.route);
    var crowdsec := if q.crowdsec.Some? then [Rule([Src(q.crowdsec.value)] + NotSrcMatch(q.breakGlass) + ports, Drop, Some(q.route))] else [];
    DeniesClosed(q, ports, sets);
    assert Closed(crowdsec, sets);
    RateClosed(q, [], ports, sets);
    InputGeoClosed(q, ports, sets);
    ClosedConcat(denies, crowdsec, sets);
    ClosedConcat(denies + crowdsec, RateRules(q, [], ports), sets);
    ClosedConcat(denies + crowdsec + RateRules(q, [], ports), InputGeoPart(q, ports), sets);
    assert InputPolicy(q) == denies + crowdsec + RateRules(q, [], ports) + InputGeoPart(q, ports);
  }

  lemma {:induction false} InputPoliciesClosed(qs: seq<Policy>, sets: seq<SetDecl>)
    requires forall k | 0 <= k < |qs| :: InetNames(qs[k], sets)
    ensures Closed(AllInputPolicies(qs), sets)
  {
    if qs != [] {
      InputPoliciesClosed(qs[..|qs| - 1], sets);
      InputPolicyClosed(qs[|qs| - 1], sets);
    }
  }

  lemma InputAllowClosed(c: Config, a: InputAllow, sets: seq<SetDecl>)
    requires (c.geo.enabled ==> Declared(sets, GeoSet)) && DeclaredIfAny(IfAny(c.geo.breakGlass, BreakGlass), sets)
    ensures InputAllowRules(c, a).Some? ==> Closed(InputAllowRules(c, a).value, sets)
  {
    if c.geo.enabled && WordProto(a.proto).Some? {
      var ports := [Dport(WordProto(a.proto).value, [a.port])];
      GeoLogClosed([Src(GeoSet)] + NotSrcMatch(IfAny(c.geo.breakGlass, BreakGlass)) + ports, None, sets);
      GeoLogClosed(ports + [NotSrc(GeoSet)], None, sets);
    }
  }

  lemma {:induction false} InputAllowsClosed(c: Config, allows: seq<InputAllow>, sets: seq<SetDecl>)
    requires (c.geo.enabled ==> Declared(sets, GeoSet)) && DeclaredIfAny(IfAny(c.geo.breakGlass, BreakGlass), sets)
    ensures AllInputAllows(c, allows).Some? ==> Closed(AllInputAllows(c, allows).value, sets)
  {
    if allows != [] {
      InputAllowsClosed(c, allows[..|allows| - 1], sets);
      InputAllowClosed(c, allows[|allows| - 1], sets);
    }
  }

  // ---- The declarations ----

  lemma DeclaredByDecl(sets: seq<SetDecl>, name: SetName)
    ensures DeclOf(sets, name).Some? ==> Declared(sets, name)
  {
  }

  lemma DeniesDeclared(c: Config, q: Policy, filter: bool)
    requires Compiled(c, q)
    ensures DeclaredIfAny(q.globalDeny, TableSets(c, filter)) && DeclaredIfAny(q.deny, TableSets(c, filter))
  {
    NameDeclared(c, q.globalDeny, filter);
    NameDeclared(c, q.deny, filter);
  }

  lemma AllowsDeclared(c: Config, q: Policy, filter: bool)
    requires Compiled(c, q)
    ensures DeclaredIfAny(q.allow, TableSets(c, filter)) && DeclaredIfAny(q.breakGlass, TableSets(c, filter))
  {
    NameDeclared(c, q.allow, filter);
    NameDeclared(c, q.breakGlass, filter);
  }

  lemma GeoDeclared(c: Config, q: Policy, filter: bool)
    requires Compiled(c, q) && !q.geo.NoGeo?
    ensures Declared(TableSets(c, filter), q.geo.name)
  {
    NameDeclared(c, Some(q.geo.name), filter);
  }

  lemma NatNamesDeclared(c: Config, q: Policy, filter: bool)
    requires Compiled(c, q)
    ensures NatNames(q, TableSets(c, filter))
  {
    DeniesDeclared(c, q, filter);
    AllowsDeclared(c, q, filter);
    if !q.geo.NoGeo? {
      GeoDeclared(c, q, filter);
    }
  }

  lemma NameDeclared(c: Config, name: Option<SetName>, filter: bool)
    requires name.Some? ==> name.value in {BreakGlass, GlobalDeny, CrowdsecBlock, GeoSet} || KindOf(name.value).Some?
    ensures name.Some? && SourceDecl(c, filter, name.value).Some? ==> Declared(TableSets(c, filter), name.value)
  {
    if name.Some? {
      SetsAreDeclared(c, filter, name.value);
      DeclaredByDecl(TableSets(c, filter), name.value);
    }
  }

  lemma DeclaredConcat(a: seq<SetDecl>, b: seq<SetDecl>, name: SetName)
    ensures Declared(a + b, name) <==> Declared(a, name) || Declared(b, name)
  {
    if k :| 0 <= k < |a| && a[k].name == name {
      assert (a + b)[k] == a[k];
    }
    if k :| 0 <= k < |b| && b[k].name == name {
      assert (a + b)[|a| + k] == b[k];
    }
  }

  lemma MetersInTable(c: Config, name: SetName)
    ensures Declared(MeterDecls(NeedsUpTo(c, |c.routes|)), name) ==> Declared(TableSets(c, true), name)
  {
    var n := |c.routes|;
    DeclaredConcat(GlobalDecls(c, true) + RouteDecls(c, SrcSets, n) + RouteDecls(c, DenySets, n) + RouteDecls(c, GeoSets, n),
                   MeterDecls(NeedsUpTo(c, n)), name);
  }

  // What a policy's limits need is collected.
  predicate NeedsMet(q: Policy, s: Needs)
  {
    && (q.rate.syn > 0 ==> q.route in s.routeSyn) && (q.rate.syn == 0 && q.global.syn > 0 ==> s.syn)
    && (q.rate.udp > 0 ==> q.route in s.routeUdp) && (q.rate.udp == 0 && q.global.udp > 0 ==> s.udp)
    && (ConnBound(q) ==> ConnMeter(q.route, q.proto) in s.conn)
  }

  lemma {:induction false} NeedsCollected(c: Config, q: Policy, n: nat)
    requires Compiled(c, q) && ReadableProto(c.routes[q.route].proto) && q.route < n <= |c.routes|
    ensures NeedsMet(q, NeedsUpTo(c, n))
  {
    if q.route < n - 1 {
      NeedsCollected(c, q, n - 1);
    } else if ConnBound(q) {
      var protos := ProtosOf(c.routes[q.route].proto);
      assert q.proto in protos;
      var k :| 0 <= k < |protos| && protos[k] == q.proto;
      assert ConnNeeds(c, q.route)[k] == ConnMeter(q.route, q.proto);
    }
  }

  lemma MetersDeclared(q: Policy, s: Needs)
    requires NeedsMet(q, s)
    ensures var d := MeterDecls(s);
            && (ConnBound(q) ==> Declared(d, ConnMeter(q.route, q.proto)))
            && DeclaredIfAny(SynBinding(q), d) && DeclaredIfAny(UdpBinding(q), d)
  {
    var a, b := if s.syn then [Runtime(SynMeter)] else [], if s.udp then [Runtime(UdpMeter)] else [];
    var d, e, f := RouteMeters(s.routeSyn, true), RouteMeters(s.routeUdp, false), RuntimeAll(s.conn);
    forall name ensures Declared(MeterDecls(s), name) <==> Declared(a, name) || Declared(b, name) || Declared(d, name) || Declared(e, name) || Declared(f, name) {
      DeclaredConcat(a, b, name);
      DeclaredConcat(a + b, d, name);
      DeclaredConcat(a + b + d, e, name);
      DeclaredConcat(a + b + d + e, f, name);
    }
    if ConnBound(q) {
      var k :| 0 <= k < |s.conn| && s.conn[k] == ConnMeter(q.route, q.proto);
      assert f[k].name == s.conn[k];
    }
    if q.rate.syn > 0 {
      var k :| 0 <= k < |s.routeSyn| && s.routeSyn[k] == q.route;
      assert d[k].name == RouteSynMeter(q.route);
    } else if s.syn {
      assert a[0].name == SynMeter;
    }
    if q.rate.udp > 0 {
      var k :| 0 <= k < |s.routeUdp| && s.routeUdp[k] == q.route;
      assert e[k].name == RouteUdpMeter(q.route);
    } else if s.udp {
      assert b[0].name == UdpMeter;
    }
  }

  lemma InetNamesDeclared(c: Config, q: Policy)
    requires Compiled(c, q) && ReadableProto(c.routes[q.route].proto)
    ensures InetNames(q, TableSets(c, true))
  {
    NatNamesDeclared(c, q, true);
    NameDeclared(c, q.crowdsec, true);
    NeedsCollected(c, q, |c.routes|);
    MetersDeclared(q, NeedsUpTo(c, |c.routes|));
    MetersInTable(c, ConnMeter(q.route, q.proto));
    if SynBinding(q).Some? {
      MetersInTable(c, SynBinding(q).value);
    }
    if UdpBinding(q).Some? {
      MetersInTable(c, UdpBinding(q).value);
    }
  }

  lemma {:induction false} PoliciesRead(c: Config, n: nat, k: nat)
    requires n <= |c.routes| && PoliciesUpTo(c, n).Some? && k < |PoliciesUpTo(c, n).value|
    ensures var q := PoliciesUpTo(c, n).value[k]; Compiled(c, q) && ReadableProto(c.routes[q.route].proto)
  {
    PoliciesAreCompiled(c, n, k);
    if n > 0 {
      var before := PoliciesUpTo(c, n - 1).value;
      if k < |before| {
        PoliciesRead(c, n - 1, k);
      }
    }
  }

  // ---- The theorem ----

  lemma InputClosed(c: Config, qs: seq<Policy>, allows: seq<Rule>, sets: seq<SetDecl>)
    requires AllInputAllows(c, c.inputAllows) == Some(allows)
    requires forall k | 0 <= k < |qs| :: InetNames(qs[k], sets)
    requires (c.geo.enabled ==> Declared(sets, GeoSet)) && DeclaredIfAny(IfAny(c.geo.breakGlass, BreakGlass), sets)
    ensures Closed(InputChain(c, qs, allows), sets)
  {
    var a, b := [Rule([Known], Accept, None), Rule([In(Loopback)], Accept, None)], allows;
    var d, e := AdminRules(c.adminPorts), [Rule([Dport(Udp, [One(Single(c.listenPort))])], Accept, None)];
    InputAllowsClosed(c, c.inputAllows, sets);
    InputPoliciesClosed(qs, sets);
    ClosedConcat(a, b, sets);
    ClosedConcat(a + b, d, sets);
    ClosedConcat(a + b + d, e, sets);
    ClosedConcat(a + b + d + e, AllInputPolicies(qs), sets);
  }

  lemma ForwardClosed(c: Config, qs: seq<Policy>, sets: seq<SetDecl>)
    requires forall k | 0 <= k < |qs| :: InetNames(qs[k], sets)
    ensures Closed(ForwardChain(c, qs), sets)
  {
    var a, b, e := LocalRules(c.locals), AllForwardDrops(qs), AllForwardAccepts(qs);
    var d, f := [Rule([Known], Accept, None)], [Rule([In(Tunnel), Out(Wan), Known], Accept, None), Rule([Sampled], Drop, None)];
    LocalsClosed(c.locals, sets);
    ForwardPartsClosed(qs, sets);
    ClosedConcat(a, b, sets);
    ClosedConcat(a + b, d, sets);
    ClosedConcat(a + b + d, e, sets);
    ClosedConcat(a + b + d + e, f, sets);
  }

  lemma {:induction false} CountsNameNoSet(qs: seq<Policy>)
    ensures Closed(CountChain(qs), [])
  {
    if qs != [] {
      CountsNameNoSet(qs[..|qs| - 1]);
    }
  }

  lemma AllNamesDeclared(c: Config, qs: seq<Policy>)
    requires Policies(c) == Some(qs)
    ensures forall k | 0 <= k < |qs| :: InetNames(qs[k], TableSets(c, true)) && NatNames(qs[k], TableSets(c, false))
  {
    forall k | 0 <= k < |qs| ensures InetNames(qs[k], TableSets(c, true)) && NatNames(qs[k], TableSets(c, false)) {
      PoliciesRead(c, |c.routes|, k);
      InetNamesDeclared(c, qs[k]);
      NatNamesDeclared(c, qs[k], false);
    }
  }

  /** For every config that compiles, in every combination of its features: each set named in the input and forward
      chains is declared in the inet table, each set named in prerouting, full or updated for any paused routes, is
      declared in the ip table, and the counting table names none. */
  lemma OutputIsClosed(c: Config, rs: Ruleset, paused: set<nat>)
    requires Compile(c) == Some(rs)
    ensures Closed(rs.input, rs.inetSets) && Closed(rs.forward, rs.inetSets)
    ensures Closed(rs.prerouting, rs.natSets) && Closed(NatRules(Policies(c).value, paused), rs.natSets)
    ensures Closed(rs.counts, [])
  {
    var qs := Policies(c).value;
    AllNamesDeclared(c, qs);
    NameDeclared(c, Some(GeoSet), true);
    NameDeclared(c, Some(BreakGlass), true);
    InputClosed(c, qs, AllInputAllows(c, c.inputAllows).value, rs.inetSets);
    ForwardClosed(c, qs, rs.inetSets);
    NatClosed(qs, {}, rs.natSets);
    NatClosed(qs, paused, rs.natSets);
    CountsNameNoSet(qs);
  }
}

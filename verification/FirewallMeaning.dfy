/** What the compiled chains mean for a new packet from the WAN: the config's policy, exactly. */
module FirewallMeaning {
  import opened Common
  import opened Ports
  import opened Routes
  import opened Nft
  import opened Firewall

  // ---- Configs the checks accept ----

  predicate ValidRoute(r: Route)
  {
    r.disabled || (Readable(r) && r.ports != [] && GoodMaps(r.ports, r.maps))
  }

  /** What validateForwardingRoutes and the overlap check leave. Nothing checks the protocol of an input_allows entry. */
  ghost predicate Valid(c: Config)
  {
    (forall i | 0 <= i < |c.routes| :: ValidRoute(c.routes[i])) && Disjoint(c.routes)
  }

  lemma {:induction false} ValidLines(es: seq<Entry>, ports: seq<Entry>, maps: seq<PortMap>)
    requires GoodMaps(ports, maps)
    ensures LinesOf(es, maps).Some?
  {
    if es != [] {
      ValidLines(es[..|es| - 1], ports, maps);
      ValidEntryLines(es[|es| - 1], ports, maps);
    }
  }

  lemma ValidEntryLines(e: Entry, ports: seq<Entry>, maps: seq<PortMap>)
    requires GoodMaps(ports, maps)
    ensures EntryLines(e, maps).Some?
  {
    RangeOfGood(e, maps);
    if MapOf(e, maps).Some? {
      var k :| 0 <= k < |maps| && maps[k] == PortMap(e, MapOf(e, maps).value);
      assert GoodMap(maps[k]);
    }
  }

  // The protocol of an input_allows entry, which validation does not look at, is tcp or udp.
  predicate ReadableAllow(a: InputAllow)
  {
    a.disabled || a.proto != OtherWord
  }

  lemma {:induction false} AllowsExist(c: Config, allows: seq<InputAllow>)
    ensures AllInputAllows(c, allows).Some? <==> forall i | 0 <= i < |allows| :: ReadableAllow(allows[i])
  {
    if allows != [] {
      var before, last := allows[..|allows| - 1], allows[|allows| - 1];
      AllowsExist(c, before);
      assert forall i | 0 <= i < |before| :: before[i] == allows[i];
    }
  }

  /** A valid config compiles if and only if every enabled entry of input_allows has the protocol tcp or udp. */
  lemma ValidCompiles(c: Config)
    requires Valid(c)
    ensures Compile(c).Some? <==> forall i | 0 <= i < |c.inputAllows| :: ReadableAllow(c.inputAllows[i])
  {
    PoliciesExist(c, |c.routes|);
    AllowsExist(c, c.inputAllows);
  }

  /** A config that opens a port for "both", as a route may, is valid and does not compile. */
  lemma BothIsNotCompiled(port: Entry) returns (c: Config)
    ensures c.routes == [] && c.inputAllows == [InputAllow(false, OtherWord, port)]
    ensures Valid(c) && Compile(c) == None
  {
    c := Config(Geo(false, false, false, []), false, false, [], RateLimit(0, 0, 0), [], [InputAllow(false, OtherWord, port)], [], 51820, []);
    ValidCompiles(c);
    assert !ReadableAllow(c.inputAllows[0]);
  }

  lemma {:induction false} PoliciesExist(c: Config, n: nat)
    requires Valid(c) && n <= |c.routes|
    ensures PoliciesUpTo(c, n).Some?
  {
    if n > 0 {
      PoliciesExist(c, n - 1);
      var r := c.routes[n - 1];
      if !r.disabled {
        ValidLines(r.ports, r.ports, r.maps);
      }
    }
  }

  // ---- Which policies there are ----

  // q is what the compiler makes of route i and a protocol it speaks.
  predicate Compiled(c: Config, q: Policy)
  {
    && q.route < |c.routes|
    && var r := c.routes[q.route];
       && !r.disabled && Speaks(r.proto, q.proto)
       && LinesOf(r.ports, r.maps).Some?
       && q == PolicyOf(c, q.route, r, q.proto, LinesOf(r.ports, r.maps).value)
  }

  lemma {:induction false} PoliciesAreCompiled(c: Config, n: nat, k: nat)
    requires n <= |c.routes| && PoliciesUpTo(c, n).Some? && k < |PoliciesUpTo(c, n).value|
    ensures var q := PoliciesUpTo(c, n).value[k]; Compiled(c, q) && q.route < n
  {
    if n > 0 {
      var before := PoliciesUpTo(c, n - 1).value;
      if k < |before| {
        PoliciesAreCompiled(c, n - 1, k);
      } else {
        var r := c.routes[n - 1];
        assert ProtosOf(r.proto)[k - |before|] in ProtosOf(r.proto);
      }
    }
  }

  // A policy of the last of n routes.
  lemma LastPolicy(c: Config, n: nat, k: nat)
    requires 0 < n <= |c.routes| && PoliciesUpTo(c, n).Some? && |PoliciesUpTo(c, n - 1).value| <= k < |PoliciesUpTo(c, n).value|
    ensures var q, protos, at := PoliciesUpTo(c, n).value[k], ProtosOf(c.routes[n - 1].proto), k - |PoliciesUpTo(c, n - 1).value|;
            q.route == n - 1 && at < |protos| && q.proto == protos[at]
  {
  }

  lemma {:induction false} PoliciesAreDistinct(c: Config, n: nat, j: nat, k: nat)
    requires n <= |c.routes| && PoliciesUpTo(c, n).Some? && j < k < |PoliciesUpTo(c, n).value|
    ensures var qs := PoliciesUpTo(c, n).value; qs[j].route != qs[k].route || qs[j].proto != qs[k].proto
  {
    if n > 0 {
      var before := PoliciesUpTo(c, n - 1).value;
      if k < |before| {
        PoliciesAreDistinct(c, n - 1, j, k);
      } else {
        LastPolicy(c, n, k);
        if j < |before| {
          PoliciesAreCompiled(c, n - 1, j);
        } else {
          LastPolicy(c, n, j);
        }
      }
    }
  }

  lemma LastPolicies(c: Config, n: nat, m: nat) returns (k: nat)
    requires 0 < n <= |c.routes| && PoliciesUpTo(c, n).Some? && !c.routes[n - 1].disabled && m < |ProtosOf(c.routes[n - 1].proto)|
    ensures k < |PoliciesUpTo(c, n).value|
    ensures var q := PoliciesUpTo(c, n).value[k]; q.route == n - 1 && q.proto == ProtosOf(c.routes[n - 1].proto)[m]
  {
    k := |PoliciesUpTo(c, n - 1).value| + m;
  }

  lemma {:induction false} PolicyExists(c: Config, n: nat, i: nat, proto: Proto) returns (k: nat)
    requires i < n <= |c.routes| && PoliciesUpTo(c, n).Some? && !c.routes[i].disabled && Speaks(c.routes[i].proto, proto)
    ensures k < |PoliciesUpTo(c, n).value|
    ensures var q := PoliciesUpTo(c, n).value[k]; q.route == i && q.proto == proto
  {
    if i < n - 1 {
      k := PolicyExists(c, n - 1, i, proto);
    } else {
      var protos := ProtosOf(c.routes[i].proto);
      assert proto in protos;
      var m :| 0 <= m < |protos| && protos[m] == proto;
      k := LastPolicies(c, n, m);
    }
  }

  // ---- What the sets contain ----

  lemma {:induction false} DeclConcat(a: seq<SetDecl>, b: seq<SetDecl>, name: SetName)
    ensures DeclOf(a + b, name) == if DeclOf(a, name).Some? then DeclOf(a, name) else DeclOf(b, name)
  {
    if a == [] {
      assert a + b == b;
    } else {
      assert (a + b)[1..] == a[1..] + b && (a + b)[0] == a[0];
      DeclConcat(a[1..], b, name);
    }
  }

  function KindOf(name: SetName): Option<Kind>
  {
    match name
    case RouteSrc(_) => Some(SrcSets)
    case RouteDeny(_) => Some(DenySets)
    case RouteGeo(_) => Some(GeoSets)
    case _ => None
  }

  // The declaration of a route's set, when the route needs one.
  function RouteSetDecl(c: Config, name: SetName, n: nat): Option<SetDecl>
    requires n <= |c.routes| && KindOf(name).Some?
  {
    if name.route < n && RouteDecl(c, KindOf(name).value, name.route) != [] then Some(RouteDecl(c, KindOf(name).value, name.route)[0])
    else None
  }

  lemma RouteSetDeclStep(c: Config, name: SetName, n: nat)
    requires 0 < n <= |c.routes| && KindOf(name).Some?
    ensures var d := RouteDecl(c, KindOf(name).value, n - 1);
            RouteSetDecl(c, name, n) == if name.route == n - 1 then (if d == [] then None else Some(d[0])) else RouteSetDecl(c, name, n - 1)
  {
  }

  lemma {:induction false} RouteDeclsMeaning(c: Config, k: Kind, n: nat, name: SetName)
    requires n <= |c.routes|
    ensures DeclOf(RouteDecls(c, k, n), name) == if KindOf(name) == Some(k) then RouteSetDecl(c, name, n) else None
  {
    if n > 0 {
      var before, last := RouteDecls(c, k, n - 1), RouteDecl(c, k, n - 1);
      RouteDeclsMeaning(c, k, n - 1, name);
      OneRouteDecl(c, k, n - 1, name);
      DeclConcat(before, last, name);
      if KindOf(name) == Some(k) {
        RouteSetDeclStep(c, name, n);
      }
    }
  }

  lemma OneRouteDecl(c: Config, k: Kind, i: nat, name: SetName)
    requires i < |c.routes|
    ensures var d := RouteDecl(c, k, i); DeclOf(d, name) == if KindOf(name) == Some(k) && name.route == i && d != [] then Some(d[0]) else None
  {
    var d := RouteDecl(c, k, i);
    assert |d| <= 1;
    if d != [] {
      assert d[1..] == [];
    }
  }

  lemma MetersDeclareMeters(s: Needs, name: SetName)
    requires forall i | 0 <= i < |s.conn| :: s.conn[i].ConnMeter?
    requires name in {BreakGlass, GlobalDeny, CrowdsecBlock, GeoSet} || KindOf(name).Some?
    ensures DeclOf(MeterDecls(s), name) == None
  {
    var d := MeterDecls(s);
    assert forall k | 0 <= k < |d| :: d[k].name != name;
  }

  lemma {:induction false} ConnNeedsAreMeters(c: Config, n: nat)
    requires n <= |c.routes|
    ensures forall i | 0 <= i < |NeedsUpTo(c, n).conn| :: NeedsUpTo(c, n).conn[i].ConnMeter?
  {
    if n > 0 {
      ConnNeedsAreMeters(c, n - 1);
    }
  }

  // The declaration of a set that holds sources.
  function SourceDecl(c: Config, filter: bool, name: SetName): Option<SetDecl>
  {
    match name
    case BreakGlass => if c.geo.breakGlass == [] then None else Some(Filled(BreakGlass, c.geo.breakGlass))
    case GlobalDeny => if c.deny == [] then None else Some(Filled(GlobalDeny, c.deny))
    case CrowdsecBlock => if filter && c.crowdsec then Some(Runtime(CrowdsecBlock)) else None
    case GeoSet => if c.geo.enabled then Some(Runtime(GeoSet)) else None
    case _ => if KindOf(name).Some? then RouteSetDecl(c, name, |c.routes|) else None
  }

  lemma SetsAreDeclared(c: Config, filter: bool, name: SetName)
    requires name in {BreakGlass, GlobalDeny, CrowdsecBlock, GeoSet} || KindOf(name).Some?
    ensures DeclOf(TableSets(c, filter), name) == SourceDecl(c, filter, name)
  {
    var n := |c.routes|;
    var g, a, b, d := GlobalDecls(c, filter), RouteDecls(c, SrcSets, n), RouteDecls(c, DenySets, n), RouteDecls(c, GeoSets, n);
    var m := if filter then MeterDecls(NeedsUpTo(c, n)) else [];
    RouteDeclsMeaning(c, SrcSets, n, name);
    RouteDeclsMeaning(c, DenySets, n, name);
    RouteDeclsMeaning(c, GeoSets, n, name);
    if filter {
      ConnNeedsAreMeters(c, n);
      MetersDeclareMeters(NeedsUpTo(c, n), name);
    }
    DeclConcat(g, a, name);
    DeclConcat(g + a, b, name);
    DeclConcat(g + a + b, d, name);
    DeclConcat(g + a + b + d, m, name);
    GlobalDeclsMeaning(c, filter, name);
  }

  lemma GlobalDeclsMeaning(c: Config, filter: bool, name: SetName)
    requires name in {BreakGlass, GlobalDeny, CrowdsecBlock, GeoSet} || KindOf(name).Some?
    ensures DeclOf(GlobalDecls(c, filter), name) == if KindOf(name).Some? then None else SourceDecl(c, filter, name)
  {
    var g1, g2 := OneDecl(c.geo.enabled, Runtime(GeoSet)), OneDecl(filter && c.crowdsec, Runtime(CrowdsecBlock));
    var g3, g4 := OneDecl(c.geo.breakGlass != [], Filled(BreakGlass, c.geo.breakGlass)), OneDecl(c.deny != [], Filled(GlobalDeny, c.deny));
    assert GlobalDecls(c, filter) == g1 + g2 + g3 + g4;
    DeclConcat(g1, g2, name);
    DeclConcat(g1 + g2, g3, name);
    DeclConcat(g1 + g2 + g3, g4, name);
  }

  function OneDecl(on: bool, d: SetDecl): (r: seq<SetDecl>)
    ensures forall name :: DeclOf(r, name) == if on && d.name == name then Some(d) else None
  {
    if on then [d] else []
  }

  // ---- The policy, said of sources ----

  predicate Glass(c: Config, a: Addr)
  {
    InAny(c.geo.breakGlass, a)
  }

  predicate Denied(c: Config, r: Route, a: Addr)
  {
    InAny(c.deny, a) || InAny(r.deny, a)
  }

  predicate AllowListed(r: Route, a: Addr)
  {
    r.allow == [] || InAny(r.allow, a)
  }

  predicate Banned(c: Config, k: Kernel, a: Addr)
  {
    c.crowdsec && k.listed(CrowdsecBlock, a) && !Glass(c, a)
  }

  predicate GeoApplies(c: Config, r: Route)
  {
    c.geo.enabled && r.geoMode != Off
  }

  predicate InZones(k: Kernel, i: nat, r: Route, a: Addr)
  {
    k.listed(if r.geoMode == Custom then RouteGeo(i) else GeoSet, a)
  }

  predicate GeoPasses(c: Config, k: Kernel, i: nat, r: Route, a: Addr)
  {
    !GeoApplies(c, r) || Glass(c, a) || (if c.geo.block then !InZones(k, i, r, a) else InZones(k, i, r, a))
  }

  // What prerouting does with a source on a port of the route.
  datatype Admission = Refused | Ignored | Admitted

  function AdmissionOf(c: Config, k: Kernel, i: nat, r: Route, a: Addr): Admission
  {
    if Denied(c, r, a) then Refused
    else if !GeoApplies(c, r) then if AllowListed(r, a) then Admitted else Ignored
    else if c.geo.block then
      if InZones(k, i, r, a) && !Glass(c, a) then Refused else if AllowListed(r, a) then Admitted else Ignored
    else if (AllowListed(r, a) && InZones(k, i, r, a)) || Glass(c, a) then Admitted else Ignored
  }

  /** Admitted and on the allow list is the whole of the policy's source checks but CrowdSec's. */
  lemma AdmissionMeaning(c: Config, k: Kernel, i: nat, r: Route, a: Addr)
    ensures AdmissionOf(c, k, i, r, a) == Admitted && AllowListed(r, a) <==>
            !Denied(c, r, a) && AllowListed(r, a) && GeoPasses(c, k, i, r, a)
  {
  }

  // ---- Prerouting ----

  function NatTable(c: Config, k: Kernel): Table
  {
    Table(TableSets(c, false), k)
  }

  function InetTable(c: Config, k: Kernel): Table
  {
    Table(TableSets(c, true), k)
  }

  // The sets the rules of policy q look in hold the sources the config lists.
  lemma GlobalDenySetHolds(c: Config, filter: bool, k: Kernel, q: Policy, a: Addr)
    requires Compiled(c, q)
    ensures q.globalDeny.Some? && Contains(Table(TableSets(c, filter), k), GlobalDeny, a) <==> InAny(c.deny, a)
  {
    SetsAreDeclared(c, filter, GlobalDeny);
  }

  lemma RouteDenySetHolds(c: Config, filter: bool, k: Kernel, q: Policy, a: Addr)
    requires Compiled(c, q)
    ensures q.deny.Some? && Contains(Table(TableSets(c, filter), k), RouteDeny(q.route), a) <==> InAny(c.routes[q.route].deny, a)
  {
    SetsAreDeclared(c, filter, RouteDeny(q.route));
  }

  lemma GlassSetHolds(c: Config, filter: bool, k: Kernel, q: Policy, a: Addr)
    requires Compiled(c, q)
    ensures q.breakGlass.Some? && Contains(Table(TableSets(c, filter), k), BreakGlass, a) <==> Glass(c, a)
  {
    SetsAreDeclared(c, filter, BreakGlass);
  }

  lemma AllowSetHolds(c: Config, filter: bool, k: Kernel, q: Policy, a: Addr)
    requires Compiled(c, q)
    ensures AllowListed(c.routes[q.route], a) <==> q.allow == None || Contains(Table(TableSets(c, filter), k), q.allow.value, a)
  {
    SetsAreDeclared(c, filter, RouteSrc(q.route));
  }

  lemma CrowdsecSetHolds(c: Config, k: Kernel, q: Policy, a: Addr)
    requires Compiled(c, q)
    ensures q.crowdsec.Some? && Contains(InetTable(c, k), CrowdsecBlock, a) <==> c.crowdsec && k.listed(CrowdsecBlock, a)
  {
    SetsAreDeclared(c, true, CrowdsecBlock);
  }

  lemma GeoSetHolds(c: Config, filter: bool, k: Kernel, q: Policy, a: Addr)
    requires Compiled(c, q) && !q.geo.NoGeo?
    ensures Contains(Table(TableSets(c, filter), k), q.geo.name, a) <==> InZones(k, q.route, c.routes[q.route], a)
  {
    SetsAreDeclared(c, filter, q.geo.name);
  }
}

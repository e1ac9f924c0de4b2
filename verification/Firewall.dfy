/** The compiler from forwarding routes to sets and chains. */
module Firewall {
  import opened Common
  import opened Ports
  import opened Routes
  import opened Nft

  datatype Geo = Geo(enabled: bool, block: bool, onInput: bool, breakGlass: seq<Cidr>)

  datatype InputAllow = InputAllow(disabled: bool, proto: Word, port: Entry)

  datatype Config = Config(
    geo: Geo,
    crowdsec: bool,
    maintenance: bool,
    deny: seq<Cidr>,
    rate: RateLimit,
    routes: seq<Route>,
    inputAllows: seq<InputAllow>,
    adminPorts: seq<nat>,
    listenPort: nat,
    locals: seq<Cidr>            // ranges forwarded for local containers
  )

  // A DNAT rule's public port expression, and its port at the target when that is not the same.
  datatype Line = Line(public: Entry, to: Option<Plain>)

  // The port match in the forward chain: after DNAT, with the public ports as well when there are maps.
  datatype Forward = Forward(ports: seq<Entry>, orig: Option<seq<Entry>>)

  datatype GeoRule = NoGeo | BlockListed(name: SetName) | OnlyListed(name: SetName)

  // What the writers need for one route and protocol. A set is None when its feature is off.
  datatype Policy = Policy(
    route: nat,
    proto: Proto,
    ports: seq<Entry>,
    forward: Forward,
    target: Addr,
    allow: Option<SetName>,
    deny: Option<SetName>,
    geo: GeoRule,
    global: RateLimit,
    rate: RateLimit,
    lines: seq<Line>,
    crowdsec: Option<SetName>,
    breakGlass: Option<SetName>,
    globalDeny: Option<SetName>
  )

  function IfAny(cidrs: seq<Cidr>, name: SetName): Option<SetName>
  {
    if cidrs == [] then None else Some(name)
  }

  // ---- One policy per active route and protocol ----

  function EntryLines(e: Entry, maps: seq<PortMap>): Option<seq<Line>>
  {
    match PairsOf(e, maps)
    case WidthsDiffer => None
    case Pairs(ps) => Some(PairLines(ps))
    case NotARange =>
      match MapOf(e, maps) {
        case None => Some([Line(e, None)])
        case Some(One(to)) => Some([Line(e, Some(to))])
        case Some(Braces(_)) => None
      }
  }

  function PairLines(ps: seq<(nat, nat)>): seq<Line>
  {
    seq(|ps|, i requires 0 <= i < |ps| => Line(One(Single(ps[i].0)), Some(Single(ps[i].1))))
  }

  function LinesOf(es: seq<Entry>, maps: seq<PortMap>): Option<seq<Line>>
  {
    if es == [] then Some([])
    else
      var before, last := LinesOf(es[..|es| - 1], maps), EntryLines(es[|es| - 1], maps);
      if before == None || last == None then None else Some(before.value + last.value)
  }

  // The lines of one entry.
  method BuildEntryLines(e: Entry, maps: seq<PortMap>) returns (lines: Option<seq<Line>>)
    ensures lines == EntryLines(e, maps)
  {
    var pairs := RangePortPairs(e, maps);
    match pairs {
      case WidthsDiffer => return None;
      case Pairs(ps) =>
        var out: seq<Line> := [];
        for k := 0 to |ps|
          invariant out == PairLines(ps)[..k]
        {
          out := out + [Line(One(Single(ps[k].0)), Some(Single(ps[k].1)))];
        }
        assert out == PairLines(ps);
        return Some(out);
      case NotARange =>
        var to := MapOf(e, maps);
        if to.Some? && to.value.Braces? {
          return None;
        }
        return Some([Line(e, if to == None then None else Some(to.value.plain))]);
    }
  }

  /** buildRouteDNATLines. */
  method BuildLines(r: Route) returns (lines: Option<seq<Line>>)
    ensures lines == LinesOf(r.ports, r.maps)
  {
    var out: seq<Line> := [];
    for i := 0 to |r.ports|
      invariant LinesOf(r.ports[..i], r.maps) == Some(out)
    {
      LinesStep(r.ports, r.maps, i);
      var more := BuildEntryLines(r.ports[i], r.maps);
      if more == None {
        LinesPrefix(r.ports, r.maps, i + 1);
        return None;
      }
      out := out + more.value;
    }
    assert r.ports[..|r.ports|] == r.ports;
    lines := Some(out);
  }

  lemma LinesStep(es: seq<Entry>, maps: seq<PortMap>, i: nat)
    requires i < |es|
    ensures LinesOf(es[..i + 1], maps) ==
            if LinesOf(es[..i], maps) == None || EntryLines(es[i], maps) == None then None
            else Some(LinesOf(es[..i], maps).value + EntryLines(es[i], maps).value)
  {
    assert es[..i + 1][..i] == es[..i];
  }

  lemma {:induction false} LinesPrefix(es: seq<Entry>, maps: seq<PortMap>, n: nat)
    requires n <= |es| && LinesOf(es[..n], maps) == None
    ensures LinesOf(es, maps) == None
    decreases |es| - n
  {
    if n < |es| {
      assert es[..n + 1][..n] == es[..n];
      LinesPrefix(es, maps, n + 1);
    } else {
      assert es[..n] == es;
    }
  }

  function InternalPort(e: Entry, maps: seq<PortMap>): Entry
  {
    if MapOf(e, maps).Some? then MapOf(e, maps).value else e
  }

  /** routeForwardPorts. */
  function ForwardPorts(r: Route): Forward
  {
    if r.maps == [] then Forward(r.ports, None)
    else Forward(seq(|r.ports|, i requires 0 <= i < |r.ports| => InternalPort(r.ports[i], r.maps)), Some(r.ports))
  }

  /** routeGeoParamsFor. */
  function GeoOf(c: Config, i: nat, r: Route): GeoRule
  {
    if r.geoMode == Off || !c.geo.enabled then NoGeo
    else
      var name := if r.geoMode == Custom then RouteGeo(i) else GeoSet;
      if c.geo.block then BlockListed(name) else OnlyListed(name)
  }

  function PolicyOf(c: Config, i: nat, r: Route, proto: Proto, lines: seq<Line>): Policy
  {
    Policy(i, proto, r.ports, ForwardPorts(r), r.target, IfAny(r.allow, RouteSrc(i)), IfAny(r.deny, RouteDeny(i)), GeoOf(c, i, r),
           c.rate, r.rate, lines, if c.crowdsec then Some(CrowdsecBlock) else None, IfAny(c.geo.breakGlass, BreakGlass),
           IfAny(c.deny, GlobalDeny))
  }

  function RoutePoliciesOf(c: Config, i: nat): Option<seq<Policy>>
    requires i < |c.routes|
  {
    var r := c.routes[i];
    if r.disabled then Some([])
    else if r.ports == [] || !ReadableProto(r.proto) || LinesOf(r.ports, r.maps) == None then None
    else Some(ForProtos(c, i, r, ProtosOf(r.proto), LinesOf(r.ports, r.maps).value))
  }

  function ForProtos(c: Config, i: nat, r: Route, protos: seq<Proto>, lines: seq<Line>): seq<Policy>
  {
    seq(|protos|, k requires 0 <= k < |protos| => PolicyOf(c, i, r, protos[k], lines))
  }

  // The policies of the first n routes.
  function PoliciesUpTo(c: Config, n: nat): Option<seq<Policy>>
    requires n <= |c.routes|
  {
    if n == 0 then Some([])
    else
      var before, last := PoliciesUpTo(c, n - 1), RoutePoliciesOf(c, n - 1);
      if before == None || last == None then None else Some(before.value + last.value)
  }

  function Policies(c: Config): Option<seq<Policy>>
  {
    if c.maintenance then Some([]) else PoliciesUpTo(c, |c.routes|)
  }

  method RoutePoliciesAt(c: Config, i: nat) returns (r: Option<seq<Policy>>)
    requires i < |c.routes|
    ensures r == RoutePoliciesOf(c, i)
  {
    var route := c.routes[i];
    if route.disabled {
      return Some([]);
    }
    if route.ports == [] {
      return None;
    }
    var protos := ParseProtocols(route.proto);
    if protos == BadProtocol {
      return None;
    }
    var lines := BuildLines(route);
    if lines == None {
      return None;
    }
    var out: seq<Policy> := [];
    for k := 0 to |protos.list|
      invariant out == ForProtos(c, i, route, protos.list, lines.value)[..k]
    {
      out := out + [PolicyOf(c, i, route, protos.list[k], lines.value)];
    }
    assert out == ForProtos(c, i, route, protos.list, lines.value);
    r := Some(out);
  }

  /** routePolicies. */
  method RoutePolicies(c: Config) returns (r: Option<seq<Policy>>)
    ensures r == Policies(c)
  {
    if c.maintenance {
      return Some([]);
    }
    var out: seq<Policy> := [];
    for i := 0 to |c.routes|
      invariant PoliciesUpTo(c, i) == Some(out)
    {
      var more := RoutePoliciesAt(c, i);
      PoliciesPrefix(c, i + 1);
      if more == None {
        return None;
      }
      out := out + more.value;
    }
    r := Some(out);
  }

  lemma {:induction false} PoliciesPrefix(c: Config, n: nat)
    requires n <= |c.routes|
    ensures PoliciesUpTo(c, n) == None ==> PoliciesUpTo(c, |c.routes|) == None
    decreases |c.routes| - n
  {
    if n < |c.routes| {
      PoliciesPrefix(c, n + 1);
    }
  }

  // ---- Prerouting ----

  function SrcMatch(name: Option<SetName>): seq<Match>
  {
    if name.Some? then [Src(name.value)] else []
  }

  function NotSrcMatch(name: Option<SetName>): seq<Match>
  {
    if name.Some? then [NotSrc(name.value)] else []
  }

  // A drop for the sources in a set, when there is one.
  function DropIn(name: Option<SetName>, scope: seq<Match>, ports: seq<Match>, route: nat): seq<Rule>
  {
    if name == None then [] else [Rule(scope + [Src(name.value)] + ports, Drop, Some(route))]
  }

  /** writePolicyAllow. */
  function AllowRule(allow: Option<SetName>, geo: Option<SetName>, ports: seq<Match>, v: Verdict, route: nat): seq<Rule>
  {
    [Rule(SrcMatch(allow) + SrcMatch(geo) + ports, v, Some(route))]
  }

  /** writePolicyGeoBlockDrop. */
  function GeoBlockDrop(q: Policy, geo: SetName, ports: seq<Match>): seq<Rule>
  {
    [Rule([Src(geo)] + NotSrcMatch(q.breakGlass) + ports, Drop, Some(q.route))]
  }

  /** writePolicyPrerouting. */
  function PreroutingRules(q: Policy, public: Entry, v: Verdict): seq<Rule>
  {
    var ports := [Dport(q.proto, [public])];
    DropIn(q.globalDeny, [], ports, q.route) + DropIn(q.deny, [], ports, q.route) +
    match q.geo {
      case NoGeo => AllowRule(q.allow, None, ports, v, q.route)
      case BlockListed(geo) => GeoBlockDrop(q, geo, ports) + AllowRule(q.allow, None, ports, v, q.route)
      case OnlyListed(geo) =>
        AllowRule(q.allow, Some(geo), ports, v, q.route) +
        if q.breakGlass.Some? then [Rule([Src(q.breakGlass.value)] + ports, v, Some(q.route))] else []
    }
  }

  function LineRules(q: Policy, line: Line, paused: bool): seq<Rule>
  {
    PreroutingRules(q, line.public, if paused then Pause else Dnat(q.target, line.to))
  }

  function AllLineRules(q: Policy, lines: seq<Line>, paused: bool): seq<Rule>
  {
    if lines == [] then []
    else AllLineRules(q, lines[..|lines| - 1], paused) + LineRules(q, lines[|lines| - 1], paused)
  }

  function NatRules(qs: seq<Policy>, paused: set<nat>): seq<Rule>
  {
    if qs == [] then []
    else
      var q := qs[|qs| - 1];
      NatRules(qs[..|qs| - 1], paused) + AllLineRules(q, q.lines, q.route in paused)
  }

  // The prerouting rules of one policy: writePausedRouteDrop for a paused route, its DNAT lines otherwise.
  method WriteLines(q: Policy, paused: bool) returns (b: seq<Rule>)
    ensures b == AllLineRules(q, q.lines, paused)
  {
    b := [];
    for i := 0 to |q.lines|
      invariant b == AllLineRules(q, q.lines[..i], paused)
    {
      assert q.lines[..i + 1][..i] == q.lines[..i];
      b := b + LineRules(q, q.lines[i], paused);
    }
    assert q.lines[..|q.lines|] == q.lines;
  }

  /** writeNATPreroutingRules. */
  method WriteNatPrerouting(qs: seq<Policy>, paused: set<nat>) returns (b: seq<Rule>)
    ensures b == NatRules(qs, paused)
  {
    b := [];
    for i := 0 to |qs|
      invariant b == NatRules(qs[..i], paused)
    {
      assert qs[..i + 1][..i] == qs[..i];
      var lines := WriteLines(qs[i], qs[i].route in paused);
      b := b + lines;
    }
    assert qs[..|qs|] == qs;
  }

  // ---- Rate limits ----

  // rateLimitBindingForRoute: the meters of a policy, its own before the global ones.
  function ConnBound(q: Policy): bool
  {
    q.rate.conn > 0 || q.global.conn > 0
  }

  function SynBinding(q: Policy): Option<SetName>
  {
    if q.rate.syn > 0 then Some(RouteSynMeter(q.route)) else if q.global.syn > 0 then Some(SynMeter) else None
  }

  function UdpBinding(q: Policy): Option<SetName>
  {
    if q.rate.udp > 0 then Some(RouteUdpMeter(q.route)) else if q.global.udp > 0 then Some(UdpMeter) else None
  }

  function ConnRules(q: Policy, head: seq<Match>): seq<Rule>
  {
    var conn := ConnMeter(q.route, q.proto);
    if ConnBound(q) then [Rule(head + [Known, Over(conn)], Drop, Some(q.route)), Rule(head + [Fresh, Over(conn)], Drop, Some(q.route))] else []
  }

  function MeterRule(q: Policy, meter: Option<SetName>, head: seq<Match>): seq<Rule>
  {
    if meter == None then [] else [Rule(head + [Over(meter.value)], Drop, Some(q.route))]
  }

  /** writePolicyRateLimitScoped. */
  function RateRules(q: Policy, scope: seq<Match>, ports: seq<Match>): seq<Rule>
  {
    var head := scope + NotSrcMatch(q.breakGlass) + ports;
    ConnRules(q, head) +
    MeterRule(q, if q.proto == Tcp then SynBinding(q) else None, head + [SynFlag, Fresh]) +
    MeterRule(q, if q.proto == Udp then UdpBinding(q) else None, head)
  }

  // ---- Forward ----

  function ForwardMatch(q: Policy): seq<Match>
  {
    [Dport(q.proto, q.forward.ports)] + if q.forward.orig.Some? then [OrigDport(q.forward.orig.value)] else []
  }

  const TO_TUNNEL: seq<Match> := [In(Wan), Out(Tunnel)]

  /** writePolicyForwardDrops, with writePolicyCrowdsecForwardDrop. */
  function ForwardDrops(q: Policy): seq<Rule>
  {
    var ports := ForwardMatch(q);
    DropIn(q.globalDeny, TO_TUNNEL, ports, q.route) + DropIn(q.deny, TO_TUNNEL, ports, q.route) +
    (if q.crowdsec.Some? then [Rule(TO_TUNNEL + [Src(q.crowdsec.value)] + NotSrcMatch(q.breakGlass) + ports, Drop, Some(q.route))] else []) +
    RateRules(q, TO_TUNNEL, ports)
  }

  function ForwardAccept(q: Policy): Rule
  {
    Rule(TO_TUNNEL + SrcMatch(q.allow) + [Dst(q.target)] + ForwardMatch(q), Accept, Some(q.route))
  }

  function AllForwardDrops(qs: seq<Policy>): seq<Rule>
  {
    if qs == [] then [] else AllForwardDrops(qs[..|qs| - 1]) + ForwardDrops(qs[|qs| - 1])
  }

  function AllForwardAccepts(qs: seq<Policy>): seq<Rule>
  {
    if qs == [] then [] else AllForwardAccepts(qs[..|qs| - 1]) + [ForwardAccept(qs[|qs| - 1])]
  }

  function LocalRules(locals: seq<Cidr>): seq<Rule>
  {
    if locals == [] then []
    else
      var c := locals[|locals| - 1];
      LocalRules(locals[..|locals| - 1]) +
      [Rule([In(Wan), NotOut(Tunnel), DstIn(c)], Accept, None), Rule([SrcIn(c), Out(Wan)], Accept, None)]
  }

  function ForwardChain(c: Config, qs: seq<Policy>): seq<Rule>
  {
    LocalRules(c.locals) + AllForwardDrops(qs) + [Rule([Known], Accept, None)] + AllForwardAccepts(qs) +
    [Rule([In(Tunnel), Out(Wan), Known], Accept, None), Rule([Sampled], Drop, None)]
  }

  method WriteLocals(locals: seq<Cidr>) returns (b: seq<Rule>)
    ensures b == LocalRules(locals)
  {
    b := [];
    for i := 0 to |locals|
      invariant b == LocalRules(locals[..i])
    {
      assert locals[..i + 1][..i] == locals[..i];
      b := b + [Rule([In(Wan), NotOut(Tunnel), DstIn(locals[i])], Accept, None), Rule([SrcIn(locals[i]), Out(Wan)], Accept, None)];
    }
    assert locals[..|locals|] == locals;
  }

  method WriteForwardDrops(qs: seq<Policy>) returns (b: seq<Rule>)
    ensures b == AllForwardDrops(qs)
  {
    b := [];
    for i := 0 to |qs|
      invariant b == AllForwardDrops(qs[..i])
    {
      assert qs[..i + 1][..i] == qs[..i];
      b := b + ForwardDrops(qs[i]);
    }
    assert qs[..|qs|] == qs;
  }

  method WriteForwardAccepts(qs: seq<Policy>) returns (b: seq<Rule>)
    ensures b == AllForwardAccepts(qs)
  {
    b := [];
    for i := 0 to |qs|
      invariant b == AllForwardAccepts(qs[..i])
    {
      assert qs[..i + 1][..i] == qs[..i];
      b := b + [ForwardAccept(qs[i])];
    }
    assert qs[..|qs|] == qs;
  }

  /** The forward chain of nftablesRoutes. */
  method WriteForward(c: Config, qs: seq<Policy>) returns (b: seq<Rule>)
    ensures b == ForwardChain(c, qs)
  {
    var locals := WriteLocals(c.locals);
    var drops := WriteForwardDrops(qs);
    var accepts := WriteForwardAccepts(qs);
    b := locals + drops + [Rule([Known], Accept, None)] + accepts;
    b := b + [Rule([In(Tunnel), Out(Wan), Known], Accept, None), Rule([Sampled], Drop, None)];
  }

  // ---- Counting ----

  // The public ports are always required, so each rule's traffic is its own.
  function CountRule(q: Policy): Rule
  {
    var ports := if q.forward.orig == None then [Dport(q.proto, q.forward.ports), OrigDport(q.ports)] else ForwardMatch(q);
    Rule(TO_TUNNEL + [Dst(q.target)] + ports, Count(q.proto), Some(q.route))
  }

  function CountChain(qs: seq<Policy>): seq<Rule>
  {
    if qs == [] then [] else CountChain(qs[..|qs| - 1]) + [CountRule(qs[|qs| - 1])]
  }

  /** writeRouteAcceptedTable. */
  method WriteCounts(qs: seq<Policy>) returns (b: seq<Rule>)
    ensures b == CountChain(qs)
  {
    b := [];
    for i := 0 to |qs|
      invariant b == CountChain(qs[..i])
    {
      assert qs[..i + 1][..i] == qs[..i];
      b := b + [CountRule(qs[i])];
    }
    assert qs[..|qs|] == qs;
  }

  // ---- Input ----

  // writeGeoLogDrop: a sampled log, then the drop.
  function GeoLogDrop(ms: seq<Match>, route: Option<nat>): seq<Rule>
  {
    [Rule(ms + [Sampled], Log, route), Rule(ms, Drop, route)]
  }

  /** writePolicyInputPort. */
  function InputPolicy(q: Policy): seq<Rule>
  {
    var ports := [Dport(q.proto, q.ports)];
    DropIn(q.globalDeny, [], ports, q.route) + DropIn(q.deny, [], ports, q.route) +
    (if q.crowdsec.Some? then [Rule([Src(q.crowdsec.value)] + NotSrcMatch(q.breakGlass) + ports, Drop, Some(q.route))] else []) +
    RateRules(q, [], ports) +
    match q.geo {
      case NoGeo => AllowRule(q.allow, None, ports, Accept, q.route)
      case BlockListed(geo) =>
        GeoLogDrop([Src(geo)] + NotSrcMatch(q.breakGlass) + ports, Some(q.route)) + AllowRule(q.allow, None, ports, Accept, q.route)
      case OnlyListed(geo) =>
        AllowRule(q.allow, Some(geo), ports, Accept, q.route) +
        if q.breakGlass.Some? then [Rule([Src(q.breakGlass.value)] + ports, Accept, Some(q.route))]
        else GeoLogDrop(ports + [NotSrc(geo)], Some(q.route))
    }
  }

  /** writeGeoProtoPortInputRules for an input_allows entry. */
  function OpenPortRules(c: Config, proto: Proto, port: Entry): seq<Rule>
  {
    var ports := [Dport(proto, [port])];
    var glass := IfAny(c.geo.breakGlass, BreakGlass);
    if !(c.geo.enabled && c.geo.onInput) then [Rule(ports, Accept, None)]
    else if c.geo.block then GeoLogDrop([Src(GeoSet)] + NotSrcMatch(glass) + ports, None) + [Rule(ports, Accept, None)]
    else
      [Rule([Src(GeoSet)] + ports, Accept, None)] +
      (if glass.Some? then [Rule([Src(glass.value)] + ports, Accept, None)] else []) +
      GeoLogDrop(ports + [NotSrc(GeoSet)], None)
  }

  // The rules of one entry, with inputAllowProtoPort, which takes nothing but tcp and udp.
  function InputAllowRules(c: Config, a: InputAllow): Option<seq<Rule>>
  {
    if a.disabled then Some([])
    else match WordProto(a.proto)
         case None => None
         case Some(proto) => Some(OpenPortRules(c, proto, a.port))
  }

  function AllInputAllows(c: Config, allows: seq<InputAllow>): Option<seq<Rule>>
  {
    if allows == [] then Some([])
    else
      var before, last := AllInputAllows(c, allows[..|allows| - 1]), InputAllowRules(c, allows[|allows| - 1]);
      if before == None || last == None then None else Some(before.value + last.value)
  }

  function AdminRules(ports: seq<nat>): seq<Rule>
  {
    seq(|ports|, i requires 0 <= i < |ports| => Rule([Dport(Tcp, [One(Single(ports[i]))])], Accept, None))
  }

  function AllInputPolicies(qs: seq<Policy>): seq<Rule>
  {
    if qs == [] then [] else AllInputPolicies(qs[..|qs| - 1]) + InputPolicy(qs[|qs| - 1])
  }

  function InputChain(c: Config, qs: seq<Policy>, allows: seq<Rule>): seq<Rule>
  {
    [Rule([Known], Accept, None), Rule([In(Loopback)], Accept, None)] + allows + AdminRules(c.adminPorts) +
    [Rule([Dport(Udp, [One(Single(c.listenPort))])], Accept, None)] + AllInputPolicies(qs)
  }

  method WriteInputAllows(c: Config) returns (b: Option<seq<Rule>>)
    ensures b == AllInputAllows(c, c.inputAllows)
  {
    var out: seq<Rule> := [];
    for i := 0 to |c.inputAllows|
      invariant AllInputAllows(c, c.inputAllows[..i]) == Some(out)
    {
      assert c.inputAllows[..i + 1][..i] == c.inputAllows[..i];
      var more := InputAllowRules(c, c.inputAllows[i]);
      if more == None {
        AllowsPrefix(c, c.inputAllows, i + 1);
        return None;
      }
      out := out + more.value;
    }
    assert c.inputAllows[..|c.inputAllows|] == c.inputAllows;
    b := Some(out);
  }

  lemma {:induction false} AllowsPrefix(c: Config, allows: seq<InputAllow>, n: nat)
    requires n <= |allows| && AllInputAllows(c, allows[..n]) == None
    ensures AllInputAllows(c, allows) == None
    decreases |allows| - n
  {
    if n < |allows| {
      assert allows[..n + 1][..n] == allows[..n];
      AllowsPrefix(c, allows, n + 1);
    } else {
      assert allows[..n] == allows;
    }
  }

  method WriteAdminPorts(ports: seq<nat>) returns (b: seq<Rule>)
    ensures b == AdminRules(ports)
  {
    b := [];
    for i := 0 to |ports|
      invariant b == AdminRules(ports)[..i]
    {
      b := b + [Rule([Dport(Tcp, [One(Single(ports[i]))])], Accept, None)];
    }
  }

  method WriteInputPolicies(qs: seq<Policy>) returns (b: seq<Rule>)
    ensures b == AllInputPolicies(qs)
  {
    b := [];
    for i := 0 to |qs|
      invariant b == AllInputPolicies(qs[..i])
    {
      assert qs[..i + 1][..i] == qs[..i];
      b := b + InputPolicy(qs[i]);
    }
    assert qs[..|qs|] == qs;
  }

  /** The input chain of nftablesRoutes; none when an entry of input_allows has another protocol. */
  method WriteInput(c: Config, qs: seq<Policy>) returns (r: Option<seq<Rule>>)
    ensures r == match AllInputAllows(c, c.inputAllows) { case None => None case Some(allows) => Some(InputChain(c, qs, allows)) }
  {
    var allows := WriteInputAllows(c);
    if allows == None {
      return None;
    }
    var admin := WriteAdminPorts(c.adminPorts);
    var policies := WriteInputPolicies(qs);
    var b := [Rule([Known], Accept, None), Rule([In(Loopback)], Accept, None)] + allows.value + admin;
    b := b + [Rule([Dport(Udp, [One(Single(c.listenPort))])], Accept, None)] + policies;
    r := Some(b);
  }

  // ---- Set declarations ----

  // The sets of the route at i that hold source lists, one kind at a time.
  function RouteSrcDecl(c: Config, i: nat): seq<SetDecl>
    requires i < |c.routes|
  {
    if c.routes[i].disabled || c.routes[i].allow == [] then [] else [Filled(RouteSrc(i), c.routes[i].allow)]
  }

  function RouteDenyDecl(c: Config, i: nat): seq<SetDecl>
    requires i < |c.routes|
  {
    if c.routes[i].disabled || c.routes[i].deny == [] then [] else [Filled(RouteDeny(i), c.routes[i].deny)]
  }

  function RouteGeoDecl(c: Config, i: nat): seq<SetDecl>
    requires i < |c.routes|
  {
    if !c.geo.enabled || c.routes[i].disabled || c.routes[i].geoMode != Custom then [] else [Runtime(RouteGeo(i))]
  }

  datatype Kind = SrcSets | DenySets | GeoSets

  function RouteDecl(c: Config, k: Kind, i: nat): seq<SetDecl>
    requires i < |c.routes|
  {
    match k
    case SrcSets => RouteSrcDecl(c, i)
    case DenySets => RouteDenyDecl(c, i)
    case GeoSets => RouteGeoDecl(c, i)
  }

  function RouteDecls(c: Config, k: Kind, n: nat): seq<SetDecl>
    requires n <= |c.routes|
  {
    if n == 0 then [] else RouteDecls(c, k, n - 1) + RouteDecl(c, k, n - 1)
  }

  // What rateLimitSetNeedsFor collects.
  datatype Needs = Needs(syn: bool, udp: bool, routeSyn: seq<nat>, routeUdp: seq<nat>, conn: seq<SetName>)

  function ConnNeeds(c: Config, i: nat): seq<SetName>
    requires i < |c.routes|
  {
    var r := c.routes[i];
    if r.disabled || (r.rate.conn == 0 && c.rate.conn == 0) || !ReadableProto(r.proto) then []
    else seq(|ProtosOf(r.proto)|, k requires 0 <= k < |ProtosOf(r.proto)| => ConnMeter(i, ProtosOf(r.proto)[k]))
  }

  function SynNeeds(c: Config, i: nat): seq<nat>
    requires i < |c.routes|
  {
    if !c.routes[i].disabled && c.routes[i].rate.syn > 0 then [i] else []
  }

  function UdpNeeds(c: Config, i: nat): seq<nat>
    requires i < |c.routes|
  {
    if !c.routes[i].disabled && c.routes[i].rate.udp > 0 then [i] else []
  }

  function NeedsUpTo(c: Config, n: nat): (s: Needs)
    requires n <= |c.routes|
    ensures s.syn == (c.rate.syn > 0) && s.udp == (c.rate.udp > 0)
  {
    if n == 0 then Needs(c.rate.syn > 0, c.rate.udp > 0, [], [], [])
    else
      var s := NeedsUpTo(c, n - 1);
      Needs(s.syn, s.udp, s.routeSyn + SynNeeds(c, n - 1), s.routeUdp + UdpNeeds(c, n - 1), s.conn + ConnNeeds(c, n - 1))
  }

  method ConnSets(c: Config, i: nat) returns (conn: seq<SetName>)
    requires i < |c.routes|
    ensures conn == ConnNeeds(c, i)
  {
    conn := [];
    var r := c.routes[i];
    if !r.disabled && (r.rate.conn > 0 || c.rate.conn > 0) {
      var protos := ParseProtocols(r.proto);
      if protos.Protocols? {
        for k := 0 to |protos.list|
          invariant conn == ConnNeeds(c, i)[..k]
        {
          conn := conn + [ConnMeter(i, protos.list[k])];
        }
      }
    }
  }

  /** rateLimitSetNeedsFor. */
  method RateLimitNeeds(c: Config) returns (s: Needs)
    ensures s == NeedsUpTo(c, |c.routes|)
  {
    s := Needs(c.rate.syn > 0, c.rate.udp > 0, [], [], []);
    for i := 0 to |c.routes|
      invariant s == NeedsUpTo(c, i)
    {
      var r := c.routes[i];
      var routeSyn, routeUdp, syn, udp := [], [], s.syn, s.udp;
      if !r.disabled {
        if r.rate.syn > 0 {
          routeSyn := [i];
        } else if c.rate.syn > 0 {
          syn := true;
        }
        if r.rate.udp > 0 {
          routeUdp := [i];
        } else if c.rate.udp > 0 {
          udp := true;
        }
      }
      var conn := ConnSets(c, i);
      s := Needs(syn, udp, s.routeSyn + routeSyn, s.routeUdp + routeUdp, s.conn + conn);
    }
  }

  function RuntimeAll(names: seq<SetName>): seq<SetDecl>
  {
    seq(|names|, i requires 0 <= i < |names| => Runtime(names[i]))
  }

  function RouteMeters(routes: seq<nat>, syn: bool): seq<SetDecl>
  {
    seq(|routes|, i requires 0 <= i < |routes| => Runtime(if syn then RouteSynMeter(routes[i]) else RouteUdpMeter(routes[i])))
  }

  /** writeRateLimitSets. The source ranges over Go maps, so the routes' meters come in any order. */
  function MeterDecls(s: Needs): seq<SetDecl>
  {
    (if s.syn then [Runtime(SynMeter)] else []) + (if s.udp then [Runtime(UdpMeter)] else []) +
    RouteMeters(s.routeSyn, true) + RouteMeters(s.routeUdp, false) + RuntimeAll(s.conn)
  }

  function GlobalDecls(c: Config, filter: bool): seq<SetDecl>
  {
    (if c.geo.enabled then [Runtime(GeoSet)] else []) +
    (if filter && c.crowdsec then [Runtime(CrowdsecBlock)] else []) +
    (if c.geo.breakGlass != [] then [Filled(BreakGlass, c.geo.breakGlass)] else []) +
    (if c.deny != [] then [Filled(GlobalDeny, c.deny)] else [])
  }

  function TableSets(c: Config, filter: bool): seq<SetDecl>
  {
    GlobalDecls(c, filter) + RouteDecls(c, SrcSets, |c.routes|) + RouteDecls(c, DenySets, |c.routes|) + RouteDecls(c, GeoSets, |c.routes|) +
    (if filter then MeterDecls(NeedsUpTo(c, |c.routes|)) else [])
  }

  method EmitRouteDecls(c: Config, k: Kind) returns (b: seq<SetDecl>)
    ensures b == RouteDecls(c, k, |c.routes|)
  {
    b := [];
    for i := 0 to |c.routes|
      invariant b == RouteDecls(c, k, i)
    {
      b := b + RouteDecl(c, k, i);
    }
  }

  /** emitTableSets. */
  method EmitTableSets(c: Config, filter: bool) returns (b: seq<SetDecl>)
    ensures b == TableSets(c, filter)
  {
    b := GlobalDecls(c, filter);
    var src := EmitRouteDecls(c, SrcSets);
    var deny := EmitRouteDecls(c, DenySets);
    var geo := EmitRouteDecls(c, GeoSets);
    b := b + src + deny + geo;
    if filter {
      var needs := RateLimitNeeds(c);
      b := b + MeterDecls(needs);
    }
  }

  // ---- The whole ruleset ----

  datatype Ruleset = Ruleset(
    inetSets: seq<SetDecl>,
    input: seq<Rule>,
    forward: seq<Rule>,
    natSets: seq<SetDecl>,
    prerouting: seq<Rule>,
    counts: seq<Rule>
  )

  function Compile(c: Config): Option<Ruleset>
  {
    match (Policies(c), AllInputAllows(c, c.inputAllows))
    case (Some(qs), Some(allows)) =>
      Some(Ruleset(TableSets(c, true), InputChain(c, qs, allows), ForwardChain(c, qs), TableSets(c, false), NatRules(qs, {}), CountChain(qs)))
    case _ => None
  }

  /** nftablesRoutes. */
  method NFTables(c: Config) returns (r: Option<Ruleset>)
    ensures r == Compile(c)
  {
    var qs := RoutePolicies(c);
    if qs == None {
      return None;
    }
    var inetSets := EmitTableSets(c, true);
    var input := WriteInput(c, qs.value);
    if input == None {
      return None;
    }
    var forward := WriteForward(c, qs.value);
    var natSets := EmitTableSets(c, false);
    var prerouting := WriteNatPrerouting(qs.value, {});
    var counts := WriteCounts(qs.value);
    r := Some(Ruleset(inetSets, input.value, forward, natSets, prerouting, counts));
  }
}

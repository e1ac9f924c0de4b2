/** A new packet from the WAN through prerouting and forward. */
module FirewallDelivery {
  import opened Common
  import opened Ports
  import opened Routes
  import opened Nft
  import opened Firewall
  import opened FirewallMeaning

  // ---- Rules one at a time ----

  lemma HitOne(r: Rule, t: Table, p: Packet)
    ensures Hit([r], t, p) == if Decides(r.verdict) && AllHold(r.matches, t, p) then Some(r) else None
  {
    assert [r][1..] == [];
  }

  lemma AllHoldOne(m: Match, t: Table, p: Packet)
    ensures AllHold([m], t, p) == Holds(m, t, p)
  {
    assert [m][1..] == [];
  }

  lemma SrcMatchHolds(name: Option<SetName>, t: Table, p: Packet)
    ensures AllHold(SrcMatch(name), t, p) <==> (name.Some? ==> Contains(t, name.value, p.src))
    ensures AllHold(NotSrcMatch(name), t, p) <==> (name.Some? ==> !Contains(t, name.value, p.src))
  {
    if name.Some? {
      AllHoldOne(Src(name.value), t, p);
      AllHoldOne(NotSrc(name.value), t, p);
    }
  }

  // scope, a source set, and ports.
  lemma ThreeParts(a: seq<Match>, b: seq<Match>, d: seq<Match>, t: Table, p: Packet)
    ensures AllHold(a + b + d, t, p) <==> AllHold(a, t, p) && AllHold(b, t, p) && AllHold(d, t, p)
  {
    AllHoldConcat(a, b, t, p);
    AllHoldConcat(a + b, d, t, p);
  }

  lemma DropInHit(name: Option<SetName>, scope: seq<Match>, ports: seq<Match>, i: nat, t: Table, p: Packet)
    ensures VerdictOf(DropIn(name, scope, ports, i), t, p) ==
            if name.Some? && AllHold(scope, t, p) && Contains(t, name.value, p.src) && AllHold(ports, t, p) then Some(Drop) else None
  {
    if name.Some? {
      var r := Rule(scope + [Src(name.value)] + ports, Drop, Some(i));
      HitOne(r, t, p);
      AllHoldOne(Src(name.value), t, p);
      ThreeParts(scope, [Src(name.value)], ports, t, p);
    }
  }

  lemma AllowHit(allow: Option<SetName>, geo: Option<SetName>, ports: seq<Match>, v: Verdict, i: nat, t: Table, p: Packet)
    requires Decides(v)
    ensures VerdictOf(AllowRule(allow, geo, ports, v, i), t, p) ==
            if (allow.Some? ==> Contains(t, allow.value, p.src)) && (geo.Some? ==> Contains(t, geo.value, p.src)) && AllHold(ports, t, p)
            then Some(v) else None
  {
    HitOne(AllowRule(allow, geo, ports, v, i)[0], t, p);
    SrcMatchHolds(allow, t, p);
    SrcMatchHolds(geo, t, p);
    ThreeParts(SrcMatch(allow), SrcMatch(geo), ports, t, p);
  }

  lemma ThreeVerdicts(a: seq<Rule>, b: seq<Rule>, d: seq<Rule>, t: Table, p: Packet)
    ensures VerdictOf(a + b + d, t, p) ==
            if VerdictOf(a, t, p).Some? then VerdictOf(a, t, p)
            else if VerdictOf(b, t, p).Some? then VerdictOf(b, t, p)
            else VerdictOf(d, t, p)
  {
    VerdictConcat(a, b, t, p);
    VerdictConcat(a + b, d, t, p);
  }

  lemma VerdictConcat(a: seq<Rule>, b: seq<Rule>, t: Table, p: Packet)
    ensures VerdictOf(a + b, t, p) == if VerdictOf(a, t, p).Some? then VerdictOf(a, t, p) else VerdictOf(b, t, p)
  {
    HitConcat(a, b, t, p);
  }

  // ---- Prerouting, one policy ----

  // The rules after the deny lists.
  function GeoPart(q: Policy, ports: seq<Match>, v: Verdict): seq<Rule>
  {
    match q.geo
    case NoGeo => AllowRule(q.allow, None, ports, v, q.route)
    case BlockListed(geo) => GeoBlockDrop(q, geo, ports) + AllowRule(q.allow, None, ports, v, q.route)
    case OnlyListed(geo) =>
      AllowRule(q.allow, Some(geo), ports, v, q.route) +
      if q.breakGlass.Some? then [Rule([Src(q.breakGlass.value)] + ports, v, Some(q.route))] else []
  }

  // What an admission comes to on a port the rules are for.
  function Outcome(a: Admission, v: Verdict): Option<Verdict>
  {
    match a
    case Refused => Some(Drop)
    case Ignored => None
    case Admitted => Some(v)
  }

  lemma GeoBlockHit(q: Policy, geo: SetName, ports: seq<Match>, t: Table, p: Packet)
    ensures VerdictOf(GeoBlockDrop(q, geo, ports), t, p) ==
            if Contains(t, geo, p.src) && (q.breakGlass.Some? ==> !Contains(t, q.breakGlass.value, p.src)) && AllHold(ports, t, p)
            then Some(Drop) else None
  {
    HitOne(GeoBlockDrop(q, geo, ports)[0], t, p);
    AllHoldOne(Src(geo), t, p);
    SrcMatchHolds(q.breakGlass, t, p);
    ThreeParts([Src(geo)], NotSrcMatch(q.breakGlass), ports, t, p);
  }

  lemma GlassHit(q: Policy, ports: seq<Match>, v: Verdict, t: Table, p: Packet)
    requires Decides(v)
    ensures VerdictOf(if q.breakGlass.Some? then [Rule([Src(q.breakGlass.value)] + ports, v, Some(q.route))] else [], t, p) ==
            if q.breakGlass.Some? && Contains(t, q.breakGlass.value, p.src) && AllHold(ports, t, p) then Some(v) else None
  {
    if q.breakGlass.Some? {
      HitOne(Rule([Src(q.breakGlass.value)] + ports, v, Some(q.route)), t, p);
      AllHoldOne(Src(q.breakGlass.value), t, p);
      AllHoldConcat([Src(q.breakGlass.value)], ports, t, p);
    }
  }

  // What the rules look up about a source.
  datatype Source = Source(globalDeny: bool, deny: bool, allowed: bool, glass: bool, zone: bool)

  function SourceOf(q: Policy, t: Table, a: Addr): Source
  {
    Source(q.globalDeny.Some? && Contains(t, q.globalDeny.value, a),
           q.deny.Some? && Contains(t, q.deny.value, a),
           q.allow == None || Contains(t, q.allow.value, a),
           q.breakGlass.Some? && Contains(t, q.breakGlass.value, a),
           !q.geo.NoGeo? && Contains(t, q.geo.name, a))
  }

  function Decision(q: Policy, s: Source): Admission
  {
    if s.globalDeny || s.deny then Refused
    else
      match q.geo
      case NoGeo => if s.allowed then Admitted else Ignored
      case BlockListed(_) => if s.zone && !s.glass then Refused else if s.allowed then Admitted else Ignored
      case OnlyListed(_) => if (s.allowed && s.zone) || s.glass then Admitted else Ignored
  }

  predicate PartHit(q: Policy, ports: seq<Match>, v: Verdict, t: Table, p: Packet)
  {
    var s := SourceOf(q, t, p.src);
    VerdictOf(GeoPart(q, ports, v), t, p) ==
    if AllHold(ports, t, p) then Outcome(Decision(q, s.(globalDeny := false, deny := false)), v) else None
  }

  lemma NoGeoHit(q: Policy, ports: seq<Match>, v: Verdict, t: Table, p: Packet)
    requires Decides(v) && q.geo.NoGeo?
    ensures PartHit(q, ports, v, t, p)
  {
    AllowHit(q.allow, None, ports, v, q.route, t, p);
  }

  lemma BlockListedHit(q: Policy, ports: seq<Match>, v: Verdict, t: Table, p: Packet)
    requires Decides(v) && q.geo.BlockListed?
    ensures PartHit(q, ports, v, t, p)
  {
    var a, b := GeoBlockDrop(q, q.geo.name, ports), AllowRule(q.allow, None, ports, v, q.route);
    GeoBlockHit(q, q.geo.name, ports, t, p);
    AllowHit(q.allow, None, ports, v, q.route, t, p);
    VerdictConcat(a, b, t, p);
    assert GeoPart(q, ports, v) == a + b;
  }

  lemma OnlyListedHit(q: Policy, ports: seq<Match>, v: Verdict, t: Table, p: Packet)
    requires Decides(v) && q.geo.OnlyListed?
    ensures PartHit(q, ports, v, t, p)
  {
    var a := AllowRule(q.allow, Some(q.geo.name), ports, v, q.route);
    var b := if q.breakGlass.Some? then [Rule([Src(q.breakGlass.value)] + ports, v, Some(q.route))] else [];
    AllowHit(q.allow, Some(q.geo.name), ports, v, q.route, t, p);
    GlassHit(q, ports, v, t, p);
    VerdictConcat(a, b, t, p);
    assert GeoPart(q, ports, v) == a + b;
  }

  lemma GeoPartHit(q: Policy, ports: seq<Match>, v: Verdict, t: Table, p: Packet)
    requires Decides(v)
    ensures PartHit(q, ports, v, t, p)
  {
    match q.geo
    case NoGeo => NoGeoHit(q, ports, v, t, p);
    case BlockListed(_) => BlockListedHit(q, ports, v, t, p);
    case OnlyListed(_) => OnlyListedHit(q, ports, v, t, p);
  }

  lemma DecisionHit(q: Policy, e: Entry, v: Verdict, t: Table, p: Packet)
    requires Decides(v)
    ensures VerdictOf(PreroutingRules(q, e, v), t, p) ==
            if p.proto == q.proto && Covers(e, p.dport) then Outcome(Decision(q, SourceOf(q, t, p.src)), v) else None
  {
    var ports := [Dport(q.proto, [e])];
    AllHoldOne(ports[0], t, p);
    assert CoveredBy([e], p.dport) <==> Covers([e][0], p.dport);
    var a, b, d := DropIn(q.globalDeny, [], ports, q.route), DropIn(q.deny, [], ports, q.route), GeoPart(q, ports, v);
    assert PreroutingRules(q, e, v) == a + b + d;
    if AllHold(ports, t, p) {
      PartsHit(q, ports, v, t, p);
    } else {
      NothingHits(a + b + d, ports, t, p);
    }
  }

  lemma PartsHit(q: Policy, ports: seq<Match>, v: Verdict, t: Table, p: Packet)
    requires Decides(v) && AllHold(ports, t, p)
    ensures VerdictOf(DropIn(q.globalDeny, [], ports, q.route) + DropIn(q.deny, [], ports, q.route) + GeoPart(q, ports, v), t, p) ==
            Outcome(Decision(q, SourceOf(q, t, p.src)), v)
  {
    DropInHit(q.globalDeny, [], ports, q.route, t, p);
    DropInHit(q.deny, [], ports, q.route, t, p);
    GeoPartHit(q, ports, v, t, p);
    ThreeVerdicts(DropIn(q.globalDeny, [], ports, q.route), DropIn(q.deny, [], ports, q.route), GeoPart(q, ports, v), t, p);
  }

  // Rules that all ask for matches p does not meet.
  lemma NothingHits(rules: seq<Rule>, ports: seq<Match>, t: Table, p: Packet)
    requires !AllHold(ports, t, p) && |ports| == 1
    requires forall r | r in rules :: ports[0] in r.matches
    ensures VerdictOf(rules, t, p) == None
  {
    AllHoldOne(ports[0], t, p);
    assert ports == [ports[0]];
    forall r | r in rules ensures !AllHold(r.matches, t, p) {
      MissingMatch(r.matches, ports[0], t, p);
    }
  }

  lemma {:induction false} MissingMatch(ms: seq<Match>, m: Match, t: Table, p: Packet)
    requires m in ms && !Holds(m, t, p)
    ensures !AllHold(ms, t, p)
  {
    if ms[0] != m {
      MissingMatch(ms[1..], m, t, p);
    }
  }

  lemma SourceIs(c: Config, k: Kernel, q: Policy, a: Addr)
    requires Compiled(c, q)
    ensures var s, r := SourceOf(q, NatTable(c, k), a), c.routes[q.route];
            && (s.globalDeny <==> InAny(c.deny, a)) && (s.deny <==> InAny(r.deny, a)) && (s.allowed <==> AllowListed(r, a))
            && (s.glass <==> Glass(c, a)) && (!q.geo.NoGeo? ==> (s.zone <==> InZones(k, q.route, r, a)))
  {
    GlobalDenySetHolds(c, false, k, q, a);
    RouteDenySetHolds(c, false, k, q, a);
    AllowSetHolds(c, false, k, q, a);
    GlassSetHolds(c, false, k, q, a);
    if !q.geo.NoGeo? {
      GeoSetHolds(c, false, k, q, a);
    }
  }

  /** The prerouting rules of one policy and port decide by admission alone. */
  lemma PreroutingHit(c: Config, k: Kernel, q: Policy, e: Entry, v: Verdict, p: Packet)
    requires Compiled(c, q) && Decides(v)
    ensures VerdictOf(PreroutingRules(q, e, v), NatTable(c, k), p) ==
            if p.proto == q.proto && Covers(e, p.dport) then Outcome(AdmissionOf(c, k, q.route, c.routes[q.route], p.src), v) else None
  {
    DecisionHit(q, e, v, NatTable(c, k), p);
    SourceIs(c, k, q, p.src);
  }

  // ---- The line that decides ----

  function FirstLine(lines: seq<Line>, n: nat): Option<Line>
  {
    if lines == [] then None
    else
      var before, last := FirstLine(lines[..|lines| - 1], n), lines[|lines| - 1];
      if before.Some? then before else if Covers(last.public, n) then Some(last) else None
  }

  lemma {:induction false} LinesHit(c: Config, k: Kernel, q: Policy, lines: seq<Line>, p: Packet)
    requires Compiled(c, q)
    ensures VerdictOf(AllLineRules(q, lines, false), NatTable(c, k), p) ==
            if p.proto != q.proto || FirstLine(lines, p.dport) == None then None
            else Outcome(AdmissionOf(c, k, q.route, c.routes[q.route], p.src), Dnat(q.target, FirstLine(lines, p.dport).value.to))
  {
    if lines != [] {
      var before, last := lines[..|lines| - 1], lines[|lines| - 1];
      LinesHit(c, k, q, before, p);
      PreroutingHit(c, k, q, last.public, Dnat(q.target, last.to), p);
      VerdictConcat(AllLineRules(q, before, false), LineRules(q, last, false), NatTable(c, k), p);
    }
  }

  lemma {:induction false} FirstLineConcat(a: seq<Line>, b: seq<Line>, n: nat)
    ensures FirstLine(a + b, n) == if FirstLine(a, n).Some? then FirstLine(a, n) else FirstLine(b, n)
    decreases |b|
  {
    if b == [] {
      assert a + b == a;
    } else {
      assert (a + b)[..|a + b| - 1] == a + b[..|b| - 1];
      FirstLineConcat(a, b[..|b| - 1], n);
    }
  }

  // The port a line sends public port n to.
  function LinePort(to: Option<Plain>, n: nat): nat
  {
    match to
    case None => n
    case Some(Single(q)) => AsPort(q, n)
    case Some(_) => n
  }

  lemma {:induction false} PairLinesFirst(low: nat, to: nat, ps: seq<(nat, nat)>, n: nat)
    requires forall i | 0 <= i < |ps| :: ps[i] == (low + i, to + i)
    ensures FirstLine(PairLines(ps), n).Some? <==> low <= n < low + |ps|
    ensures FirstLine(PairLines(ps), n).Some? ==> LinePort(FirstLine(PairLines(ps), n).value.to, n) == n - low + to
    decreases |ps|
  {
    if ps != [] {
      assert PairLines(ps)[..|ps| - 1] == PairLines(ps[..|ps| - 1]);
      PairLinesFirst(low, to, ps[..|ps| - 1], n);
    }
  }

  predicate FirstIs(lines: seq<Line>, e: Entry, maps: seq<PortMap>, n: nat)
  {
    var f := FirstLine(lines, n);
    (f.Some? <==> Covers(e, n)) && (f.Some? ==> LinePort(f.value.to, n) == EntryTo(e, maps, n))
  }

  lemma RangeLinesFirst(e: Entry, maps: seq<PortMap>, n: nat)
    requires PairsOf(e, maps).Pairs? && MapOf(e, maps) == Some(One(RangeOf(e, maps).value)) && e.plain.Span?
    ensures FirstIs(PairLines(PairsOf(e, maps).pairs), e, maps, n)
  {
    var to, ps := RangeOf(e, maps).value, PairsOf(e, maps).pairs;
    PairLinesFirst(e.plain.low, to.low, ps, n);
  }

  lemma OneLineFirst(line: Line, n: nat)
    ensures FirstLine([line], n) == if Covers(line.public, n) then Some(line) else None
  {
    assert [line][..0] == [];
  }

  lemma EntryLinesFirst(e: Entry, ports: seq<Entry>, maps: seq<PortMap>, n: nat)
    requires GoodMaps(ports, maps) && EntryLines(e, maps).Some?
    ensures FirstIs(EntryLines(e, maps).value, e, maps, n)
  {
    RangeOfGood(e, maps);
    if MapOf(e, maps).Some? {
      var j :| 0 <= j < |maps| && maps[j] == PortMap(e, MapOf(e, maps).value);
      assert GoodMap(maps[j]);
    }
    if PairsOf(e, maps).Pairs? {
      RangeLinesFirst(e, maps, n);
    } else {
      OneLineFirst(EntryLines(e, maps).value[0], n);
    }
  }

  lemma {:induction false} PortToConcat(a: seq<Entry>, b: seq<Entry>, maps: seq<PortMap>, n: nat)
    ensures PortTo(a + b, maps, n) == if PortTo(a, maps, n).Some? then PortTo(a, maps, n) else PortTo(b, maps, n)
  {
    if a == [] {
      assert a + b == b;
    } else {
      assert (a + b)[1..] == a[1..] + b && (a + b)[0] == a[0];
      PortToConcat(a[1..], b, maps, n);
    }
  }

  lemma PortToOne(e: Entry, maps: seq<PortMap>, n: nat)
    ensures PortTo([e], maps, n) == if Covers(e, n) then Some(EntryTo(e, maps, n)) else None
  {
    assert [e][1..] == [];
  }

  /** The DNAT lines of a route send a public port where its first covering entry does. */
  lemma {:induction false} LinesFirst(es: seq<Entry>, ports: seq<Entry>, maps: seq<PortMap>, n: nat)
    requires GoodMaps(ports, maps) && LinesOf(es, maps).Some?
    ensures var f, to := FirstLine(LinesOf(es, maps).value, n), PortTo(es, maps, n);
            && (f.Some? <==> to.Some?)
            && (f.Some? ==> LinePort(f.value.to, n) == to.value)
  {
    if es != [] {
      var before, last := es[..|es| - 1], es[|es| - 1];
      var a, b := LinesOf(before, maps).value, EntryLines(last, maps).value;
      LinesFirst(before, ports, maps, n);
      EntryLinesFirst(last, ports, maps, n);
      assert LinesOf(es, maps).value == a + b;
      FirstLineConcat(a, b, n);
      assert es == before + [last];
      PortToConcat(before, [last], maps, n);
      PortToOne(last, maps, n);
    }
  }

  // ---- Prerouting, all policies ----

  // Policy q has a DNAT for p.
  predicate Serves(c: Config, q: Policy, p: Packet)
  {
    q.route < |c.routes| && q.proto == p.proto && CoveredBy(c.routes[q.route].ports, p.dport)
  }

  function PortAt(r: Route, n: nat): nat
  {
    if PortTo(r.ports, r.maps, n).Some? then PortTo(r.ports, r.maps, n).value else n
  }

  // A verdict that sends p to addr and port.
  predicate SendsTo(v: Verdict, n: nat, addr: Addr, port: nat)
  {
    v.Dnat? && v.target == addr && LinePort(v.port, n) == port
  }

  lemma PolicyHit(c: Config, k: Kernel, q: Policy, p: Packet)
    requires Compiled(c, q) && ValidRoute(c.routes[q.route])
    ensures var v, r := PolicyVerdict(q, NatTable(c, k), p), c.routes[q.route];
            if !Serves(c, q, p) then v == None
            else match AdmissionOf(c, k, q.route, r, p.src)
                 case Refused => v == Some(Drop)
                 case Ignored => v == None
                 case Admitted => v.Some? && SendsTo(v.value, p.dport, r.target, PortAt(r, p.dport))
  {
    var r := c.routes[q.route];
    LinesHit(c, k, q, q.lines, p);
    LinesFirst(r.ports, r.ports, r.maps, p.dport);
    PortToMeaning(r.ports, r.maps, p.dport);
  }

  function PolicyVerdict(q: Policy, t: Table, p: Packet): Option<Verdict>
  {
    VerdictOf(AllLineRules(q, q.lines, false), t, p)
  }

  lemma NatStep(qs: seq<Policy>, t: Table, p: Packet)
    requires qs != []
    ensures var before, last := VerdictOf(NatRules(qs[..|qs| - 1], {}), t, p), PolicyVerdict(qs[|qs| - 1], t, p);
            VerdictOf(NatRules(qs, {}), t, p) == if before.Some? then before else last
  {
    var q := qs[|qs| - 1];
    VerdictConcat(NatRules(qs[..|qs| - 1], {}), AllLineRules(q, q.lines, false), t, p);
  }

  lemma {:induction false} OnlyServer(qs: seq<Policy>, t: Table, p: Packet, m: nat)
    requires m < |qs| && forall j | 0 <= j < |qs| :: j != m ==> PolicyVerdict(qs[j], t, p) == None
    ensures VerdictOf(NatRules(qs, {}), t, p) == PolicyVerdict(qs[m], t, p)
  {
    var last := |qs| - 1;
    var before := qs[..last];
    NatStep(qs, t, p);
    if m == last {
      NoServer(before, t, p);
    } else {
      assert PolicyVerdict(qs[last], t, p) == None && before[m] == qs[m];
      OnlyServer(before, t, p, m);
    }
  }

  lemma {:induction false} NoServer(qs: seq<Policy>, t: Table, p: Packet)
    requires forall j | 0 <= j < |qs| :: PolicyVerdict(qs[j], t, p) == None
    ensures VerdictOf(NatRules(qs, {}), t, p) == None
  {
    if qs != [] {
      NatStep(qs, t, p);
      NoServer(qs[..|qs| - 1], t, p);
    }
  }
}

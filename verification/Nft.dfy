/** Rules, sets and chains as nftables reads them: a packet meets a chain's rules in order, and the first
    matching one with a verdict decides. */
module Nft {
  import opened Common
  import opened Ports
  import opened Routes

  datatype SetName =
    | BreakGlass
    | GlobalDeny
    | CrowdsecBlock
    | GeoSet
    | RouteGeo(route: nat)
    | RouteSrc(route: nat)
    | RouteDeny(route: nat)
    | SynMeter
    | UdpMeter
    | RouteSynMeter(route: nat)
    | RouteUdpMeter(route: nat)
    | ConnMeter(route: nat, proto: Proto)

  // A set with its elements, or one that something else fills while the rules are loaded.
  datatype SetDecl = Filled(name: SetName, elements: seq<Cidr>) | Runtime(name: SetName)

  datatype Iface = Wan | Tunnel | Loopback | OtherIface

  datatype CtState = NewFlow | KnownFlow | NoFlow

  datatype Match =
    | Src(name: SetName)
    | NotSrc(name: SetName)
    | Dport(proto: Proto, ports: seq<Entry>)
    | OrigDport(ports: seq<Entry>)       // the destination port before DNAT, from conntrack
    | SrcIn(cidr: Cidr)
    | DstIn(cidr: Cidr)
    | Dst(addr: Addr)
    | In(iface: Iface)
    | Out(iface: Iface)
    | NotOut(iface: Iface)
    | Known                              // ct state established,related
    | Fresh                              // ct state new
    | SynFlag
    | Over(name: SetName)                // the source is over the limit the set meters
    | Sampled                            // limit rate

  datatype Verdict =
    | Accept
    | Drop
    | Dnat(target: Addr, port: Option<Plain>)
    | Pause                              // drop, with the marker comment
    | Log
    | Count(proto: Proto)

  // The route a rule was written for. Pause and Count show it in their comment; the kernel ignores it.
  datatype Rule = Rule(matches: seq<Match>, verdict: Verdict, route: Option<nat>)

  datatype Packet = Packet(src: Addr, dst: Addr, proto: Proto, dport: nat, orig: nat, iif: Iface, oif: Iface,
                           state: CtState, syn: bool)

  // What the kernel holds besides the rules: who is in the sets filled at run time, who is over a meter's
  // limit, and whether a log limit has room.
  datatype Kernel = Kernel(listed: (SetName, Addr) -> bool, over: (SetName, Addr) -> bool, room: bool)

  // A table's sets and what the kernel holds.
  datatype Table = Table(sets: seq<SetDecl>, kernel: Kernel)

  function DeclOf(sets: seq<SetDecl>, name: SetName): (d: Option<SetDecl>)
    ensures d.Some? ==> d.value in sets && d.value.name == name
    ensures d == None ==> forall i | 0 <= i < |sets| :: sets[i].name != name
  {
    if sets == [] then None
    else if sets[0].name == name then Some(sets[0])
    else DeclOf(sets[1..], name)
  }

  predicate Contains(t: Table, name: SetName, a: Addr)
  {
    match DeclOf(t.sets, name)
    case None => false
    case Some(Filled(_, elements)) => InAny(elements, a)
    case Some(Runtime(_)) => t.kernel.listed(name, a)
  }

  predicate Holds(m: Match, t: Table, p: Packet)
  {
    match m
    case Src(s) => Contains(t, s, p.src)
    case NotSrc(s) => !Contains(t, s, p.src)
    case Dport(proto, es) => p.proto == proto && CoveredBy(es, p.dport)
    case OrigDport(es) => CoveredBy(es, p.orig)
    case SrcIn(c) => c.first <= p.src <= c.last
    case DstIn(c) => c.first <= p.dst <= c.last
    case Dst(a) => p.dst == a
    case In(i) => p.iif == i
    case Out(i) => p.oif == i
    case NotOut(i) => p.oif != i
    case Known => p.state == KnownFlow
    case Fresh => p.state == NewFlow
    case SynFlag => p.syn
    case Over(s) => t.kernel.over(s, p.src)
    case Sampled => t.kernel.room
  }

  predicate AllHold(ms: seq<Match>, t: Table, p: Packet)
  {
    ms == [] || (Holds(ms[0], t, p) && AllHold(ms[1..], t, p))
  }

  predicate Decides(v: Verdict)
  {
    v != Log && !v.Count?
  }

  /** The rule that decides about p: the first that matches and has a verdict. */
  function Hit(rules: seq<Rule>, t: Table, p: Packet): (r: Option<Rule>)
    ensures r.Some? ==> r.value in rules && Decides(r.value.verdict) && AllHold(r.value.matches, t, p)
    ensures r == None ==> forall i | 0 <= i < |rules| :: !Decides(rules[i].verdict) || !AllHold(rules[i].matches, t, p)
  {
    if rules == [] then None
    else if Decides(rules[0].verdict) && AllHold(rules[0].matches, t, p) then Some(rules[0])
    else Hit(rules[1..], t, p)
  }

  function VerdictOf(rules: seq<Rule>, t: Table, p: Packet): Option<Verdict>
  {
    match Hit(rules, t, p)
    case None => None
    case Some(r) => Some(r.verdict)
  }

  // The routes whose counters p increments.
  function Counted(rules: seq<Rule>, t: Table, p: Packet): seq<(Option<nat>, Proto)>
  {
    if rules == [] then []
    else (if rules[0].verdict.Count? && AllHold(rules[0].matches, t, p) then [(rules[0].route, rules[0].verdict.proto)] else []) +
         Counted(rules[1..], t, p)
  }

  lemma {:induction false} AllHoldConcat(a: seq<Match>, b: seq<Match>, t: Table, p: Packet)
    ensures AllHold(a + b, t, p) == (AllHold(a, t, p) && AllHold(b, t, p))
  {
    if a == [] {
      assert a + b == b;
    } else {
      assert (a + b)[1..] == a[1..] + b && (a + b)[0] == a[0];
      AllHoldConcat(a[1..], b, t, p);
    }
  }

  lemma {:induction false} HitConcat(a: seq<Rule>, b: seq<Rule>, t: Table, p: Packet)
    ensures Hit(a + b, t, p) == if Hit(a, t, p).Some? then Hit(a, t, p) else Hit(b, t, p)
  {
    if a == [] {
      assert a + b == b;
    } else {
      assert (a + b)[1..] == a[1..] + b && (a + b)[0] == a[0];
      HitConcat(a[1..], b, t, p);
    }
  }

  lemma {:induction false} CountedConcat(a: seq<Rule>, b: seq<Rule>, t: Table, p: Packet)
    ensures Counted(a + b, t, p) == Counted(a, t, p) + Counted(b, t, p)
  {
    if a == [] {
      assert a + b == b;
    } else {
      assert (a + b)[1..] == a[1..] + b && (a + b)[0] == a[0];
      CountedConcat(a[1..], b, t, p);
    }
  }
}

/** Forwarding routes and the check that no two active ones claim the same protocol and port. */
module Routes {
  import opened Common
  import opened Ports

  type Addr = nat

  // An address or a CIDR.
  datatype Cidr = Cidr(first: Addr, last: Addr)

  predicate InAny(cidrs: seq<Cidr>, a: Addr)
  {
    exists i | 0 <= i < |cidrs| :: cidrs[i].first <= a <= cidrs[i].last
  }

  datatype Proto = Tcp | Udp

  datatype Word = TcpWord | UdpWord | OtherWord

  // The text of proto: "both", or words between commas, pluses and spaces.
  datatype ProtoField = Both | Words(words: seq<Word>)

  datatype Protocols = Protocols(list: seq<Proto>) | BadProtocol

  datatype GeoMode = Inherit | Off | Custom

  datatype RateLimit = RateLimit(syn: nat, conn: nat, udp: nat)

  datatype Route = Route(
    disabled: bool,
    proto: ProtoField,
    ports: seq<Entry>,         // blank entries left out
    maps: seq<PortMap>,
    target: Addr,
    allow: seq<Cidr>,
    deny: seq<Cidr>,
    geoMode: GeoMode,
    rate: RateLimit
  )

  // ---- Protocols ----

  function WordProto(w: Word): Option<Proto>
  {
    match w
    case TcpWord => Some(Tcp)
    case UdpWord => Some(Udp)
    case OtherWord => None
  }

  predicate Speaks(f: ProtoField, p: Proto)
  {
    f == Both || exists i | 0 <= i < |f.words| :: WordProto(f.words[i]) == Some(p)
  }

  predicate ReadableProto(f: ProtoField)
  {
    f == Both || (f.words != [] && OtherWord !in f.words)
  }

  // tcp before udp, each once.
  function ProtosOf(f: ProtoField): (r: seq<Proto>)
    ensures forall p :: p in r <==> (p.Tcp? && Speaks(f, Tcp)) || (p.Udp? && Speaks(f, Udp))
    ensures |r| <= 2 && (|r| == 2 ==> r[0] != r[1])
  {
    if Speaks(f, Tcp) && Speaks(f, Udp) then [Tcp, Udp]
    else if Speaks(f, Tcp) then [Tcp]
    else if Speaks(f, Udp) then [Udp]
    else []
  }

  /** ParseRouteProtocols. */
  method ParseProtocols(f: ProtoField) returns (r: Protocols)
    ensures r == if ReadableProto(f) then Protocols(ProtosOf(f)) else BadProtocol
  {
    if f == Both {
      return Protocols([Tcp, Udp]);
    }
    var seen: set<Proto> := {};
    var out: seq<Proto> := [];
    for i := 0 to |f.words|
      invariant OtherWord !in f.words[..i]
      invariant forall p :: p in seen <==> p in out
      invariant forall p :: p in out <==> exists k | 0 <= k < i :: WordProto(f.words[k]) == Some(p)
      invariant |out| <= 2 && (|out| == 2 ==> out[0] != out[1])
      invariant i > 0 ==> out != []
    {
      var p := WordProto(f.words[i]);
      if p == None {
        return BadProtocol;
      }
      if |out| == 2 {
        OnlyTwo(out, p.value);
      }
      if p.value !in seen {
        seen := seen + {p.value};
        out := out + [p.value];
      }
      assert f.words[..i + 1] == f.words[..i] + [f.words[i]];
    }
    if out == [] {
      return BadProtocol;
    }
    assert f.words[..|f.words|] == f.words;
    assert forall p :: p in out <==> Speaks(f, p);
    // sort.Strings
    if |out| == 2 && out[0] == Udp {
      BothWays(out);
      out := [out[1], out[0]];
    }
    SortedProtocols(f, out);
    r := Protocols(out);
  }

  lemma OnlyTwo(out: seq<Proto>, p: Proto)
    requires |out| == 2 && out[0] != out[1]
    ensures p in out
  {
    assert p.Tcp? || p.Udp?;
    assert out[0].Tcp? || out[0].Udp?;
    assert out[1].Tcp? || out[1].Udp?;
  }

  lemma BothWays(out: seq<Proto>)
    requires |out| == 2
    ensures forall p :: p in [out[1], out[0]] <==> p in out
  {
    assert out == [out[0], out[1]];
  }

  lemma SortedProtocols(f: ProtoField, out: seq<Proto>)
    requires f.Words? && (forall p :: p in out <==> Speaks(f, p))
    requires 1 <= |out| <= 2 && (|out| == 2 ==> out[0] == Tcp && out[1] == Udp)
    ensures out == ProtosOf(f)
  {
    if |out| == 1 {
      assert out == [out[0]];
      assert forall p :: p in out ==> p == out[0];
      assert Speaks(f, Tcp) <==> out[0] == Tcp;
      assert Speaks(f, Udp) <==> out[0] == Udp;
    } else {
      assert out == [Tcp, Udp];
      assert Tcp in out && Udp in out;
    }
  }

  // ---- Public ports ----

  // The entries the overlap check expands: with port maps, brace lists cannot be read.
  predicate ReadablePorts(r: Route)
  {
    if r.maps == [] then forall i | 0 <= i < |r.ports| :: GoodEntry(r.ports[i])
    else
      && (forall i | 0 <= i < |r.maps| :: r.maps[i].public.One? && Good(r.maps[i].public.plain))
      && (forall i | 0 <= i < |r.ports| :: MapOf(r.ports[i], r.maps) == None ==> r.ports[i].One? && Good(r.ports[i].plain))
  }

  // The public ports of a route, with its maps' whether or not they are among ports[].
  predicate Claims(r: Route, n: nat)
  {
    CoveredBy(r.ports, n) || exists i | 0 <= i < |r.maps| :: Covers(r.maps[i].public, n)
  }

  /** With valid maps a route claims the ports its entries cover. */
  lemma ClaimsAreEntries(r: Route, n: nat)
    requires GoodMaps(r.ports, r.maps)
    ensures Claims(r, n) == CoveredBy(r.ports, n)
  {
    if i :| 0 <= i < |r.maps| && Covers(r.maps[i].public, n) {
      var k :| 0 <= k < |r.ports| && r.ports[k] == r.maps[i].public;
      assert Covers(r.ports[k], n);
    }
  }

  /** A valid map may name a brace list, but then the route's public ports cannot be read: of the routes the
      checks accept, one with maps has no brace list. */
  lemma MappedRoutesHaveNoBraces(r: Route)
    requires GoodMaps(r.ports, r.maps) && r.maps != []
    ensures ReadablePorts(r) <==> forall i | 0 <= i < |r.ports| :: r.ports[i].One? && Good(r.ports[i].plain)
  {
    if ReadablePorts(r) {
      forall i | 0 <= i < |r.ports| ensures r.ports[i].One? && Good(r.ports[i].plain) {
        if MapOf(r.ports[i], r.maps) != None {
          var k :| 0 <= k < |r.maps| && r.maps[k] == PortMap(r.ports[i], MapOf(r.ports[i], r.maps).value);
        }
      }
    }
  }

  /** ExpandRoutePublicPortNumbers. */
  method ExpandPublicPorts(r: Route) returns (e: Expansion)
    ensures e.Expanded? <==> ReadablePorts(r)
    ensures e.Expanded? ==> Increasing(e.ports) && forall n: nat :: n in e.ports <==> Claims(r, n)
  {
    if r.maps == [] {
      e := ExpandEntries(r.ports);
      return;
    }
    var mapped: set<Entry> := set i | 0 <= i < |r.maps| :: r.maps[i].public;
    var seen: set<nat> := {};
    for i := 0 to |r.maps|
      invariant forall k | 0 <= k < i :: r.maps[k].public.One? && Good(r.maps[k].public.plain)
      invariant forall n: nat :: n in seen <==> exists k | 0 <= k < i :: Covers(r.maps[k].public, n)
      invariant forall n | n in seen :: 1 <= n <= MAX_PORT
    {
      if !r.maps[i].public.One? {
        return Unreadable;
      }
      var readable;
      seen, readable := AddPorts(seen, r.maps[i].public.plain);
      if !readable {
        return Unreadable;
      }
    }
    ghost var fromMaps := seen;
    for i := 0 to |r.ports|
      invariant forall k | 0 <= k < i && MapOf(r.ports[k], r.maps) == None :: r.ports[k].One? && Good(r.ports[k].plain)
      invariant forall n: nat :: n in seen <==> n in fromMaps || exists k | 0 <= k < i :: Covers(r.ports[k], n)
      invariant forall n | n in seen :: 1 <= n <= MAX_PORT
    {
      if r.ports[i] !in mapped {
        if !r.ports[i].One? {
          return Unreadable;
        }
        var readable;
        seen, readable := AddPorts(seen, r.ports[i].plain);
        if !readable {
          return Unreadable;
        }
      }
    }
    var out := SortedPorts(seen);
    e := Expanded(out);
  }

  // ---- Overlaps ----

  predicate Readable(r: Route)
  {
    ReadableProto(r.proto) && ReadablePorts(r)
  }

  predicate Uses(r: Route, p: Proto, n: nat)
  {
    !r.disabled && Speaks(r.proto, p) && Claims(r, n)
  }

  ghost predicate Apart(a: Route, b: Route)
  {
    forall p, n: nat | Uses(a, p, n) :: !Uses(b, p, n)
  }

  /** No two active routes have a protocol and a port in common. */
  ghost predicate Disjoint(routes: seq<Route>)
  {
    forall i, j | 0 <= i < j < |routes| :: Apart(routes[i], routes[j])
  }

  ghost predicate AllReadable(routes: seq<Route>)
  {
    forall i | 0 <= i < |routes| && !routes[i].disabled :: Readable(routes[i])
  }

  // Claims every pair of one route, unless one is taken.
  method ClaimAll(claimed: map<(Proto, nat), nat>, i: nat, protos: seq<Proto>, ports: seq<nat>)
    returns (now: map<(Proto, nat), nat>, free: bool)
    requires forall k, m | 0 <= k < m < |protos| :: protos[k] != protos[m]
    requires Increasing(ports)
    ensures free == forall p, n | p in protos && n in ports :: (p, n) !in claimed
    ensures free ==> forall p, n :: (p, n) in now <==> (p, n) in claimed || (p in protos && n in ports)
  {
    now := claimed;
    for k := 0 to |protos|
      invariant forall p, n | p in protos[..k] && n in ports :: (p, n) !in claimed
      invariant forall p, n :: (p, n) in now <==> (p, n) in claimed || (p in protos[..k] && n in ports)
    {
      ghost var before := now;
      for m := 0 to |ports|
        invariant forall n | n in ports[..m] :: (protos[k], n) !in before
        invariant forall p, n :: (p, n) in now <==> (p, n) in before || (p == protos[k] && n in ports[..m])
      {
        if (protos[k], ports[m]) in now {
          assert protos[k] !in protos[..k] && ports[m] !in ports[..m];
          assert protos[k] in protos && ports[m] in ports;
          return now, false;
        }
        now := now[(protos[k], ports[m]) := i];
        assert ports[..m + 1] == ports[..m] + [ports[m]];
      }
      assert ports[..|ports|] == ports;
      assert protos[..k + 1] == protos[..k] + [protos[k]];
    }
    assert protos[..|protos|] == protos;
    free := true;
  }

  ghost predicate ClaimsOf(routes: seq<Route>, claimed: map<(Proto, nat), nat>)
  {
    forall p, n: nat :: (p, n) in claimed <==> exists k | 0 <= k < |routes| :: Uses(routes[k], p, n)
  }

  // The next route's claims, after those of the routes before it.
  method ClaimRoute(before: seq<Route>, claimed: map<(Proto, nat), nat>, r: Route) returns (now: map<(Proto, nat), nat>, ok: bool)
    requires ClaimsOf(before, claimed)
    ensures ok <==> r.disabled || (Readable(r) && forall k | 0 <= k < |before| :: Apart(before[k], r))
    ensures ok ==> ClaimsOf(before + [r], now)
  {
    now := claimed;
    if r.disabled {
      assert ClaimsOf(before + [r], now) by { OneMoreClaims(before, claimed, r, now); }
      return now, true;
    }
    var protos := ParseProtocols(r.proto);
    if protos == BadProtocol {
      return now, false;
    }
    var ports := ExpandPublicPorts(r);
    if ports == Unreadable {
      return now, false;
    }
    now, ok := ClaimAll(claimed, |before|, protos.list, ports.ports);
    if ok {
      OneMoreClaims(before, claimed, r, now);
      forall k | 0 <= k < |before| ensures Apart(before[k], r) {
        forall p, n: nat | Uses(before[k], p, n) ensures !Uses(r, p, n) {
          assert (p, n) in claimed;
        }
      }
    } else {
      ghost var p, n :| p in protos.list && n in ports.ports && (p, n) in claimed;
      ghost var k :| 0 <= k < |before| && Uses(before[k], p, n);
      assert Uses(r, p, n) && !Apart(before[k], r);
    }
  }

  lemma OneMoreClaims(before: seq<Route>, claimed: map<(Proto, nat), nat>, r: Route, now: map<(Proto, nat), nat>)
    requires ClaimsOf(before, claimed) && forall p, n: nat :: (p, n) in now <==> (p, n) in claimed || Uses(r, p, n)
    ensures ClaimsOf(before + [r], now)
  {
    var all := before + [r];
    forall p, n: nat ensures (p, n) in now <==> exists k | 0 <= k < |all| :: Uses(all[k], p, n) {
      if (p, n) in claimed {
        var k :| 0 <= k < |before| && Uses(before[k], p, n);
        assert Uses(all[k], p, n);
      } else if Uses(r, p, n) {
        assert Uses(all[|before|], p, n);
      }
      if k :| 0 <= k < |all| && Uses(all[k], p, n) {
        assert k < |before| ==> Uses(before[k], p, n);
      }
    }
  }

  /** validateForwardingRoutePortOverlaps: accepts exactly the routes that can be read and whose protocol and
      port pairs are disjoint. */
  method ValidateOverlaps(routes: seq<Route>) returns (ok: bool)
    ensures ok <==> AllReadable(routes) && Disjoint(routes)
  {
    var claimed: map<(Proto, nat), nat> := map[];
    for i := 0 to |routes|
      invariant AllReadable(routes[..i]) && Disjoint(routes[..i]) && ClaimsOf(routes[..i], claimed)
    {
      claimed, ok := ClaimRoute(routes[..i], claimed, routes[i]);
      assert routes[..i + 1] == routes[..i] + [routes[i]];
      if !ok {
        if Readable(routes[i]) {
          ghost var k :| 0 <= k < i && !Apart(routes[..i][k], routes[i]);
          assert !Apart(routes[k], routes[i]);
        }
        return;
      }
      Extended(routes[..i], routes[i]);
    }
    assert routes[..|routes|] == routes;
    ok := true;
  }

  lemma Extended(before: seq<Route>, r: Route)
    requires AllReadable(before) && Disjoint(before)
    requires r.disabled || (Readable(r) && forall k | 0 <= k < |before| :: Apart(before[k], r))
    ensures AllReadable(before + [r]) && Disjoint(before + [r])
  {
    forall k | 0 <= k < |before| ensures Apart(before[k], r) {
    }
  }
}

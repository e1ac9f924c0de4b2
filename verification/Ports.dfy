/** A route's port entries, their expansion to port numbers, and its port maps. */
module Ports {
  import opened Common
  import opened Sorting

  const MAX_PORT: nat := 65535
  const MAX_PORT_MAPS: nat := 64

  // A port, a range, or text that is neither.
  datatype Plain = Single(port: int) | Span(low: int, high: int) | Junk

  // An entry of ports[]: one port expression, or a brace list of them.
  datatype Entry = One(plain: Plain) | Braces(items: seq<Plain>)

  datatype PortMap = PortMap(public: Entry, internal: Entry)

  datatype Expansion = Expanded(ports: seq<nat>) | Unreadable

  predicate InPlain(p: Plain, n: nat)
  {
    match p
    case Single(m) => n == m
    case Span(a, b) => a <= n <= b
    case Junk => false
  }

  predicate Good(p: Plain)
  {
    match p
    case Single(m) => 1 <= m <= MAX_PORT
    case Span(a, b) => 1 <= a <= b <= MAX_PORT
    case Junk => false
  }

  predicate GoodEntry(e: Entry)
  {
    match e
    case One(p) => Good(p)
    case Braces(ps) => forall i | 0 <= i < |ps| :: Good(ps[i])
  }

  /** What dport e matches. */
  predicate Covers(e: Entry, n: nat)
  {
    match e
    case One(p) => InPlain(p, n)
    case Braces(ps) => exists i | 0 <= i < |ps| :: InPlain(ps[i], n)
  }

  predicate CoveredBy(es: seq<Entry>, n: nat)
  {
    exists i | 0 <= i < |es| :: Covers(es[i], n)
  }

  predicate Increasing(s: seq<nat>)
  {
    forall i, j | 0 <= i < j < |s| :: s[i] < s[j]
  }

  // The ports of a readable p in order.
  function Listing(p: Plain): (r: seq<nat>)
    requires Good(p)
    ensures Increasing(r) && forall n: nat :: n in r <==> InPlain(p, n)
  {
    match p
    case Single(m) => [m]
    case Span(a, b) =>
      var r: seq<nat> := seq(b - a + 1, i requires 0 <= i < b - a + 1 => a + i);
      assert forall n: nat | InPlain(p, n) :: r[n - a] == n;
      r
  }

  /** expandPortToken. */
  method ExpandPlain(p: Plain) returns (r: Expansion)
    ensures r == if Good(p) then Expanded(Listing(p)) else Unreadable
  {
    match p {
      case Span(a, b) =>
        if a < 1 || b < 1 || a > MAX_PORT || b > MAX_PORT || a > b {
          return Unreadable;
        }
        var out: seq<nat> := [];
        var n := a;
        while n <= b
          invariant a <= n <= b + 1 && out == Listing(p)[..n - a]
        {
          out := out + [n];
          n := n + 1;
        }
        r := Expanded(out);
      case Single(m) => r := if m < 1 || m > MAX_PORT then Unreadable else Expanded([m]);
      case Junk => r := Unreadable;
    }
  }

  // ---- From a set of ports to a sorted list ----

  lemma {:induction false} PortsAreFew(s: set<nat>, n: nat)
    requires forall x | x in s :: 1 <= x <= n
    ensures |s| <= n
  {
    if n == 0 {
      assert s == {};
    } else {
      PortsAreFew(s - {n}, n - 1);
    }
  }

  // The ports of a set, in an array in no particular order and then sorted.
  method SortedPorts(seen: set<nat>) returns (out: seq<nat>)
    ensures Increasing(out) && forall n :: n in out <==> n in seen
  {
    var a := new nat[|seen|];
    var left, i := seen, 0;
    while left != {}
      invariant left <= seen && i == |seen| - |left|
      invariant forall k | 0 <= k < i :: a[k] in seen && a[k] !in left
      invariant forall k, m | 0 <= k < m < i :: a[k] != a[m]
      invariant forall n | n in seen && n !in left :: n in a[..i]
      decreases |left|
    {
      var n :| n in left;
      a[i], left, i := n, left - {n}, i + 1;
      assert a[..i] == a[..i - 1] + [n];
    }
    assert a[..] == a[..i];
    ghost var before := a[..];
    SortInPlace(a);
    out := a[..];
    SamePorts(before, out);
  }

  lemma SamePorts(before: seq<nat>, out: seq<nat>)
    requires multiset(before) == multiset(out)
    requires forall k, m | 0 <= k < m < |before| :: before[k] != before[m]
    requires forall i, j | 0 <= i < j < |out| :: out[i] <= out[j]
    ensures Increasing(out) && forall n :: n in out <==> n in before
  {
    forall n ensures n in out <==> n in before {
      assert n in out <==> n in multiset(out);
      assert n in before <==> n in multiset(before);
    }
    forall i, j | 0 <= i < j < |out| ensures out[i] < out[j] {
      if out[i] == out[j] {
        Twice(out, i, j);
        Once(before, out[i]);
      }
    }
  }

  // ---- Expanding entries ----

  // Adds the ports of p to seen; tooMany when more than a route may have.
  method AddPorts(seen: set<nat>, p: Plain) returns (now: set<nat>, readable: bool)
    requires forall n | n in seen :: 1 <= n <= MAX_PORT
    ensures readable == Good(p)
    ensures readable ==> (forall n: nat :: n in now <==> n in seen || InPlain(p, n)) && forall n | n in now :: 1 <= n <= MAX_PORT
  {
    now := seen;
    var ps := ExpandPlain(p);
    if ps == Unreadable {
      return now, false;
    }
    for i := 0 to |ps.ports|
      invariant forall n: nat :: n in now <==> n in seen || n in ps.ports[..i]
      invariant forall n | n in now :: 1 <= n <= MAX_PORT
    {
      assert ps.ports[i] in Listing(p);
      now := now + {ps.ports[i]};
      PortsAreFew(now, MAX_PORT);
      if |now| > MAX_PORT {
        assert false;
        return now, false;
      }
      assert ps.ports[..i + 1] == ps.ports[..i] + [ps.ports[i]];
    }
    assert ps.ports[..|ps.ports|] == ps.ports;
    readable := true;
  }

  // Adds the ports of a brace list to seen.
  method AddList(seen: set<nat>, ps: seq<Plain>) returns (now: set<nat>, readable: bool)
    requires forall n | n in seen :: 1 <= n <= MAX_PORT
    ensures readable == GoodEntry(Braces(ps))
    ensures readable ==> (forall n: nat :: n in now <==> n in seen || Covers(Braces(ps), n)) && forall n | n in now :: 1 <= n <= MAX_PORT
  {
    now := seen;
    for i := 0 to |ps|
      invariant forall k | 0 <= k < i :: Good(ps[k])
      invariant forall n: nat :: n in now <==> n in seen || exists k | 0 <= k < i :: InPlain(ps[k], n)
      invariant forall n | n in now :: 1 <= n <= MAX_PORT
    {
      now, readable := AddPorts(now, ps[i]);
      if !readable {
        return;
      }
    }
    readable := true;
  }

  /** ExpandRoutePortNumbers. */
  method ExpandEntries(es: seq<Entry>) returns (r: Expansion)
    ensures r.Expanded? <==> forall i | 0 <= i < |es| :: GoodEntry(es[i])
    ensures r.Expanded? ==> Increasing(r.ports) && forall n: nat :: n in r.ports <==> CoveredBy(es, n)
  {
    var seen: set<nat> := {};
    for i := 0 to |es|
      invariant forall k | 0 <= k < i :: GoodEntry(es[k])
      invariant forall n: nat :: n in seen <==> exists k | 0 <= k < i :: Covers(es[k], n)
      invariant forall n | n in seen :: 1 <= n <= MAX_PORT
    {
      var readable;
      match es[i] {
        case Braces(ps) => seen, readable := AddList(seen, ps);
        case One(p) => seen, readable := AddPorts(seen, p);
      }
      if !readable {
        return Unreadable;
      }
    }
    var out := SortedPorts(seen);
    r := Expanded(out);
  }

  // ---- Port maps ----

  // A public range goes to an internal range as wide; anything else goes to one port.
  predicate GoodMap(m: PortMap)
  {
    if m.public.One? && m.public.plain.Span? then
      && m.internal.One? && m.internal.plain.Span? && Good(m.public.plain) && Good(m.internal.plain)
      && m.public.plain.high - m.public.plain.low == m.internal.plain.high - m.internal.plain.low
    else
      && m.internal.One? && m.internal.plain.Single? && Good(m.internal.plain)
      && GoodEntry(m.public) && m.public != Braces([])
  }

  predicate GoodMaps(ports: seq<Entry>, maps: seq<PortMap>)
  {
    && |maps| <= MAX_PORT_MAPS
    && (forall i | 0 <= i < |maps| :: GoodMap(maps[i]) && maps[i].public in ports)
    && (forall i, j | 0 <= i < j < |maps| :: maps[i].public != maps[j].public)
  }

  // validatePortMapPair.
  method CheckMap(m: PortMap) returns (ok: bool)
    ensures ok == GoodMap(m)
  {
    if m.public.One? && m.public.plain.Span? {
      if !(m.internal.One? && m.internal.plain.Span?) {
        return false;
      }
      var public := ExpandPlain(m.public.plain);
      var internal := ExpandPlain(m.internal.plain);
      return public.Expanded? && internal.Expanded? && |public.ports| == |internal.ports|;
    }
    if m.internal.One? && m.internal.plain.Span? {
      return false;
    }
    if m.public.Braces? {
      if m.public.items == [] || !GoodEntry(m.public) {
        return false;
      }
    } else if !Good(m.public.plain) {
      return false;
    }
    ok := m.internal.One? && Good(m.internal.plain);
  }

  /** ValidatePortMaps. */
  method ValidatePortMaps(ports: seq<Entry>, maps: seq<PortMap>) returns (ok: bool)
    ensures ok == GoodMaps(ports, maps)
  {
    if maps == [] {
      return true;
    }
    if |maps| > MAX_PORT_MAPS {
      return false;
    }
    var publics: set<Entry> := {};
    for j := 0 to |maps|
      invariant publics == set k | 0 <= k < j :: maps[k].public
      invariant forall k | 0 <= k < j :: GoodMap(maps[k])
      invariant forall k, m | 0 <= k < m < j :: maps[k].public != maps[m].public
    {
      var good := CheckMap(maps[j]);
      if !good {
        return false;
      }
      if maps[j].public in publics {
        assert !GoodMaps(ports, maps) by {
          var k :| 0 <= k < j && maps[k].public == maps[j].public;
        }
        return false;
      }
      publics := publics + {maps[j].public};
    }
    if ports == [] {
      assert maps[0].public !in ports;
      return false;
    }
    var tokens: set<Entry> := set e | e in ports;
    ok := publics <= tokens;
    assert forall k | 0 <= k < |maps| :: maps[k].public in publics;
  }

  // The map of an entry: the first that names it.
  function MapOf(e: Entry, maps: seq<PortMap>): (r: Option<Entry>)
    ensures r == None <==> forall i | 0 <= i < |maps| :: maps[i].public != e
    ensures r.Some? ==> PortMap(e, r.value) in maps
  {
    if maps == [] then None
    else if maps[0].public == e then Some(maps[0].internal)
    else MapOf(e, maps[1..])
  }

  // The range e is mapped to port by port: the first of its maps with a range.
  function RangeOf(e: Entry, maps: seq<PortMap>): (r: Option<Plain>)
    ensures r.Some? ==> r.value.Span?
  {
    if maps == [] then None
    else if maps[0].public == e && maps[0].internal.One? && maps[0].internal.plain.Span? then Some(maps[0].internal.plain)
    else RangeOf(e, maps[1..])
  }

  // In good maps the first map of e is its only one, so a range is found exactly when that is one.
  lemma {:induction false} RangeOfGood(e: Entry, maps: seq<PortMap>)
    requires forall i, j | 0 <= i < j < |maps| :: maps[i].public != maps[j].public
    ensures RangeOf(e, maps).Some? <==> MapOf(e, maps).Some? && MapOf(e, maps).value.One? && MapOf(e, maps).value.plain.Span?
    ensures RangeOf(e, maps).Some? ==> MapOf(e, maps) == Some(One(RangeOf(e, maps).value))
  {
    if maps != [] {
      RangeOfGood(e, maps[1..]);
      if maps[0].public == e {
        assert MapOf(e, maps[1..]) == None;
      }
    }
  }

  datatype Pairs = NotARange | Pairs(pairs: seq<(nat, nat)>) | WidthsDiffer

  // Port i of public with port i of internal.
  function Paired(public: Plain, internal: Plain): (r: seq<(nat, nat)>)
    requires Good(public) && Good(internal) && |Listing(public)| == |Listing(internal)|
  {
    seq(|Listing(public)|, i requires 0 <= i < |Listing(public)| => (Listing(public)[i], Listing(internal)[i]))
  }

  function PairsOf(e: Entry, maps: seq<PortMap>): Pairs
  {
    var to := RangeOf(e, maps);
    if to == None then NotARange
    else if e.One? && Good(e.plain) && Good(to.value) && |Listing(e.plain)| == |Listing(to.value)| then Pairs(Paired(e.plain, to.value))
    else WidthsDiffer
  }

  /** RangePortPairs. */
  method RangePortPairs(e: Entry, maps: seq<PortMap>) returns (r: Pairs)
    ensures r == PairsOf(e, maps)
  {
    for i := 0 to |maps|
      invariant RangeOf(e, maps) == RangeOf(e, maps[i..])
    {
      var m := maps[i];
      assert maps[i..][1..] == maps[i + 1..];
      if m.public == e && m.internal.One? && m.internal.plain.Span? {
        if !e.One? {
          return WidthsDiffer;
        }
        var public := ExpandPlain(e.plain);
        var internal := ExpandPlain(m.internal.plain);
        if public == Unreadable || internal == Unreadable || |public.ports| != |internal.ports| {
          return WidthsDiffer;
        }
        var pairs: seq<(nat, nat)> := [];
        for k := 0 to |public.ports|
          invariant pairs == Paired(e.plain, m.internal.plain)[..k]
        {
          pairs := pairs + [(public.ports[k], internal.ports[k])];
        }
        return Pairs(pairs);
      }
    }
    r := NotARange;
  }

  // ---- Where a port goes ----

  // x, which good maps make a port.
  function AsPort(x: int, n: nat): nat
  {
    if x >= 0 then x else n
  }

  // What port n of entry e becomes at the target.
  function EntryTo(e: Entry, maps: seq<PortMap>, n: nat): nat
  {
    match MapOf(e, maps)
    case None => n
    case Some(One(Single(q))) => AsPort(q, n)
    case Some(One(Span(low, _))) => if e.One? && e.plain.Span? then AsPort(n - e.plain.low + low, n) else n
    case Some(_) => n
  }

  /** The target port of public port n: the first entry that covers n decides. */
  function PortTo(es: seq<Entry>, maps: seq<PortMap>, n: nat): Option<nat>
  {
    if es == [] then None
    else if Covers(es[0], n) then Some(EntryTo(es[0], maps, n))
    else PortTo(es[1..], maps, n)
  }

  lemma {:induction false} PortToMeaning(es: seq<Entry>, maps: seq<PortMap>, n: nat)
    ensures PortTo(es, maps, n).Some? == CoveredBy(es, n)
    ensures CoveredBy(es, n) ==>
              exists i | 0 <= i < |es| ::
                Covers(es[i], n) && (forall k | 0 <= k < i :: !Covers(es[k], n)) && PortTo(es, maps, n) == Some(EntryTo(es[i], maps, n))
  {
    if es != [] {
      PortToMeaning(es[1..], maps, n);
      if Covers(es[0], n) {
      } else if CoveredBy(es, n) {
        var i :| 0 <= i < |es| && Covers(es[i], n);
        assert Covers(es[1..][i - 1], n);
        var k :| 0 <= k < |es[1..]| && Covers(es[1..][k], n) && (forall m | 0 <= m < k :: !Covers(es[1..][m], n)) &&
          PortTo(es[1..], maps, n) == Some(EntryTo(es[1..][k], maps, n));
        assert Covers(es[k + 1], n);
        forall m | 0 <= m < k + 1 ensures !Covers(es[m], n) {
          if m > 0 { assert es[m] == es[1..][m - 1]; }
        }
      }
    }
  }

  lemma MapIs(e: Entry, to: Entry, ports: seq<Entry>, maps: seq<PortMap>)
    requires GoodMaps(ports, maps) && PortMap(e, to) in maps
    ensures MapOf(e, maps) == Some(to) && GoodMap(PortMap(e, to))
  {
    var i :| 0 <= i < |maps| && maps[i] == PortMap(e, to);
    var j :| 0 <= j < |maps| && maps[j] == PortMap(e, MapOf(e, maps).value);
    assert i == j by {
      assert maps[i].public == maps[j].public;
    }
  }

  /** What valid maps do to a port: a range moves as it is, so that its first port goes to the first one; any other entry goes
      to the one port it is mapped to; and without a map the port stays. */
  lemma MappedTo(e: Entry, to: Entry, ports: seq<Entry>, maps: seq<PortMap>, n: nat)
    requires GoodMaps(ports, maps) && PortMap(e, to) in maps && Covers(e, n)
    ensures if e.One? && e.plain.Span? then to.One? && to.plain.Span? && EntryTo(e, maps, n) == to.plain.low + n - e.plain.low
            else to.One? && to.plain.Single? && EntryTo(e, maps, n) == to.plain.port
  {
    MapIs(e, to, ports, maps);
  }

  lemma UnmappedStays(e: Entry, maps: seq<PortMap>, n: nat)
    requires forall i | 0 <= i < |maps| :: maps[i].public != e
    ensures EntryTo(e, maps, n) == n
  {
  }
}

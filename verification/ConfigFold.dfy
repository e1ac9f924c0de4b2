/** The changes as they are listed: a peer that went takes along the routes turned off with it. Each is one entry, and
    one revert. */
module ConfigFold {
  import opened Common
  import opened Json
  import opened RowMatch
  import opened RowSteps
  import opened RowChanges
  import opened ConfigChanges
  import opened ConfigRevert

  // An entry of the list, with the row it is about.
  datatype Change = Change(row: Option<RowStep>, steps: seq<Step>)

  // How a peer's tunnel address and a route's target are written as a host.
  datatype Hosts = Hosts(peer: Json -> string, route: Json -> string)

  // ---- Which routes a peer takes along ----

  predicate Truthy(v: Option<Json>)
  {
    v.Some? && v.value != Null && v.value != Bool(false) && v.value != Num(0) && v.value != Str("")
  }

  function RowValue(row: Option<Item>): Option<Json>
  {
    if row.Some? then Some(row.value.json) else None
  }

  predicate IsOff(row: Option<Json>)
  {
    Truthy(Child(row, "disabled"))
  }

  function HostAt(row: Option<Json>, k: Key, host: Json -> string): string
  {
    var v := Child(row, k);
    if v.Some? then host(v.value) else ""
  }

  // {...row, disabled: 0}
  function SwitchAside(row: Option<Json>): Option<Json>
  {
    if IsObject(row) then Some(Obj(row.value.fields["disabled" := Num(0)])) else row
  }

  // A peer that was on, and is gone or off now.
  predicate PeerLeft(c: Change)
  {
    c.row.Some? && c.row.value.Row? &&
    var before, after := RowValue(c.row.value.before), RowValue(c.row.value.after);
    Truthy(before) && !IsOff(before) && (!Truthy(after) || IsOff(after))
  }

  // A route to host that was only turned off.
  predicate OnlyTurnedOff(c: Change, host: string, hosts: Hosts)
  {
    c.row.Some? && c.row.value.Row? &&
    var before, after := RowValue(c.row.value.before), RowValue(c.row.value.after);
    && Truthy(before) && Truthy(after) && !IsOff(before) && IsOff(after)
    && Same(SwitchAside(before), SwitchAside(after)) && HostAt(before, "target_ip", hosts.route) == host
  }

  function PeerHost(c: Change, hosts: Hosts): string
    requires PeerLeft(c)
  {
    HostAt(RowValue(c.row.value.before), "tunnel_ip", hosts.peer)
  }

  predicate Takes(peer: Change, route: Change, hosts: Hosts)
  {
    PeerLeft(peer) && PeerHost(peer, hosts) != "" && OnlyTurnedOff(route, PeerHost(peer, hosts), hosts)
  }

  function Taker(peer: Change, hosts: Hosts): Change -> bool
  {
    r => Takes(peer, r, hosts)
  }

  // Those of the changes that p takes, or those it leaves.
  function Filter(p: Change -> bool, changes: seq<Change>, yes: bool): seq<Change>
  {
    if changes == [] then []
    else (if p(changes[0]) == yes then [changes[0]] else []) + Filter(p, changes[1..], yes)
  }

  // The routes none of the first n peers takes.
  function LeftBy(peers: seq<Change>, routes: seq<Change>, hosts: Hosts, n: nat): seq<Change>
    requires n <= |peers|
  {
    if n == 0 then routes else Filter(Taker(peers[n - 1], hosts), LeftBy(peers, routes, hosts, n - 1), false)
  }

  function AllSteps(changes: seq<Change>): seq<Step>
  {
    if changes == [] then [] else changes[0].steps + AllSteps(changes[1..])
  }

  // Peer i's entry with its routes.
  function WithRoutes(peers: seq<Change>, routes: seq<Change>, hosts: Hosts, i: nat): Change
    requires i < |peers|
  {
    peers[i].(steps := peers[i].steps + AllSteps(Filter(Taker(peers[i], hosts), LeftBy(peers, routes, hosts, i), true)))
  }

  // ---- The loop ----

  lemma {:induction false} FilterSplits(p: Change -> bool, a: seq<Change>, b: seq<Change>, yes: bool)
    ensures Filter(p, a + b, yes) == Filter(p, a, yes) + Filter(p, b, yes)
    decreases |a|
  {
    if a == [] {
      assert a + b == b;
    } else {
      assert (a + b)[1..] == a[1..] + b;
      FilterSplits(p, a[1..], b, yes);
    }
  }

  lemma {:induction false} FilterHas(p: Change -> bool, changes: seq<Change>, yes: bool)
    ensures forall r :: r in Filter(p, changes, yes) <==> r in changes && p(r) == yes
    decreases |changes|
  {
    if changes != [] {
      FilterHas(p, changes[1..], yes);
      assert changes == [changes[0]] + changes[1..];
    }
  }

  lemma {:induction false} NoneTaken(p: Change -> bool, changes: seq<Change>)
    requires forall r | r in changes :: !p(r)
    ensures Filter(p, changes, false) == changes
    decreases |changes|
  {
    if changes != [] {
      NoneTaken(p, changes[1..]);
    }
  }

  // The routes p takes, found by reading on.
  method FindTaken(p: Change -> bool, routes: seq<Change>) returns (taken: seq<Change>)
    ensures taken == Filter(p, routes, true)
  {
    taken := [];
    for i := 0 to |routes|
      invariant taken == Filter(p, routes[..i], true)
    {
      assert routes[..i + 1] == routes[..i] + [routes[i]];
      FilterSplits(p, routes[..i], [routes[i]], true);
      FilterOne(p, routes[i], true);
      if p(routes[i]) {
        taken := taken + [routes[i]];
      }
    }
    assert routes[..|routes|] == routes;
  }

  method IndexOf(routes: seq<Change>, c: Change) returns (k: nat)
    requires c in routes
    ensures k < |routes| && routes[k] == c && c !in routes[..k]
  {
    k := 0;
    while routes[k] != c
      invariant k < |routes| && c !in routes[..k]
      decreases |routes| - k
    {
      assert routes[..k + 1] == routes[..k] + [routes[k]];
      assert routes == routes[..k + 1] + routes[k + 1..];
      k := k + 1;
    }
  }

  lemma FilterOne(p: Change -> bool, c: Change, yes: bool)
    ensures Filter(p, [c], yes) == if p(c) == yes then [c] else []
  {
    assert [c][1..] == [];
  }

  lemma FilterAround(p: Change -> bool, a: seq<Change>, c: Change, b: seq<Change>, yes: bool)
    ensures Filter(p, a + [c] + b, yes) == Filter(p, a, yes) + (if p(c) == yes then [c] else []) + Filter(p, b, yes)
  {
    FilterSplits(p, a + [c], b, yes);
    FilterSplits(p, a, [c], yes);
    FilterOne(p, c, yes);
  }

  lemma NothingTaken(p: Change -> bool, routes: seq<Change>)
    requires Filter(p, routes, true) == []
    ensures Filter(p, routes, false) == routes
  {
    FilterHas(p, routes, true);
    forall r | r in routes ensures !p(r) {
      assert r !in Filter(p, routes, true);
    }
    NoneTaken(p, routes);
  }

  lemma FirstInFront(t: seq<Change>, u: seq<Change>)
    requires t + u != []
    ensures t != [] ==> (t + u)[0] in t
  {
  }

  // What comes before the first that is taken is not taken.
  lemma NoneBefore(p: Change -> bool, a: seq<Change>, b: seq<Change>, c: Change)
    requires Filter(p, a + b, true) != [] && Filter(p, a + b, true)[0] == c && c !in a
    ensures Filter(p, a, true) == []
  {
    FilterSplits(p, a, b, true);
    FilterHas(p, a, true);
    FirstInFront(Filter(p, a, true), Filter(p, b, true));
  }

  // Taking the first of them out.
  lemma FirstTakenOut(p: Change -> bool, a: seq<Change>, c: Change, b: seq<Change>)
    requires var t := Filter(p, a + [c] + b, true); t != [] && t[0] == c && c !in a && p(c)
    ensures Filter(p, a + b, true) == Filter(p, a + [c] + b, true)[1..]
    ensures Filter(p, a + b, false) == Filter(p, a + [c] + b, false)
  {
    assert a + [c] + b == a + ([c] + b);
    NoneBefore(p, a, [c] + b, c);
    FilterAround(p, a, c, b, true);
    FilterAround(p, a, c, b, false);
    FilterSplits(p, a, b, true);
    FilterSplits(p, a, b, false);
  }

  /** foldCascades. */
  method FoldCascades(peers: seq<Change>, routes: seq<Change>, hosts: Hosts) returns (ps: seq<Change>, rs: seq<Change>)
    ensures |ps| == |peers| && forall i | 0 <= i < |peers| :: ps[i] == WithRoutes(peers, routes, hosts, i)
    ensures rs == LeftBy(peers, routes, hosts, |peers|)
  {
    ps, rs := peers, routes;
    for i := 0 to |peers|
      invariant |ps| == |peers| && rs == LeftBy(peers, routes, hosts, i)
      invariant forall j | 0 <= j < |peers| :: ps[j] == if j < i then WithRoutes(peers, routes, hosts, j) else peers[j]
    {
      var steps;
      steps, rs := FoldInto(Taker(peers[i], hosts), peers[i].steps, rs);
      var entry := peers[i].(steps := steps);
      assert entry == WithRoutes(peers, routes, hosts, i);
      ps := ps[i := entry];
    }
  }

  method FoldInto(p: Change -> bool, own: seq<Step>, routes: seq<Change>) returns (steps: seq<Step>, rs: seq<Change>)
    ensures steps == own + AllSteps(Filter(p, routes, true)) && rs == Filter(p, routes, false)
  {
    var taken := FindTaken(p, routes);
    steps, rs := own, routes;
    for n := 0 to |taken|
      invariant steps == own + AllSteps(taken[..n])
      invariant Filter(p, rs, true) == taken[n..] && Filter(p, rs, false) == Filter(p, routes, false)
    {
      rs := TakeOut(p, rs, taken[n]);
      LastSteps(taken, n + 1);
      steps := steps + taken[n].steps;
    }
    assert taken[..|taken|] == taken;
    NothingTaken(p, rs);
  }

  method TakeOut(p: Change -> bool, routes: seq<Change>, c: Change) returns (rest: seq<Change>)
    requires Filter(p, routes, true) != [] && c == Filter(p, routes, true)[0]
    ensures Filter(p, rest, true) == Filter(p, routes, true)[1..] && Filter(p, rest, false) == Filter(p, routes, false)
  {
    FilterHas(p, routes, true);
    assert c in Filter(p, routes, true);
    var k := IndexOf(routes, c);
    assert routes == routes[..k] + [c] + routes[k + 1..];
    FirstTakenOut(p, routes[..k], c, routes[k + 1..]);
    rest := routes[..k] + routes[k + 1..];
  }

  // ---- Nothing is lost ----

  lemma {:induction false} AllStepsConcat(a: seq<Change>, b: seq<Change>)
    ensures AllSteps(a + b) == AllSteps(a) + AllSteps(b)
    decreases |a|
  {
    if a == [] {
      assert a + b == b;
    } else {
      assert (a + b)[1..] == a[1..] + b;
      AllStepsConcat(a[1..], b);
    }
  }

  lemma FrontMoves(x: seq<Step>, a: seq<Step>, b: seq<Step>, c: seq<Step>)
    requires multiset(a) + multiset(b) == multiset(c)
    ensures multiset(x + a) + multiset(b) == multiset(x + c)
    ensures multiset(a) + multiset(x + b) == multiset(x + c)
  {
  }

  lemma StepsOfFront(c: Change, rest: seq<Change>)
    ensures AllSteps([c] + rest) == c.steps + AllSteps(rest)
  {
    assert ([c] + rest)[1..] == rest;
  }

  lemma {:induction false} TakenAndLeft(p: Change -> bool, routes: seq<Change>)
    ensures multiset(AllSteps(Filter(p, routes, true))) + multiset(AllSteps(Filter(p, routes, false))) == multiset(AllSteps(routes))
    decreases |routes|
  {
    if routes != [] {
      var first, rest := routes[0], routes[1..];
      var a, b := Filter(p, rest, true), Filter(p, rest, false);
      TakenAndLeft(p, rest);
      FrontMoves(first.steps, AllSteps(a), AllSteps(b), AllSteps(rest));
      StepsOfFront(first, a);
      StepsOfFront(first, b);
      assert Filter(p, routes, true) == if p(first) then [first] + a else a;
      assert Filter(p, routes, false) == if p(first) then b else [first] + b;
    }
  }

  // The peers' entries with their routes.
  function Folded(peers: seq<Change>, routes: seq<Change>, hosts: Hosts): (r: seq<Change>)
    ensures |r| == |peers| && forall i | 0 <= i < |peers| :: r[i] == WithRoutes(peers, routes, hosts, i)
  {
    seq(|peers|, i requires 0 <= i < |peers| => WithRoutes(peers, routes, hosts, i))
  }

  // What peer n - 1 adds to its entry, and what it leaves.
  lemma FoldOne(peers: seq<Change>, routes: seq<Change>, hosts: Hosts, n: nat) returns (taken: seq<Step>)
    requires 0 < n <= |peers|
    ensures var f := Folded(peers, routes, hosts); AllSteps(f[..n]) == AllSteps(f[..n - 1]) + (peers[n - 1].steps + taken)
    ensures multiset(taken) + multiset(AllSteps(LeftBy(peers, routes, hosts, n))) == multiset(AllSteps(LeftBy(peers, routes, hosts, n - 1)))
  {
    var p, left := Taker(peers[n - 1], hosts), LeftBy(peers, routes, hosts, n - 1);
    taken := AllSteps(Filter(p, left, true));
    LastSteps(Folded(peers, routes, hosts), n);
    TakenAndLeft(p, left);
  }

  lemma {:induction false} FoldedSteps(peers: seq<Change>, routes: seq<Change>, hosts: Hosts, n: nat)
    requires n <= |peers|
    ensures multiset(AllSteps(Folded(peers, routes, hosts)[..n])) + multiset(AllSteps(LeftBy(peers, routes, hosts, n))) ==
            multiset(AllSteps(peers[..n])) + multiset(AllSteps(routes))
  {
    var f := Folded(peers, routes, hosts);
    if n > 0 {
      FoldedSteps(peers, routes, hosts, n - 1);
      var taken := FoldOne(peers, routes, hosts, n);
      LastSteps(peers, n);
      Moved(AllSteps(f[..n - 1]), peers[n - 1].steps, taken, AllSteps(LeftBy(peers, routes, hosts, n)),
            AllSteps(LeftBy(peers, routes, hosts, n - 1)), AllSteps(peers[..n - 1]), AllSteps(routes));
    }
  }

  lemma Moved(f: seq<Step>, own: seq<Step>, taken: seq<Step>, rest: seq<Step>, left: seq<Step>, peers: seq<Step>, routes: seq<Step>)
    requires multiset(taken) + multiset(rest) == multiset(left) && multiset(f) + multiset(left) == multiset(peers) + multiset(routes)
    ensures multiset(f + (own + taken)) + multiset(rest) == multiset(peers + own) + multiset(routes)
  {
    var a, b, c, d := multiset(f), multiset(own), multiset(taken), multiset(rest);
    assert multiset(f + (own + taken)) == a + b + c && multiset(peers + own) == multiset(peers) + b;
    assert a + b + c + d == a + (c + d) + b;
    assert multiset(peers) + b + multiset(routes) == multiset(peers) + multiset(routes) + b;
  }

  lemma LastSteps(changes: seq<Change>, n: nat)
    requires 0 < n <= |changes|
    ensures AllSteps(changes[..n]) == AllSteps(changes[..n - 1]) + changes[n - 1].steps
  {
    assert changes[..n] == changes[..n - 1] + [changes[n - 1]];
    AllStepsConcat(changes[..n - 1], [changes[n - 1]]);
    assert [changes[n - 1]][1..] == [];
  }

  /** Folding loses no step and adds none, and leaves no route listed apart that a listed peer takes along. */
  lemma FoldingKeepsSteps(peers: seq<Change>, routes: seq<Change>, hosts: Hosts)
    ensures var ps, rs := Folded(peers, routes, hosts), LeftBy(peers, routes, hosts, |peers|);
            && multiset(AllSteps(ps + rs)) == multiset(AllSteps(peers + routes))
            && forall r :: r in rs <==> r in routes && forall i | 0 <= i < |peers| :: !Takes(peers[i], r, hosts)
  {
    var ps, rs := Folded(peers, routes, hosts), LeftBy(peers, routes, hosts, |peers|);
    FoldedSteps(peers, routes, hosts, |peers|);
    assert ps[..|peers|] == ps && peers[..|peers|] == peers;
    AllStepsConcat(ps, rs);
    AllStepsConcat(peers, routes);
    LeftAre(peers, routes, hosts, |peers|);
  }

  lemma LeftAre(peers: seq<Change>, routes: seq<Change>, hosts: Hosts, n: nat)
    requires n <= |peers|
    ensures forall r :: r in LeftBy(peers, routes, hosts, n) <==> r in routes && forall i | 0 <= i < n :: !Takes(peers[i], r, hosts)
  {
    forall r ensures r in LeftBy(peers, routes, hosts, n) <==> r in routes && forall i | 0 <= i < n :: !Takes(peers[i], r, hosts) {
      var takes := seq(n, i requires 0 <= i < n => Takes(peers[i], r, hosts));
      LeftIs(peers, routes, hosts, n, r, takes);
      assert forall i | 0 <= i < n :: takes[i] == Takes(peers[i], r, hosts);
    }
  }

  // takes says of each peer whether it takes r, so that Takes stays folded.
  lemma {:induction false} LeftIs(peers: seq<Change>, routes: seq<Change>, hosts: Hosts, n: nat, r: Change, takes: seq<bool>)
    requires n == |takes| <= |peers| && forall i | 0 <= i < n :: takes[i] == Taker(peers[i], hosts)(r)
    ensures r in LeftBy(peers, routes, hosts, n) <==> r in routes && true !in takes
  {
    if n > 0 {
      var front := takes[..n - 1];
      LeftIs(peers, routes, hosts, n - 1, r, front);
      LeftStep(peers, routes, hosts, n, r, takes[n - 1]);
      assert takes == front + [takes[n - 1]];
    }
  }

  lemma LeftStep(peers: seq<Change>, routes: seq<Change>, hosts: Hosts, n: nat, r: Change, taken: bool)
    requires 0 < n <= |peers| && taken == Taker(peers[n - 1], hosts)(r)
    ensures r in LeftBy(peers, routes, hosts, n) <==> r in LeftBy(peers, routes, hosts, n - 1) && !taken
  {
    FilterHas(Taker(peers[n - 1], hosts), LeftBy(peers, routes, hosts, n - 1), false);
  }

  // ---- The whole list ----

  function RowEntries(path: Path, rows: seq<RowStep>): seq<Change>
  {
    if rows == [] then [] else [Change(if rows[0].Row? then Some(rows[0]) else None, [AtRow(path, rows[0])])] + RowEntries(path, rows[1..])
  }

  function Entries(steps: seq<Step>): seq<Change>
  {
    if steps == [] then [] else [Change(None, [steps[0]])] + Entries(steps[1..])
  }

  lemma {:induction false} EntriesSteps(steps: seq<Step>)
    ensures AllSteps(Entries(steps)) == steps
    decreases |steps|
  {
    if steps != [] {
      EntriesSteps(steps[1..]);
      assert Entries(steps)[1..] == Entries(steps[1..]);
    }
  }

  lemma {:induction false} RowEntriesSteps(path: Path, rows: seq<RowStep>)
    ensures AllSteps(RowEntries(path, rows)) == AtRows(path, rows)
    decreases |rows|
  {
    if rows != [] {
      RowEntriesSteps(path, rows[1..]);
      assert RowEntries(path, rows)[1..] == RowEntries(path, rows[1..]);
    }
  }

  function EntriesOf(before: Option<Json>, after: Option<Json>, list: RowList): seq<Change>
  {
    RowEntries(list.path, RowStepsOf(RowsOf(GetAt(before, list.path)), RowsOf(GetAt(after, list.path)), list.keys))
  }

  /** describeConfigChanges. */
  ghost function Described(before: Option<Json>, after: Option<Json>, peers: seq<Keys>, routes: seq<Keys>, inbound: seq<Keys>, hosts: Hosts): seq<Change>
  {
    var lists := ConfigLists(peers, routes, inbound);
    var p, r := EntriesOf(before, after, lists[0]), EntriesOf(before, after, lists[1]);
    Folded(p, r, hosts) + LeftBy(p, r, hosts, |p|) + EntriesOf(before, after, lists[2]) + Entries(Settings(before, after, lists))
  }

  lemma OneListAlone(before: Option<Json>, after: Option<Json>, list: RowList)
    ensures ListSteps(before, after, [list]) ==
            AtRows(list.path, RowStepsOf(RowsOf(GetAt(before, list.path)), RowsOf(GetAt(after, list.path)), list.keys))
  {
    assert [list][..0] == [];
    assert ListSteps(before, after, []) == [];
  }

  lemma EntriesOfSteps(before: Option<Json>, after: Option<Json>, list: RowList)
    ensures AllSteps(EntriesOf(before, after, list)) == ListSteps(before, after, [list])
  {
    RowEntriesSteps(list.path, RowStepsOf(RowsOf(GetAt(before, list.path)), RowsOf(GetAt(after, list.path)), list.keys));
    OneListAlone(before, after, list);
  }

  lemma ListStepsConcat(before: Option<Json>, after: Option<Json>, a: seq<RowList>, list: RowList)
    ensures ListSteps(before, after, a + [list]) == ListSteps(before, after, a) + ListSteps(before, after, [list])
  {
    var all := a + [list];
    assert all[..|all| - 1] == a && all[|all| - 1] == list;
    var own := AtRows(list.path, RowStepsOf(RowsOf(GetAt(before, list.path)), RowsOf(GetAt(after, list.path)), list.keys));
    assert ListSteps(before, after, all) == ListSteps(before, after, a) + own;
    OneListAlone(before, after, list);
  }

  lemma ThreeLists(before: Option<Json>, after: Option<Json>, a: RowList, b: RowList, c: RowList)
    ensures ListSteps(before, after, [a, b, c]) == ListSteps(before, after, [a]) + ListSteps(before, after, [b]) + ListSteps(before, after, [c])
  {
    assert [a] + [b] == [a, b] && [a, b] + [c] == [a, b, c];
    ListStepsConcat(before, after, [a], b);
    ListStepsConcat(before, after, [a, b], c);
  }

  lemma DescribedSteps(before: Option<Json>, after: Option<Json>, peers: seq<Keys>, routes: seq<Keys>, inbound: seq<Keys>, hosts: Hosts)
    ensures multiset(AllSteps(Described(before, after, peers, routes, inbound, hosts))) ==
            multiset(Changes(before, after, ConfigLists(peers, routes, inbound)))
  {
    var lists := ConfigLists(peers, routes, inbound);
    var p, r, i := EntriesOf(before, after, lists[0]), EntriesOf(before, after, lists[1]), EntriesOf(before, after, lists[2]);
    var s := Settings(before, after, lists);
    var f := Folded(p, r, hosts) + LeftBy(p, r, hosts, |p|);
    FoldingKeepsSteps(p, r, hosts);
    AllStepsConcat(f, i);
    AllStepsConcat(f + i, Entries(s));
    AllStepsConcat(p, r);
    EntriesSteps(s);
    EntriesOfSteps(before, after, lists[0]);
    EntriesOfSteps(before, after, lists[1]);
    EntriesOfSteps(before, after, lists[2]);
    ThreeLists(before, after, lists[0], lists[1], lists[2]);
    assert AllSteps(f + i + Entries(s)) == AllSteps(f) + AllSteps(i) + s;
    assert Changes(before, after, lists) == AllSteps(p + r) + AllSteps(i) + s;
  }

  // ---- Taking entries back ----

  /** revertChange, one entry after the other. */
  function RevertChanges(d: Option<Json>, order: seq<Change>): Draft
    decreases |order|
  {
    if order == [] then Draft(d)
    else
      var r := RevertSteps(d, order[0].steps);
      if r == Declined then Declined else RevertChanges(r.value, order[1..])
  }

  lemma {:induction false} StepsConcat(d: Option<Json>, a: seq<Step>, b: seq<Step>)
    ensures RevertSteps(d, a + b) == var r := RevertSteps(d, a); if r == Declined then Declined else RevertSteps(r.value, b)
    decreases |a|
  {
    if a == [] {
      assert a + b == b;
    } else {
      assert (a + b)[1..] == a[1..] + b;
      var r := RevertStep(d, a[0]);
      if r.Draft? { StepsConcat(r.value, a[1..], b); }
    }
  }

  lemma {:induction false} EntryByEntry(d: Option<Json>, order: seq<Change>)
    ensures RevertChanges(d, order) == RevertSteps(d, AllSteps(order))
    decreases |order|
  {
    if order != [] {
      StepsConcat(d, order[0].steps, AllSteps(order[1..]));
      var r := RevertSteps(d, order[0].steps);
      if r.Draft? { EntryByEntry(r.value, order[1..]); }
    }
  }

  lemma {:induction false} AnyOrderSteps(a: seq<Change>, b: seq<Change>)
    requires multiset(a) == multiset(b)
    ensures multiset(AllSteps(a)) == multiset(AllSteps(b))
    decreases |a|
  {
    if a == [] {
      assert |multiset(b)| == 0;
    } else {
      assert a[0] in multiset(b);
      var k :| 0 <= k < |b| && b[k] == a[0];
      var x, y := b[..k], b[k + 1..];
      RestsEqual(a, b, k);
      AnyOrderSteps(a[1..], x + y);
      assert b == x + [b[k]] + y && [b[k]][1..] == [];
      AllStepsConcat(x + [b[k]], y);
      AllStepsConcat(x, [b[k]]);
      AllStepsConcat(x, y);
    }
  }

  /** Taking the listed entries back one at a time, each once and in any order, gives the applied config exactly when no
      empty list stands where the applied config has an object that differs. */
  lemma EntriesRevert(before: Option<Json>, after: Option<Json>, peers: seq<Keys>, routes: seq<Keys>, inbound: seq<Keys>, hosts: Hosts, order: seq<Change>)
    requires Fits(before, after, ConfigLists(peers, routes, inbound))
    requires multiset(order) == multiset(Described(before, after, peers, routes, inbound, hosts))
    ensures var lists := ConfigLists(peers, routes, inbound);
            var r := RevertChanges(after, order);
            (r.Draft? && Alike(r.value, before, lists, false)) <==> Reachable(before, after, lists)
  {
    EntryByEntry(after, order);
    AnyOrderSteps(order, Described(before, after, peers, routes, inbound, hosts));
    DescribedSteps(before, after, peers, routes, inbound, hosts);
    RevertsIffReachable(before, after, ConfigLists(peers, routes, inbound), AllSteps(order));
  }
}

/** Which routes a peer takes along in the list, said of the rows themselves. */
module ConfigCascade {
  import opened Common
  import opened Json
  import opened RowMatch
  import opened RowSteps
  import opened RowChanges
  import opened ConfigChanges
  import opened ConfigFold

  // ---- One peer and one route ----

  // The row is there as an object, and its switch is on, or off.
  predicate On(row: Option<Item>)
  {
    row.Some? && row.value.json.Obj? &&
    ("disabled" in row.value.json.fields ==> row.value.json.fields["disabled"] in {Null, Bool(false), Num(0), Str("")})
  }

  predicate Off(row: Option<Item>)
  {
    row.Some? && row.value.json.Obj? && !On(row)
  }

  // No row stands there, or nothing that counts as one.
  predicate Gone(row: Option<Item>)
  {
    row == None || row.value.json in {Null, Bool(false), Num(0), Str("")}
  }

  function At(row: Item, k: Key): Option<Json>
  {
    if row.json.Obj? && k in row.json.fields then Some(row.json.fields[k]) else None
  }

  // The peer's tunnel host is the route's target, and there is one.
  predicate SameHost(peer: Item, route: Item, hosts: Hosts)
  {
    && At(peer, "tunnel_ip").Some? && At(route, "target_ip").Some?
    && hosts.peer(At(peer, "tunnel_ip").value) != ""
    && hosts.route(At(route, "target_ip").value) == hosts.peer(At(peer, "tunnel_ip").value)
  }

  // Nothing differs but the switch.
  ghost predicate OnlySwitched(before: Item, after: Item)
  {
    forall k: Key | k != "disabled" :: Same(At(before, k), At(after, k))
  }

  // A peer that was on and is gone or off, and a route to it that was on, is off, and is otherwise as it was.
  ghost predicate Cascades(peer: Change, route: Change, hosts: Hosts)
  {
    && peer.row.Some? && peer.row.value.Row? && route.row.Some? && route.row.value.Row?
    && var p, r := peer.row.value, route.row.value;
       && On(p.before) && (Gone(p.after) || Off(p.after))
       && On(r.before) && Off(r.after) && OnlySwitched(r.before.value, r.after.value)
       && SameHost(p.before.value, r.before.value, hosts)
  }

  // Canonical forms without the switch agree exactly when every other field does.
  lemma SwitchedOnly(a: Json, b: Json)
    requires a.Obj? && b.Obj?
    ensures Same(SwitchAside(Some(a)), SwitchAside(Some(b))) <==>
            forall k: Key | k != "disabled" :: Same(Child(Some(a), k), Child(Some(b), k))
  {
    var x, y := SwitchAside(Some(a)), SwitchAside(Some(b));
    forall k: Key ensures k != "disabled" ==> Child(x, k) == Child(Some(a), k) && Child(y, k) == Child(Some(b), k) {
    }
    assert Child(x, "disabled") == Child(y, "disabled") == Some(Num(0));
    if Same(x, y) {
      forall k: Key | k != "disabled" ensures Same(Child(Some(a), k), Child(Some(b), k)) {
        SameChildren(x, y, k);
      }
    }
    if forall k: Key | k != "disabled" :: Same(Child(Some(a), k), Child(Some(b), k)) {
      forall k: Key ensures Same(Child(x, k), Child(y, k)) {
      }
      ChildrenSame(x, y);
    }
  }

  lemma PeerLeftMeaning(peer: Change)
    requires peer.row.Some? && peer.row.value.Row? && peer.row.value.before.Some? && peer.row.value.before.value.json.Obj?
    ensures var p := peer.row.value; PeerLeft(peer) <==> On(p.before) && (Gone(p.after) || Off(p.after))
  {
  }

  lemma TurnedOffMeaning(route: Change, host: string, hosts: Hosts)
    requires host != "" && route.row.Some? && route.row.value.Row?
    ensures OnlyTurnedOff(route, host, hosts) <==>
            var r := route.row.value;
            && On(r.before) && Off(r.after) && OnlySwitched(r.before.value, r.after.value)
            && At(r.before.value, "target_ip").Some? && hosts.route(At(r.before.value, "target_ip").value) == host
  {
    var r := route.row.value;
    if r.before.Some? && r.after.Some? && r.before.value.json.Obj? && r.after.value.json.Obj? {
      SwitchedOnly(r.before.value.json, r.after.value.json);
      forall k: Key ensures At(r.before.value, k) == Child(Some(r.before.value.json), k) && At(r.after.value, k) == Child(Some(r.after.value.json), k) {
      }
    }
  }

  lemma TakesMeaning(peer: Change, route: Change, hosts: Hosts)
    ensures Takes(peer, route, hosts) <==> Cascades(peer, route, hosts)
  {
    if peer.row.Some? && peer.row.value.Row? && peer.row.value.before.Some? && peer.row.value.before.value.json.Obj? {
      PeerLeftMeaning(peer);
      var host := At(peer.row.value.before.value, "tunnel_ip");
      if route.row.Some? && route.row.value.Row? && host.Some? && hosts.peer(host.value) != "" {
        TurnedOffMeaning(route, hosts.peer(host.value), hosts);
      }
    }
  }

  // ---- All of them ----

  ghost function ToPeer(peers: seq<Change>, hosts: Hosts, i: nat): Change -> bool
    requires i < |peers|
  {
    r => Cascades(peers[i], r, hosts) && forall j | 0 <= j < i :: !Cascades(peers[j], r, hosts)
  }

  ghost function ToNone(peers: seq<Change>, hosts: Hosts, n: nat): Change -> bool
    requires n <= |peers|
  {
    r => forall j | 0 <= j < n :: !Cascades(peers[j], r, hosts)
  }

  lemma {:induction false} FilterTwice(p: Change -> bool, yes: bool, q: Change -> bool, both: Change -> bool, changes: seq<Change>)
    requires forall r :: both(r) <==> q(r) && p(r) == yes
    ensures Filter(p, Filter(q, changes, true), yes) == Filter(both, changes, true)
    decreases |changes|
  {
    if changes != [] {
      var c, rest := changes[0], Filter(q, changes[1..], true);
      FilterTwice(p, yes, q, both, changes[1..]);
      if q(c) {
        assert Filter(q, changes, true) == [c] + rest && ([c] + rest)[1..] == rest;
      } else {
        assert Filter(q, changes, true) == [] + rest == rest;
      }
    }
  }

  lemma {:induction false} AllStay(p: Change -> bool, changes: seq<Change>)
    requires forall r :: p(r)
    ensures Filter(p, changes, true) == changes
    decreases |changes|
  {
    if changes != [] {
      AllStay(p, changes[1..]);
    }
  }

  lemma OneMoreNone(peers: seq<Change>, hosts: Hosts, n: nat, r: Change)
    requires 0 < n <= |peers|
    ensures ToNone(peers, hosts, n)(r) <==> ToNone(peers, hosts, n - 1)(r) && !Taker(peers[n - 1], hosts)(r)
  {
    TakesMeaning(peers[n - 1], r, hosts);
  }

  lemma {:induction false} LeftAreToNone(peers: seq<Change>, routes: seq<Change>, hosts: Hosts, n: nat)
    requires n <= |peers|
    ensures LeftBy(peers, routes, hosts, n) == Filter(ToNone(peers, hosts, n), routes, true)
  {
    if n == 0 {
      AllStay(ToNone(peers, hosts, 0), routes);
    } else {
      LeftAreToNone(peers, routes, hosts, n - 1);
      OneMoreTaker(peers, routes, hosts, n);
    }
  }

  lemma OneMoreTaker(peers: seq<Change>, routes: seq<Change>, hosts: Hosts, n: nat)
    requires 0 < n <= |peers|
    ensures Filter(Taker(peers[n - 1], hosts), Filter(ToNone(peers, hosts, n - 1), routes, true), false) == Filter(ToNone(peers, hosts, n), routes, true)
  {
    var p, q, both := Taker(peers[n - 1], hosts), ToNone(peers, hosts, n - 1), ToNone(peers, hosts, n);
    forall r ensures both(r) <==> q(r) && p(r) == false {
      OneMoreNone(peers, hosts, n, r);
    }
    FilterTwice(p, false, q, both, routes);
  }

  /** The entries exactly: a peer's entry holds, after its own steps, those of the routes it takes along that no earlier peer
      does, in the order of the list; and the routes listed apart are those no peer takes along. */
  lemma CascadesAreExact(peers: seq<Change>, routes: seq<Change>, hosts: Hosts, i: nat)
    requires i < |peers|
    ensures WithRoutes(peers, routes, hosts, i) == peers[i].(steps := peers[i].steps + AllSteps(Filter(ToPeer(peers, hosts, i), routes, true)))
    ensures LeftBy(peers, routes, hosts, |peers|) == Filter(ToNone(peers, hosts, |peers|), routes, true)
  {
    LeftAreToNone(peers, routes, hosts, i);
    LeftAreToNone(peers, routes, hosts, |peers|);
    var p, q, both := Taker(peers[i], hosts), ToNone(peers, hosts, i), ToPeer(peers, hosts, i);
    forall r ensures both(r) <==> q(r) && p(r) == true {
      TakesMeaning(peers[i], r, hosts);
    }
    FilterTwice(p, true, q, both, routes);
  }

  /** A peer that was off before, stays on, or has no host keeps its own steps only. */
  lemma KeepsOwnSteps(peers: seq<Change>, routes: seq<Change>, hosts: Hosts, i: nat)
    requires i < |peers| && peers[i].row.Some? && peers[i].row.value.Row?
    requires var p := peers[i].row.value;
             || !On(p.before) || On(p.after)
             || (At(p.before.value, "tunnel_ip") == None || hosts.peer(At(p.before.value, "tunnel_ip").value) == "")
    ensures WithRoutes(peers, routes, hosts, i) == peers[i]
  {
    CascadesAreExact(peers, routes, hosts, i);
    NoneTakenAlong(ToPeer(peers, hosts, i), routes);
  }

  lemma {:induction false} NoneTakenAlong(p: Change -> bool, changes: seq<Change>)
    requires forall r :: !p(r)
    ensures Filter(p, changes, true) == []
    decreases |changes|
  {
    if changes != [] {
      NoneTakenAlong(p, changes[1..]);
    }
  }
}

/** Pausing the routes of a peer that stops answering: the hysteresis per peer, and the loop that turns peer states
    into a paused set and into events. */
module AutoPause {
  import opened Common

  // ---- One peer ----

  datatype Counts = Counts(paused: bool, failures: nat, successes: nat)

  const FRESH: Counts := Counts(false, 0, 0)

  function Observed(h: Counts, online: bool, toPause: nat, toResume: nat): Counts
  {
    if online then Counts(h.paused && h.successes + 1 < toResume, 0, h.successes + 1)
    else Counts(h.paused || h.failures + 1 >= toPause, h.failures + 1, 0)
  }

  /** hysteresis. */
  class Hysteresis {
    var paused: bool
    var failures: nat
    var successes: nat

    ghost function State(): Counts
      reads this
    {
      Counts(paused, failures, successes)
    }

    constructor ()
      ensures State() == FRESH
    {
      paused, failures, successes := false, 0, 0;
    }

    method Observe(online: bool, toPause: nat, toResume: nat)
      modifies this
      ensures State() == Observed(old(State()), online, toPause, toResume)
    {
      if online {
        failures := 0;
        successes := successes + 1;
        if paused && successes >= toResume {
          paused := false;
        }
        return;
      }
      successes := 0;
      failures := failures + 1;
      if !paused && failures >= toPause {
        paused := true;
      }
    }
  }

  // The state after a sequence of probes, oldest first.
  function After(probes: seq<bool>, toPause: nat, toResume: nat): Counts
  {
    if probes == [] then FRESH
    else Observed(After(probes[..|probes| - 1], toPause, toResume), probes[|probes| - 1], toPause, toResume)
  }

  // The length probes before end all answered online.
  predicate RunEnds(probes: seq<bool>, end: int, length: int, online: bool)
  {
    0 <= end - length && end <= |probes| && forall i | end - length <= i < end :: probes[i] == online
  }

  lemma {:induction false} CountsAreRuns(probes: seq<bool>, toPause: nat, toResume: nat)
    ensures var h := After(probes, toPause, toResume);
            && RunEnds(probes, |probes|, h.failures, false)
            && RunEnds(probes, |probes|, h.successes, true)
            && (h.failures < |probes| ==> probes[|probes| - h.failures - 1])
            && (h.successes < |probes| ==> !probes[|probes| - h.successes - 1])
  {
    if probes != [] {
      CountsAreRuns(probes[..|probes| - 1], toPause, toResume);
    }
  }

  // Some run of failures was completed and no run of successes after it.
  predicate ShouldBePaused(probes: seq<bool>, toPause: nat, toResume: nat)
  {
    exists i | 0 <= i <= |probes| ::
      RunEnds(probes, i, toPause, false) && forall j | i < j <= |probes| :: !RunEnds(probes, j, toResume, true)
  }

  lemma RunBefore(probes: seq<bool>, end: int, length: int, online: bool)
    requires probes != [] && end < |probes|
    ensures RunEnds(probes, end, length, online) <==> RunEnds(probes[..|probes| - 1], end, length, online)
  {
    var before := probes[..|probes| - 1];
    if RunEnds(before, end, length, online) {
      assert forall i | end - length <= i < end :: probes[i] == before[i];
    }
  }

  // What the last probe changes about having to be paused.
  lemma ShouldStep(probes: seq<bool>, toPause: nat, toResume: nat)
    requires probes != [] && toPause >= 1 && toResume >= 1
    ensures var before, n := probes[..|probes| - 1], |probes|;
            ShouldBePaused(probes, toPause, toResume) <==>
            RunEnds(probes, n, toPause, false) || (ShouldBePaused(before, toPause, toResume) && !RunEnds(probes, n, toResume, true))
  {
    var before, n := probes[..|probes| - 1], |probes|;
    if ShouldBePaused(probes, toPause, toResume) && !RunEnds(probes, n, toPause, false) {
      var i :| 0 <= i <= n && RunEnds(probes, i, toPause, false) && forall j | i < j <= n :: !RunEnds(probes, j, toResume, true);
      RunBefore(probes, i, toPause, false);
      forall j | i < j <= |before| ensures !RunEnds(before, j, toResume, true) {
        RunBefore(probes, j, toResume, true);
      }
      assert RunEnds(before, i, toPause, false);
      assert !RunEnds(probes, n, toResume, true);
    }
    if ShouldBePaused(before, toPause, toResume) && !RunEnds(probes, n, toResume, true) {
      var i :| 0 <= i <= |before| && RunEnds(before, i, toPause, false) && forall j | i < j <= |before| :: !RunEnds(before, j, toResume, true);
      RunBefore(probes, i, toPause, false);
      forall j | i < j <= n ensures !RunEnds(probes, j, toResume, true) {
        if j < n {
          RunBefore(probes, j, toResume, true);
        }
      }
      assert RunEnds(probes, i, toPause, false);
    }
  }

  // At the end of the probes a run is completed exactly when the count says so.
  lemma LastRun(probes: seq<bool>, toPause: nat, toResume: nat)
    requires toPause >= 1 && toResume >= 1
    ensures var h := After(probes, toPause, toResume);
            && (RunEnds(probes, |probes|, toPause, false) <==> h.failures >= toPause)
            && (RunEnds(probes, |probes|, toResume, true) <==> h.successes >= toResume)
  {
    CountsAreRuns(probes, toPause, toResume);
  }

  /** Over any probe sequence: paused exactly when a run of toPause failures was completed and no run of toResume
      successes has been since. */
  lemma {:induction false} PausedIffRun(probes: seq<bool>, toPause: nat, toResume: nat)
    requires toPause >= 1 && toResume >= 1
    ensures After(probes, toPause, toResume).paused <==> ShouldBePaused(probes, toPause, toResume)
  {
    if probes != [] {
      PausedIffRun(probes[..|probes| - 1], toPause, toResume);
      ShouldStep(probes, toPause, toResume);
      LastRun(probes, toPause, toResume);
    }
  }

  // How often the state went to paused, and how often back.
  function Switches(probes: seq<bool>, toPause: nat, toResume: nat, pauses: bool): nat
  {
    if probes == [] then 0
    else
      var before := probes[..|probes| - 1];
      var was, now := After(before, toPause, toResume).paused, After(probes, toPause, toResume).paused;
      Switches(before, toPause, toResume, pauses) + if was != now && now == pauses then 1 else 0
  }

  /** Each pause takes toPause probes of its own and each resume toResume: a peer that comes and goes cannot switch
      its routes faster. */
  lemma {:induction false} SwitchesArePaidFor(probes: seq<bool>, toPause: nat, toResume: nat)
    requires toPause >= 1 && toResume >= 1
    ensures var p, r := Switches(probes, toPause, toResume, true), Switches(probes, toPause, toResume, false);
            var h := After(probes, toPause, toResume);
            && p * toPause + r * toResume + (if h.paused then h.successes else h.failures) <= |probes|
            && p * toPause + r * toResume <= |probes|
            && p - r == (if h.paused then 1 else 0)
            && (if h.paused then h.successes < toResume else h.failures < toPause)
  {
    if probes != [] {
      var before := probes[..|probes| - 1];
      SwitchesArePaidFor(before, toPause, toResume);
      OneMoreTimes(Switches(before, toPause, toResume, true), toPause);
      OneMoreTimes(Switches(before, toPause, toResume, false), toResume);
    }
  }

  lemma OneMoreTimes(n: nat, k: nat)
    ensures (n + 1) * k == n * k + k
  {
  }

  // ---- The loop ----

  type Peer = nat

  // What the loop looks at of a route: whether it is active with the setting on, its key, and the enabled peer it targets.
  datatype View = View(watch: bool, key: nat, peer: Option<Peer>)

  datatype Event = Paused(key: nat) | Resumed(key: nat)

  function Watched(views: seq<View>): set<Peer>
  {
    set i | 0 <= i < |views| && views[i].watch && views[i].peer.Some? :: views[i].peer.value
  }

  predicate IsPaused(peers: map<Peer, Counts>, v: View)
  {
    v.watch && v.peer.Some? && v.peer.value in peers && peers[v.peer.value].paused
  }

  // derivePaused: the keys of the paused routes in config order.
  function PausedKeys(peers: map<Peer, Counts>, views: seq<View>): seq<nat>
  {
    if views == [] then []
    else
      var last := views[|views| - 1];
      PausedKeys(peers, views[..|views| - 1]) + if IsPaused(peers, last) then [last.key] else []
  }

  // The peers after one round. A round that could not read the handshakes says nothing about anyone.
  function Probed(peers: map<Peer, Counts>, watched: set<Peer>, online: Option<set<Peer>>, toPause: nat, toResume: nat): map<Peer, Counts>
  {
    var kept := map p | p in peers && p in watched :: peers[p];
    if online == None then kept
    else map p | p in watched :: Observed(if p in kept then kept[p] else FRESH, p in online.value, toPause, toResume)
  }

  // What publish reports: the routes new in the set, then those that left it.
  function NewIn(prev: seq<nat>, next: seq<nat>): seq<Event>
  {
    if next == [] then []
    else
      var last := next[|next| - 1];
      NewIn(prev, next[..|next| - 1]) + if last in prev then [] else [Paused(last)]
  }

  function GoneFrom(prev: seq<nat>, next: seq<nat>): seq<Event>
  {
    if prev == [] then []
    else
      var last := prev[|prev| - 1];
      GoneFrom(prev[..|prev| - 1], next) + if last in next then [] else [Resumed(last)]
  }

  // The events of one route.
  function OfKey(es: seq<Event>, key: nat): seq<Event>
  {
    if es == [] then []
    else OfKey(es[..|es| - 1], key) + if es[|es| - 1].key == key then [es[|es| - 1]] else []
  }

  // Paused, resumed, paused, ... ending as the route is now.
  predicate Alternate(es: seq<Event>, paused: bool)
  {
    && (forall i | 0 <= i < |es| :: es[i].Paused? <==> i % 2 == 0)
    && (paused <==> |es| % 2 == 1)
  }

  predicate Distinct(keys: seq<nat>)
  {
    forall i, j | 0 <= i < j < |keys| :: keys[i] != keys[j]
  }

  lemma {:induction false} OfKeyConcat(a: seq<Event>, b: seq<Event>, key: nat)
    ensures OfKey(a + b, key) == OfKey(a, key) + OfKey(b, key)
    decreases |b|
  {
    if b == [] {
      assert a + b == a;
    } else {
      assert (a + b)[..|a + b| - 1] == a + b[..|b| - 1];
      OfKeyConcat(a, b[..|b| - 1], key);
    }
  }

  lemma {:induction false} NewOfKey(prev: seq<nat>, next: seq<nat>, key: nat)
    requires Distinct(next)
    ensures OfKey(NewIn(prev, next), key) == if key in next && key !in prev then [Paused(key)] else []
  {
    if next != [] {
      var before, last := next[..|next| - 1], next[|next| - 1];
      NewOfKey(prev, before, key);
      var more := if last in prev then [] else [Paused(last)];
      OfKeyConcat(NewIn(prev, before), more, key);
      OneOfKey(more, key);
    }
  }

  lemma OneOfKey(es: seq<Event>, key: nat)
    requires |es| <= 1
    ensures OfKey(es, key) == if es != [] && es[0].key == key then es else []
  {
    if es != [] {
      assert es[..0] == [];
    }
  }

  lemma {:induction false} GoneOfKey(prev: seq<nat>, next: seq<nat>, key: nat)
    requires Distinct(prev)
    ensures OfKey(GoneFrom(prev, next), key) == if key in prev && key !in next then [Resumed(key)] else []
  {
    if prev != [] {
      var before, last := prev[..|prev| - 1], prev[|prev| - 1];
      GoneOfKey(before, next, key);
      var more := if last in next then [] else [Resumed(last)];
      OfKeyConcat(GoneFrom(before, next), more, key);
      OneOfKey(more, key);
    }
  }

  ghost predicate AllAlternate(es: seq<Event>, keys: seq<nat>)
  {
    forall key :: Alternate(OfKey(es, key), key in keys)
  }

  lemma KeyAlternates(before: seq<Event>, prev: seq<nat>, next: seq<nat>, key: nat)
    requires Distinct(prev) && Distinct(next) && Alternate(OfKey(before, key), key in prev)
    ensures Alternate(OfKey(before + NewIn(prev, next) + GoneFrom(prev, next), key), key in next)
  {
    var was := OfKey(before, key);
    NewOfKey(prev, next, key);
    GoneOfKey(prev, next, key);
    OfKeyConcat(before, NewIn(prev, next), key);
    OfKeyConcat(before + NewIn(prev, next), GoneFrom(prev, next), key);
    if key in prev && key !in next {
      AlternateNext(was, Resumed(key));
      assert was + [] + [Resumed(key)] == was + [Resumed(key)];
    } else if key !in prev && key in next {
      AlternateNext(was, Paused(key));
      assert was + [Paused(key)] + [] == was + [Paused(key)];
    } else {
      assert was + [] + [] == was;
    }
  }

  lemma AlternateNext(was: seq<Event>, e: Event)
    requires Alternate(was, !e.Paused?)
    ensures Alternate(was + [e], e.Paused?)
  {
  }

  lemma PublishAlternates(before: seq<Event>, prev: seq<nat>, next: seq<nat>)
    requires Distinct(prev) && Distinct(next) && AllAlternate(before, prev)
    ensures AllAlternate(before + NewIn(prev, next) + GoneFrom(prev, next), next)
  {
    forall key ensures Alternate(OfKey(before + NewIn(prev, next) + GoneFrom(prev, next), key), key in next) {
      KeyAlternates(before, prev, next, key);
    }
  }

  /** Loop. Routes with a key of their own report paused and resumed in turn. */
  class Loop {
    var peers: map<Peer, Counts>
    var paused: seq<nat>
    var emitted: seq<Event>

    ghost predicate Valid()
      reads this
    {
      Distinct(paused) && AllAlternate(emitted, paused)
    }

    constructor ()
      ensures Valid() && peers == map[] && paused == [] && emitted == []
    {
      peers, paused, emitted := map[], [], [];
    }

    /** publish. */
    method Publish(next: seq<nat>)
      requires Valid() && Distinct(next)
      modifies `paused, `emitted
      ensures Valid() && paused == next
      ensures emitted == old(emitted) + NewIn(old(paused), next) + GoneFrom(old(paused), next)
    {
      var prev := paused;
      ghost var before := emitted;
      for i := 0 to |next|
        invariant emitted == before + NewIn(prev, next[..i])
      {
        assert next[..i + 1][..i] == next[..i];
        if next[i] !in prev {
          emitted := emitted + [Paused(next[i])];
        }
      }
      assert next[..|next|] == next;
      ghost var middle := emitted;
      for i := 0 to |prev|
        invariant emitted == middle + GoneFrom(prev[..i], next)
      {
        assert prev[..i + 1][..i] == prev[..i];
        if prev[i] !in next {
          emitted := emitted + [Resumed(prev[i])];
        }
      }
      assert prev[..|prev|] == prev;
      paused := next;
      PublishAlternates(before, prev, next);
    }

    /** derivePaused. */
    method DerivePaused(views: seq<View>) returns (out: seq<nat>)
      ensures out == PausedKeys(peers, views)
    {
      out := [];
      for i := 0 to |views|
        invariant out == PausedKeys(peers, views[..i])
      {
        assert views[..i + 1][..i] == views[..i];
        if IsPaused(peers, views[i]) {
          out := out + [views[i].key];
        }
      }
      assert views[..|views|] == views;
    }

    // The part of Tick that goes over the peers.
    method Probe(watched: set<Peer>, online: Option<set<Peer>>, toPause: nat, toResume: nat)
      modifies `peers
      ensures peers == Probed(old(peers), watched, online, toPause, toResume)
    {
      peers := map p | p in peers && p in watched :: peers[p];
      if online == None {
        return;
      }
      ghost var kept := peers;
      var left := watched;
      while left != {}
        invariant left <= watched
        invariant forall p :: p in peers <==> p in kept || (p in watched && p !in left)
        invariant forall p | p in kept && p in left :: peers[p] == kept[p]
        invariant forall p | p in watched && p !in left ::
                    p in peers && peers[p] == Observed(if p in kept then kept[p] else FRESH, p in online.value, toPause, toResume)
      {
        var p :| p in left;
        left := left - {p};
        var h := if p in peers then peers[p] else FRESH;
        peers := peers[p := Observed(h, p in online.value, toPause, toResume)];
      }
    }

    /** Tick, for a config whose routes are views: what it publishes is what the peers' states say. */
    method Tick(views: seq<View>, online: Option<set<Peer>>, toPause: nat, toResume: nat)
      requires Valid()
      requires forall i, j | 0 <= i < j < |views| && views[i].watch && views[j].watch :: views[i].key != views[j].key
      modifies this
      ensures Valid()
      ensures peers == Probed(old(peers), Watched(views), online, toPause, toResume)
      ensures paused == PausedKeys(peers, views)
    {
      Probe(Watched(views), online, toPause, toResume);
      var next := DerivePaused(views);
      KeysDistinct(peers, views);
      Publish(next);
    }
  }

  lemma {:induction false} KeysDistinct(peers: map<Peer, Counts>, views: seq<View>)
    requires forall i, j | 0 <= i < j < |views| && views[i].watch && views[j].watch :: views[i].key != views[j].key
    ensures Distinct(PausedKeys(peers, views))
    ensures forall k | k in PausedKeys(peers, views) :: exists i | 0 <= i < |views| :: views[i].watch && views[i].key == k
  {
    if views != [] {
      var before := views[..|views| - 1];
      KeysDistinct(peers, before);
      forall k | k in PausedKeys(peers, before) ensures exists i | 0 <= i < |views| - 1 :: views[i].watch && views[i].key == k {
        var i :| 0 <= i < |before| && before[i].watch && before[i].key == k;
        assert views[i].key == k;
      }
      var last := views[|views| - 1];
      assert last.watch ==> forall i | 0 <= i < |before| && before[i].watch :: before[i].key != last.key;
      assert last.watch ==> last.key !in PausedKeys(peers, before);
    }
  }

  // ---- Whole runs of ticks ----

  datatype Round = Round(watched: set<Peer>, online: Option<set<Peer>>)

  function PeersAfter(rounds: seq<Round>, toPause: nat, toResume: nat): map<Peer, Counts>
  {
    if rounds == [] then map[]
    else
      var r := rounds[|rounds| - 1];
      Probed(PeersAfter(rounds[..|rounds| - 1], toPause, toResume), r.watched, r.online, toPause, toResume)
  }

  // The probes that count for p: those since it was last not watched, skipping rounds that could not read.
  function ProbesOf(rounds: seq<Round>, p: Peer): seq<bool>
  {
    if rounds == [] then []
    else
      var before, r := ProbesOf(rounds[..|rounds| - 1], p), rounds[|rounds| - 1];
      if p !in r.watched then []
      else if r.online == None then before
      else before + [p in r.online.value]
  }

  /** Over any run of rounds a peer is held paused exactly when, since it was last not watched, it completed a run of
      failures and no run of successes after it. */
  lemma {:induction false} PeerPausedIffRun(rounds: seq<Round>, p: Peer, toPause: nat, toResume: nat)
    requires toPause >= 1 && toResume >= 1
    ensures var peers := PeersAfter(rounds, toPause, toResume);
            p in peers && peers[p].paused <==> ShouldBePaused(ProbesOf(rounds, p), toPause, toResume)
  {
    PeerState(rounds, p, toPause, toResume);
    PausedIffRun(ProbesOf(rounds, p), toPause, toResume);
  }

  lemma {:induction false} PeerState(rounds: seq<Round>, p: Peer, toPause: nat, toResume: nat)
    ensures var peers := PeersAfter(rounds, toPause, toResume);
            (if p in peers then peers[p] else FRESH) == After(ProbesOf(rounds, p), toPause, toResume)
  {
    if rounds != [] {
      var before, r := rounds[..|rounds| - 1], rounds[|rounds| - 1];
      PeerState(before, p, toPause, toResume);
      if p in r.watched && r.online.Some? {
        var probes := ProbesOf(before, p) + [p in r.online.value];
        assert probes[..|probes| - 1] == ProbesOf(before, p);
      }
    }
  }

  // ---- Which routes that pauses ----

  /** The peers probed are those some active route with the setting on targets. */
  lemma WatchedAre(views: seq<View>, p: Peer)
    ensures p in Watched(views) <==> exists i | 0 <= i < |views| :: views[i].watch && views[i].peer == Some(p)
  {
    if p in Watched(views) {
      var i :| 0 <= i < |views| && views[i].watch && views[i].peer.Some? && views[i].peer.value == p;
      assert views[i].peer == Some(p);
    }
  }

  // Route i is watched, and its peer is held paused.
  predicate HeldPaused(peers: map<Peer, Counts>, views: seq<View>, i: nat)
    requires i < |views|
  {
    views[i].watch && match views[i].peer { case None => false case Some(p) => p in peers && peers[p].paused }
  }

  /** The paused keys are those of exactly these routes, each once and in config order. */
  lemma {:induction false} PausedKeysAre(peers: map<Peer, Counts>, views: seq<View>) returns (at: seq<nat>)
    ensures |at| == |PausedKeys(peers, views)| && (forall j, k | 0 <= j < k < |at| :: at[j] < at[k])
    ensures forall j | 0 <= j < |at| :: at[j] < |views| && PausedKeys(peers, views)[j] == views[at[j]].key
    ensures forall i: nat | i < |views| :: i in at <==> HeldPaused(peers, views, i)
  {
    if views == [] {
      at := [];
    } else {
      var last := |views| - 1;
      var front := PausedKeysAre(peers, views[..last]);
      at := front + if IsPaused(peers, views[last]) then [last] else [];
      forall i: nat | i < |views| ensures i in at <==> HeldPaused(peers, views, i) {
        if i < last {
          assert HeldPaused(peers, views[..last], i) <==> HeldPaused(peers, views, i);
        }
      }
    }
  }

  predicate KeysApart(views: seq<View>)
  {
    forall i, j | 0 <= i < j < |views| && views[i].watch && views[j].watch :: views[i].key != views[j].key
  }

  /** So over any run of rounds, the routes paused for a config are the watched ones whose peer should be. */
  lemma RoutePausedIffRun(rounds: seq<Round>, views: seq<View>, i: nat, toPause: nat, toResume: nat)
    requires toPause >= 1 && toResume >= 1 && i < |views| && views[i].watch && KeysApart(views)
    ensures views[i].key in PausedKeys(PeersAfter(rounds, toPause, toResume), views) <==>
            views[i].peer.Some? && ShouldBePaused(ProbesOf(rounds, views[i].peer.value), toPause, toResume)
  {
    var peers := PeersAfter(rounds, toPause, toResume);
    var keys := PausedKeys(peers, views);
    var at := PausedKeysAre(peers, views);
    if views[i].peer.Some? {
      PeerPausedIffRun(rounds, views[i].peer.value, toPause, toResume);
    }
    if HeldPaused(peers, views, i) {
      var j :| 0 <= j < |at| && at[j] == i;
      assert keys[j] == views[i].key;
    }
    if views[i].key in keys {
      var j :| 0 <= j < |keys| && keys[j] == views[i].key;
      assert at[j] in at && HeldPaused(peers, views, at[j]);
      assert at[j] == i;
    }
  }
}

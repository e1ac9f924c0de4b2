/** The sliding-window limiter: it forgets old grants as it goes, and still refuses exactly as if it had kept them all. */
module Limiter {
  import opened Common

  type Time = int
  type Key = nat

  // What the limiter holds: the grants of each key that may still count, and those of all keys when there is a global limit.
  datatype Held = Held(perKey: map<Key, seq<Time>>, all: seq<Time>)

  datatype Limits = Limits(perKeyMax: int, globalMax: int, window: nat)

  // pruneOld: drops from the front what lies before the cut.
  function DropOld(ts: seq<Time>, cut: Time): seq<Time>
  {
    if ts != [] && ts[0] < cut then DropOld(ts[1..], cut) else ts
  }

  function Times(perKey: map<Key, seq<Time>>, key: Key): seq<Time>
  {
    if key in perKey then perKey[key] else []
  }

  function PruneAll(perKey: map<Key, seq<Time>>, cut: Time): map<Key, seq<Time>>
  {
    map k | k in perKey && DropOld(perKey[k], cut) != [] :: DropOld(perKey[k], cut)
  }

  // The limiter as it is when it decides about a call at now.
  function Ready(s: Held, l: Limits, now: Time): Held
  {
    Held(PruneAll(s.perKey, now - l.window), if l.globalMax > 0 then DropOld(s.all, now - l.window) else s.all)
  }

  predicate Room(s: Held, key: Key, l: Limits)
  {
    |Times(s.perKey, key)| < l.perKeyMax && (l.globalMax > 0 ==> |s.all| < l.globalMax)
  }

  function Granted(s: Held, key: Key, l: Limits, now: Time): Held
  {
    Held(s.perKey[key := Times(s.perKey, key) + [now]], if l.globalMax > 0 then s.all + [now] else s.all)
  }

  // One call of allow.
  function Called(s: Held, key: Key, l: Limits, now: Time): Held
  {
    var r := Ready(s, l, now);
    if Room(r, key, l) then Granted(r, key, l, now) else r
  }

  lemma {:induction false} DropOldTwice(ts: seq<Time>, cut: Time)
    ensures DropOld(DropOld(ts, cut), cut) == DropOld(ts, cut)
  {
    if ts != [] && ts[0] < cut {
      DropOldTwice(ts[1..], cut);
    }
  }

  /** slidingLimiter. */
  class SlidingLimiter {
    var perKey: map<Key, seq<Time>>
    var all: seq<Time>

    ghost function State(): Held
      reads this
    {
      Held(perKey, all)
    }

    constructor ()
      ensures State() == Held(map[], [])
    {
      perKey, all := map[], [];
    }

    static method PruneOld(ts: seq<Time>, cut: Time) returns (r: seq<Time>)
      ensures r == DropOld(ts, cut)
    {
      var i := 0;
      while i < |ts| && ts[i] < cut
        invariant 0 <= i <= |ts| && DropOld(ts, cut) == DropOld(ts[i..], cut)
      {
        assert ts[i..][1..] == ts[i + 1..];
        i := i + 1;
      }
      r := ts[i..];
    }

    // Prunes every key, and deletes those left with nothing.
    method PruneKeys(cut: Time)
      modifies `perKey
      ensures perKey == PruneAll(old(perKey), cut)
    {
      ghost var before := perKey;
      var left := perKey.Keys;
      while left != {}
        invariant left <= before.Keys
        invariant forall k :: k in perKey <==> k in left || (k in before && DropOld(before[k], cut) != [])
        invariant forall k | k in perKey :: perKey[k] == if k in left then before[k] else DropOld(before[k], cut)
        decreases |left|
      {
        var k :| k in left;
        left := left - {k};
        var v := PruneOld(perKey[k], cut);
        if v == [] {
          perKey := map m | m in perKey && m != k :: perKey[m];
        } else {
          perKey := perKey[k := v];
        }
      }
    }

    /** allow. */
    method Allow(key: Key, l: Limits, now: Time) returns (ok: bool)
      modifies this
      ensures State() == Called(old(State()), key, l, now)
      ensures ok == Room(Ready(old(State()), l, now), key, l)
    {
      var cut := now - l.window;
      if l.globalMax > 0 {
        all := PruneOld(all, cut);
      }
      PruneKeys(cut);
      var held := if key in perKey then perKey[key] else [];
      if key in perKey {
        DropOldTwice(old(perKey[key]), cut);
      }
      held := PruneOld(held, cut);
      if |held| >= l.perKeyMax {
        return false;
      }
      if l.globalMax > 0 && |all| >= l.globalMax {
        return false;
      }
      perKey := perKey[key := held + [now]];
      if l.globalMax > 0 {
        all := all + [now];
      }
      ok := true;
    }
  }

  // ---- The whole history ----

  datatype Grant = Grant(key: Key, at: Time)

  datatype Call = Call(key: Key, at: Time)

  // How many grants fall in the closed window; of one key, or of all.
  function Count(gs: seq<Grant>, key: Option<Key>, first: Time, last: Time): nat
  {
    if gs == [] then 0
    else
      var g := gs[|gs| - 1];
      Count(gs[..|gs| - 1], key, first, last) + if (key == None || key.value == g.key) && first <= g.at <= last then 1 else 0
  }

  /** The rule, were every grant remembered. */
  predicate RuleAllows(gs: seq<Grant>, key: Key, l: Limits, now: Time)
  {
    && Count(gs, Some(key), now - l.window, now) < l.perKeyMax
    && (l.globalMax > 0 ==> Count(gs, None, now - l.window, now) < l.globalMax)
  }

  function GrantsOf(calls: seq<Call>, l: Limits): seq<Grant>
  {
    if calls == [] then []
    else
      var before, c := calls[..|calls| - 1], calls[|calls| - 1];
      GrantsOf(before, l) + if Room(Ready(HeldAfter(before, l), l, c.at), c.key, l) then [Grant(c.key, c.at)] else []
  }

  function HeldAfter(calls: seq<Call>, l: Limits): Held
  {
    if calls == [] then Held(map[], [])
    else
      var c := calls[|calls| - 1];
      Called(HeldAfter(calls[..|calls| - 1], l), c.key, l, c.at)
  }

  predicate ClockGoesOn(calls: seq<Call>)
  {
    forall i, j | 0 <= i < j < |calls| :: calls[i].at <= calls[j].at
  }

  // The times of the grants, of one key or of all, that are not before the cut.
  function Since(gs: seq<Grant>, key: Option<Key>, cut: Time): seq<Time>
  {
    if gs == [] then []
    else
      var g := gs[|gs| - 1];
      Since(gs[..|gs| - 1], key, cut) + if (key == None || key.value == g.key) && g.at >= cut then [g.at] else []
  }

  predicate Sorted(gs: seq<Grant>)
  {
    forall i, j | 0 <= i < j < |gs| :: gs[i].at <= gs[j].at
  }

  predicate Ascending(ts: seq<Time>)
  {
    forall i | 0 < i < |ts| :: ts[i - 1] <= ts[i]
  }

  lemma {:induction false} SinceSorted(gs: seq<Grant>, key: Option<Key>, cut: Time, last: Time)
    requires Sorted(gs) && forall i | 0 <= i < |gs| :: gs[i].at <= last
    ensures Ascending(Since(gs, key, cut)) && forall i | 0 <= i < |Since(gs, key, cut)| :: Since(gs, key, cut)[i] <= last
  {
    if gs != [] {
      var before, g := gs[..|gs| - 1], gs[|gs| - 1];
      forall i | 0 <= i < |before| ensures before[i].at <= g.at {
        assert before[i] == gs[i];
      }
      SinceSorted(before, key, cut, g.at);
    }
  }

  lemma {:induction false} DropOldSnoc(ts: seq<Time>, t: Time, cut: Time)
    requires Ascending(ts) && forall i | 0 <= i < |ts| :: ts[i] <= t
    ensures DropOld(ts + [t], cut) == if t < cut then [] else DropOld(ts, cut) + [t]
  {
    if ts == [] {
      assert ts + [t] == [t] && [t][1..] == [];
    } else {
      assert (ts + [t])[1..] == ts[1..] + [t] && (ts + [t])[0] == ts[0];
      if ts[0] < cut {
        DropOldSnoc(ts[1..], t, cut);
      }
    }
  }

  // A later cut drops what an earlier one left.
  lemma {:induction false} CutAgain(gs: seq<Grant>, key: Option<Key>, earlier: Time, later: Time)
    requires Sorted(gs) && earlier <= later
    ensures DropOld(Since(gs, key, earlier), later) == Since(gs, key, later)
  {
    if gs != [] {
      var before, g := gs[..|gs| - 1], gs[|gs| - 1];
      CutAgain(before, key, earlier, later);
      var ts := Since(before, key, earlier);
      forall i | 0 <= i < |before| ensures before[i].at <= g.at {
        assert before[i] == gs[i];
      }
      SinceSorted(before, key, earlier, g.at);
      assert ts + [] == ts && Since(before, key, later) + [] == Since(before, key, later);
      if (key == None || key.value == g.key) && g.at >= earlier {
        DropOldSnoc(ts, g.at, later);
        if g.at < later {
          NoneSince(before, key, later, g.at);
        }
      }
    }
  }

  lemma {:induction false} NoneSince(gs: seq<Grant>, key: Option<Key>, cut: Time, last: Time)
    requires last < cut && forall i | 0 <= i < |gs| :: gs[i].at <= last
    ensures Since(gs, key, cut) == []
  {
    if gs != [] {
      NoneSince(gs[..|gs| - 1], key, cut, last);
    }
  }

  lemma {:induction false} CountIsSince(gs: seq<Grant>, key: Option<Key>, cut: Time, now: Time)
    requires forall i | 0 <= i < |gs| :: gs[i].at <= now
    ensures Count(gs, key, cut, now) == |Since(gs, key, cut)|
  {
    if gs != [] {
      CountIsSince(gs[..|gs| - 1], key, cut, now);
    }
  }

  // What is held after the calls: exactly the grants since the last cut.
  ghost predicate Remembers(s: Held, gs: seq<Grant>, l: Limits, cut: Time)
  {
    && (forall k :: Times(s.perKey, k) == Since(gs, Some(k), cut))
    && (l.globalMax > 0 ==> s.all == Since(gs, None, cut))
  }

  lemma PruneTimes(perKey: map<Key, seq<Time>>, cut: Time, key: Key)
    ensures Times(PruneAll(perKey, cut), key) == DropOld(Times(perKey, key), cut)
  {
  }

  lemma KeyRemembers(perKey: map<Key, seq<Time>>, gs: seq<Grant>, earlier: Time, later: Time, key: Key)
    requires Sorted(gs) && earlier <= later && Times(perKey, key) == Since(gs, Some(key), earlier)
    ensures Times(PruneAll(perKey, later), key) == Since(gs, Some(key), later)
  {
    CutAgain(gs, Some(key), earlier, later);
    PruneTimes(perKey, later, key);
  }

  lemma ReadyRemembers(s: Held, gs: seq<Grant>, l: Limits, cut: Time, now: Time)
    requires Sorted(gs) && Remembers(s, gs, l, cut) && cut <= now - l.window
    ensures Remembers(Ready(s, l, now), gs, l, now - l.window)
  {
    forall k ensures Times(PruneAll(s.perKey, now - l.window), k) == Since(gs, Some(k), now - l.window) {
      KeyRemembers(s.perKey, gs, cut, now - l.window, k);
    }
    CutAgain(gs, None, cut, now - l.window);
  }

  lemma GrantRemembers(s: Held, gs: seq<Grant>, key: Key, l: Limits, now: Time)
    requires Remembers(s, gs, l, now - l.window)
    ensures Remembers(Granted(s, key, l, now), gs + [Grant(key, now)], l, now - l.window)
  {
    var more := gs + [Grant(key, now)];
    assert more[..|more| - 1] == gs;
    forall k ensures Times(Granted(s, key, l, now).perKey, k) == Since(more, Some(k), now - l.window) {
      assert Times(s.perKey, k) == Since(gs, Some(k), now - l.window);
    }
  }

  // The state and the history after the calls, ready to decide at now.
  ghost predicate UpToDate(s: Held, gs: seq<Grant>, l: Limits, now: Time)
  {
    && Sorted(gs)
    && (forall i | 0 <= i < |gs| :: gs[i].at <= now)
    && exists cut | cut <= now - l.window :: Remembers(s, gs, l, cut)
  }

  lemma ReadyDecides(s: Held, gs: seq<Grant>, l: Limits, key: Key, now: Time)
    requires UpToDate(s, gs, l, now)
    ensures Remembers(Ready(s, l, now), gs, l, now - l.window)
    ensures Room(Ready(s, l, now), key, l) <==> RuleAllows(gs, key, l, now)
  {
    var cut :| cut <= now - l.window && Remembers(s, gs, l, cut);
    ReadyRemembers(s, gs, l, cut, now);
    assert Times(Ready(s, l, now).perKey, key) == Since(gs, Some(key), now - l.window);
    CountIsSince(gs, Some(key), now - l.window, now);
    CountIsSince(gs, None, now - l.window, now);
  }

  lemma StillUpToDate(s: Held, gs: seq<Grant>, l: Limits, now: Time, later: Time)
    requires Sorted(gs) && (forall i | 0 <= i < |gs| :: gs[i].at <= now) && Remembers(s, gs, l, now - l.window) && now <= later
    ensures UpToDate(s, gs, l, later)
  {
    var cut := now - l.window;
    assert cut <= later - l.window;
  }

  lemma CallKeepsUpToDate(s: Held, gs: seq<Grant>, l: Limits, key: Key, now: Time, later: Time)
    requires UpToDate(s, gs, l, now) && now <= later
    ensures UpToDate(Called(s, key, l, now), gs + if Room(Ready(s, l, now), key, l) then [Grant(key, now)] else [], l, later)
  {
    var r := Ready(s, l, now);
    ReadyDecides(s, gs, l, key, now);
    if Room(r, key, l) {
      GrantRemembers(r, gs, key, l, now);
      StillUpToDate(Granted(r, key, l, now), gs + [Grant(key, now)], l, now, later);
    } else {
      assert gs + [] == gs;
      StillUpToDate(r, gs, l, now, later);
    }
  }

  lemma ClockBefore(calls: seq<Call>, next: Call)
    requires ClockGoesOn(calls + [next])
    ensures ClockGoesOn(calls) && (calls != [] ==> calls[|calls| - 1].at <= next.at)
  {
    var all := calls + [next];
    assert forall i | 0 <= i < |calls| :: all[i] == calls[i];
    if calls != [] {
      assert all[|calls| - 1].at <= all[|calls|].at;
    }
  }

  lemma {:induction false} HeldIsUpToDate(calls: seq<Call>, l: Limits, now: Time)
    requires ClockGoesOn(calls) && (calls != [] ==> calls[|calls| - 1].at <= now)
    ensures UpToDate(HeldAfter(calls, l), GrantsOf(calls, l), l, now)
  {
    if calls == [] {
      NothingHeld(l, now - l.window);
    } else {
      var before, c := calls[..|calls| - 1], calls[|calls| - 1];
      assert calls == before + [c];
      ClockBefore(before, c);
      HeldIsUpToDate(before, l, c.at);
      CallKeepsUpToDate(HeldAfter(before, l), GrantsOf(before, l), l, c.key, c.at, now);
    }
  }

  lemma NothingHeld(l: Limits, cut: Time)
    ensures Remembers(Held(map[], []), [], l, cut)
  {
  }

  /** With a clock that does not go back and fixed limits, after any calls the next one is refused exactly when the
      full history would refuse it. */
  lemma RefinesFullHistory(calls: seq<Call>, next: Call, l: Limits)
    requires ClockGoesOn(calls + [next])
    ensures Room(Ready(HeldAfter(calls, l), l, next.at), next.key, l) <==> RuleAllows(GrantsOf(calls, l), next.key, l, next.at)
  {
    ClockBefore(calls, next);
    HeldIsUpToDate(calls, l, next.at);
    ReadyDecides(HeldAfter(calls, l), GrantsOf(calls, l), l, next.key, next.at);
  }

  lemma {:induction false} CountWider(gs: seq<Grant>, key: Option<Key>, a: Time, b: Time, c: Time, d: Time)
    requires c <= a && b <= d
    ensures Count(gs, key, a, b) <= Count(gs, key, c, d)
  {
    if gs != [] {
      CountWider(gs[..|gs| - 1], key, a, b, c, d);
    }
  }

  /** No closed window of the limiter's length, anywhere in time, holds more grants than allowed: of a key, and, with a
      global limit, of all keys. */
  lemma {:induction false} NoWindowOverflows(calls: seq<Call>, l: Limits, key: Key, first: Time)
    requires ClockGoesOn(calls)
    ensures Count(GrantsOf(calls, l), Some(key), first, first + l.window) <= (if l.perKeyMax > 0 then l.perKeyMax else 0)
    ensures l.globalMax > 0 ==> Count(GrantsOf(calls, l), None, first, first + l.window) <= l.globalMax
  {
    if calls != [] {
      var before, c := calls[..|calls| - 1], calls[|calls| - 1];
      assert calls == before + [c];
      ClockBefore(before, c);
      NoWindowOverflows(before, l, key, first);
      RefinesFullHistory(before, c, l);
      HeldIsUpToDate(before, l, c.at);
      var gs := GrantsOf(before, l);
      assert gs + [] == gs;
      if RuleAllows(gs, c.key, l, c.at) {
        OneMoreFits(gs, c, key, first, l);
        assert GrantsOf(calls, l) == gs + [Grant(c.key, c.at)];
      } else {
        assert GrantsOf(calls, l) == gs;
      }
    }
  }

  ghost predicate WithinLimits(gs: seq<Grant>, key: Key, first: Time, l: Limits)
  {
    && Count(gs, Some(key), first, first + l.window) <= (if l.perKeyMax > 0 then l.perKeyMax else 0)
    && (l.globalMax > 0 ==> Count(gs, None, first, first + l.window) <= l.globalMax)
  }

  lemma OneMoreFits(gs: seq<Grant>, c: Call, key: Key, first: Time, l: Limits)
    requires WithinLimits(gs, key, first, l) && RuleAllows(gs, c.key, l, c.at) && forall i | 0 <= i < |gs| :: gs[i].at <= c.at
    ensures WithinLimits(gs + [Grant(c.key, c.at)], key, first, l)
  {
    LastGrant(gs, Grant(c.key, c.at), key, first, l);
  }

  // One more grant in the window was within the limits at its own time.
  lemma LastGrant(gs: seq<Grant>, g: Grant, key: Key, first: Time, l: Limits)
    ensures var more, last := gs + [g], first + l.window;
            && (Count(more, Some(key), first, last) ==
                Count(gs, Some(key), first, last) + if key == g.key && first <= g.at <= last then 1 else 0)
            && (Count(more, None, first, last) == Count(gs, None, first, last) + if first <= g.at <= last then 1 else 0)
    ensures first <= g.at <= first + l.window && (forall i | 0 <= i < |gs| :: gs[i].at <= g.at) ==>
              && Count(gs, Some(key), first, first + l.window) <= Count(gs, Some(key), g.at - l.window, g.at)
              && Count(gs, None, first, first + l.window) <= Count(gs, None, g.at - l.window, g.at)
  {
    assert (gs + [g])[..|gs|] == gs;
    if first <= g.at <= first + l.window && (forall i | 0 <= i < |gs| :: gs[i].at <= g.at) {
      CountUpTo(gs, Some(key), first, first + l.window, g.at);
      CountUpTo(gs, None, first, first + l.window, g.at);
      CountWider(gs, Some(key), first, g.at, g.at - l.window, g.at);
      CountWider(gs, None, first, g.at, g.at - l.window, g.at);
    }
  }

  lemma {:induction false} CountUpTo(gs: seq<Grant>, key: Option<Key>, first: Time, last: Time, now: Time)
    requires now <= last && forall i | 0 <= i < |gs| :: gs[i].at <= now
    ensures Count(gs, key, first, last) == Count(gs, key, first, now)
  {
    if gs != [] {
      CountUpTo(gs[..|gs| - 1], key, first, last, now);
    }
  }
}

/** Pausing routes rewrites the prerouting chain and nothing else. */
module FirewallPaused {
  import opened Common
  import opened Ports
  import opened Sorting
  import opened Routes
  import opened Nft
  import opened Firewall

  // ---- Pausing, said of rules ----

  // A rule that would send traffic of a route in paused on drops it instead.
  function PauseRule(r: Rule, paused: set<nat>): Rule
  {
    if r.verdict.Dnat? && r.route.Some? && r.route.value in paused then r.(verdict := Pause) else r
  }

  function PauseAll(rules: seq<Rule>, paused: set<nat>): seq<Rule>
  {
    seq(|rules|, i requires 0 <= i < |rules| => PauseRule(rules[i], paused))
  }

  lemma PauseConcat(a: seq<Rule>, b: seq<Rule>, paused: set<nat>)
    ensures PauseAll(a + b, paused) == PauseAll(a, paused) + PauseAll(b, paused)
  {
  }

  lemma PreroutingPauses(q: Policy, e: Entry, addr: Addr, to: Option<Plain>, paused: set<nat>)
    ensures PauseAll(PreroutingRules(q, e, Dnat(addr, to)), paused) ==
            PreroutingRules(q, e, if q.route in paused then Pause else Dnat(addr, to))
  {
  }

  lemma {:induction false} LinesPause(q: Policy, lines: seq<Line>, paused: set<nat>)
    ensures PauseAll(AllLineRules(q, lines, false), paused) == AllLineRules(q, lines, q.route in paused)
  {
    if lines != [] {
      var before, last := lines[..|lines| - 1], lines[|lines| - 1];
      LinesPause(q, before, paused);
      PreroutingPauses(q, last.public, q.target, last.to, paused);
      PauseConcat(AllLineRules(q, before, false), LineRules(q, last, false), paused);
    }
  }

  /** An update for a paused set is the full chain with each of those routes' DNATs turned into a drop, rule for rule. */
  lemma {:induction false} UpdateIsPaused(qs: seq<Policy>, paused: set<nat>)
    ensures NatRules(qs, paused) == PauseAll(NatRules(qs, {}), paused)
  {
    if qs != [] {
      var q := qs[|qs| - 1];
      UpdateIsPaused(qs[..|qs| - 1], paused);
      LinesPause(q, q.lines, paused);
      PauseConcat(NatRules(qs[..|qs| - 1], {}), AllLineRules(q, q.lines, false), paused);
    }
  }

  lemma {:induction false} PausedHit(rules: seq<Rule>, paused: set<nat>, t: Table, p: Packet)
    ensures Hit(PauseAll(rules, paused), t, p) ==
            match Hit(rules, t, p) { case None => None case Some(r) => Some(PauseRule(r, paused)) }
  {
    if rules != [] {
      assert PauseAll(rules, paused)[1..] == PauseAll(rules[1..], paused);
      PausedHit(rules[1..], paused, t, p);
    }
  }

  /** Pausing is exact: for every packet and every paused set, the update decides as the full chain does, except that
      a DNAT of a paused route is a drop. */
  lemma PausingIsExact(qs: seq<Policy>, paused: set<nat>, t: Table, p: Packet)
    ensures var was, now := Hit(NatRules(qs, {}), t, p), Hit(NatRules(qs, paused), t, p);
            match was {
              case None => now == None
              case Some(r) =>
                if r.verdict.Dnat? && r.route.Some? && r.route.value in paused then now == Some(r.(verdict := Pause)) else now == was
            }
  {
    UpdateIsPaused(qs, paused);
    PausedHit(NatRules(qs, {}), paused, t, p);
  }

  // ---- Markers ----

  function Markers(rules: seq<Rule>): set<nat>
  {
    set i | 0 <= i < |rules| && rules[i].verdict.Pause? && rules[i].route.Some? :: rules[i].route.value
  }

  // Every DNAT says whose it is, and the full chain has no markers.
  predicate Signed(rules: seq<Rule>)
  {
    forall i | 0 <= i < |rules| :: (rules[i].verdict.Dnat? ==> rules[i].route.Some?) && !rules[i].verdict.Pause?
  }

  lemma {:induction false} LinesSigned(q: Policy, lines: seq<Line>)
    ensures Signed(AllLineRules(q, lines, false))
  {
    if lines != [] {
      LinesSigned(q, lines[..|lines| - 1]);
      var line := lines[|lines| - 1];
      assert Signed(PreroutingRules(q, line.public, Dnat(q.target, line.to)));
    }
  }

  lemma {:induction false} FullIsSigned(qs: seq<Policy>)
    ensures Signed(NatRules(qs, {}))
  {
    if qs != [] {
      var q := qs[|qs| - 1];
      FullIsSigned(qs[..|qs| - 1]);
      LinesSigned(q, q.lines);
    }
  }

  lemma MarkersOfPaused(rules: seq<Rule>, paused: set<nat>, i: nat)
    requires Signed(rules) && i < |rules| && rules[i].verdict.Dnat?
    ensures rules[i].route.value in Markers(PauseAll(rules, paused)) <==> rules[i].route.value in paused
  {
    var after := PauseAll(rules, paused);
    if rules[i].route.value in paused {
      assert after[i].verdict.Pause? && after[i].route == rules[i].route;
    }
    if rules[i].route.value in Markers(after) {
      var j :| 0 <= j < |after| && after[j].verdict.Pause? && after[j].route == rules[i].route;
      assert after[j] == PauseRule(rules[j], paused);
    }
  }

  /** Two updates of one config are equal if and only if their markers are. */
  lemma MarkersTell(qs: seq<Policy>, a: set<nat>, b: set<nat>)
    ensures NatRules(qs, a) == NatRules(qs, b) <==> Markers(NatRules(qs, a)) == Markers(NatRules(qs, b))
  {
    var full := NatRules(qs, {});
    UpdateIsPaused(qs, a);
    UpdateIsPaused(qs, b);
    FullIsSigned(qs);
    if Markers(NatRules(qs, a)) == Markers(NatRules(qs, b)) {
      forall i | 0 <= i < |full| ensures PauseRule(full[i], a) == PauseRule(full[i], b) {
        if full[i].verdict.Dnat? {
          MarkersOfPaused(full, a, i);
          MarkersOfPaused(full, b, i);
        }
      }
    }
  }

  /** PausedRoutesIn: the marked routes in order, each once. */
  method PausedRoutesIn(rules: seq<Rule>) returns (out: seq<nat>)
    ensures Increasing(out) && forall n :: n in out <==> n in Markers(rules)
  {
    var found: seq<nat> := [];
    for i := 0 to |rules|
      invariant forall n :: n in found <==> n in Markers(rules[..i])
    {
      assert forall k | 0 <= k < i :: rules[..i + 1][k] == rules[..i][k];
      if rules[i].verdict.Pause? && rules[i].route.Some? {
        assert rules[..i + 1][i].route.value in Markers(rules[..i + 1]);
        found := found + [rules[i].route.value];
      }
      assert forall n | n in Markers(rules[..i]) :: n in Markers(rules[..i + 1]) by {
        forall n | n in Markers(rules[..i]) ensures n in Markers(rules[..i + 1]) {
          var k :| 0 <= k < i && rules[..i][k].verdict.Pause? && rules[..i][k].route == Some(n);
          assert rules[..i + 1][k].route.value in Markers(rules[..i + 1]);
        }
      }
    }
    assert rules[..|rules|] == rules;
    var a := new nat[|found|](i requires 0 <= i < |found| => found[i]);
    assert a[..] == found;
    SortInPlace(a);
    SameMembers(found, a[..]);
    out := Compact(a[..]);
  }

  lemma SameMembers(a: seq<nat>, b: seq<nat>)
    requires multiset(a) == multiset(b)
    ensures forall n :: n in a <==> n in b
  {
    forall n ensures n in a <==> n in b {
      assert n in a <==> n in multiset(a);
      assert n in b <==> n in multiset(b);
    }
  }

  // Repeats in a row reduced to one.
  method Compact(s: seq<nat>) returns (out: seq<nat>)
    requires forall i, j | 0 <= i < j < |s| :: s[i] <= s[j]
    ensures Increasing(out) && forall n :: n in out <==> n in s
  {
    out := [];
    for i := 0 to |s|
      invariant Increasing(out) && forall n :: n in out <==> n in s[..i]
      invariant out != [] ==> i > 0 && out[|out| - 1] == s[i - 1]
      invariant out == [] ==> i == 0
    {
      assert s[..i + 1] == s[..i] + [s[i]];
      if out == [] || out[|out| - 1] != s[i] {
        forall k | 0 <= k < |out| ensures out[k] < s[i] {
          assert out[k] <= out[|out| - 1];
        }
        out := out + [s[i]];
      }
    }
    assert s[..|s|] == s;
  }

  // ---- The live chain ----

  datatype Synced = Done | NoConfig | CannotRead | Mismatch | Rejected

  predicate HasPolicies(c: Option<Config>)
  {
    c.Some? && Policies(c.value).Some?
  }

  function UpdateOf(c: Config, paused: set<nat>): seq<Rule>
    requires Policies(c).Some?
  {
    NatRules(Policies(c).value, paused)
  }

  // The live chain, if there is one, marks the routes the update marks; without one the update marks none.
  predicate MarksAlike(chain: Option<seq<Rule>>, update: seq<Rule>)
  {
    Markers(update) == if chain.Some? then Markers(chain.value) else {}
  }

  // Whether nothing has to be put right.
  method Agree(chain: Option<seq<Rule>>, update: seq<Rule>) returns (same: bool)
    ensures same == MarksAlike(chain, update)
  {
    var want := PausedRoutesIn(update);
    if chain == None {
      NothingMarked(update, want);
      return want == [];
    }
    var have := PausedRoutesIn(chain.value);
    SameMarkers(update, chain.value, want, have);
    same := want == have;
  }

  lemma NothingMarked(rules: seq<Rule>, marked: seq<nat>)
    requires forall n :: n in marked <==> n in Markers(rules)
    ensures marked == [] <==> Markers(rules) == {}
  {
    if Markers(rules) == {} {
      NoMembers(marked);
    }
  }

  lemma LeftIsUpdate(c: Config, chain: Option<seq<Rule>>, paused: set<nat>)
    requires Policies(c).Some? && MarksAlike(chain, UpdateOf(c, paused))
    ensures (exists p :: chain == Some(UpdateOf(c, p))) ==> chain == Some(UpdateOf(c, paused))
  {
    if p :| chain == Some(UpdateOf(c, p)) {
      MarkersTell(Policies(c).value, paused, p);
    }
  }

  // The kernel's prerouting chain, and the ruleset file of the last load.
  class Live {
    var chain: Option<seq<Rule>>
    var generated: Option<Ruleset>

    constructor (chain: Option<seq<Rule>>, generated: Option<Ruleset>)
      ensures this.chain == chain && this.generated == generated
    {
      this.chain, this.generated := chain, generated;
    }

    /** SyncPausedRoutes for the applied config c. It succeeds exactly when c has policies and either the chain already
        marks what the update would, or there is a chain, the ruleset of the last load is the one of c, and the update
        loads: only then the chain becomes the update. Each way to fail has its own answer and leaves the chain alone. After
        success a chain that was rendered from c, with whatever routes paused, is the update, also when it was left alone. */
    method Sync(c: Option<Config>, paused: set<nat>, loads: bool) returns (r: Synced)
      modifies `chain
      ensures var ready, same := HasPolicies(c), HasPolicies(c) && MarksAlike(old(chain), UpdateOf(c.value, paused));
              var whole := if c.Some? then Compile(c.value) else None;
              && (r == Done <==> same || (ready && old(chain).Some? && whole.Some? && generated == whole && loads))
              && (r == CannotRead <==> ready && !same && old(chain) == None)
              && (r == NoConfig <==> !ready || (!same && old(chain).Some? && whole == None))
              && (r == Mismatch <==> ready && !same && old(chain).Some? && whole.Some? && generated != whole)
              && (r == Rejected <==> ready && !same && old(chain).Some? && whole.Some? && generated == whole && !loads)
              && chain == if r == Done && !same then Some(UpdateOf(c.value, paused)) else old(chain)
      ensures r == Done && (exists p :: old(chain) == Some(UpdateOf(c.value, p))) ==> chain == Some(UpdateOf(c.value, paused))
    {
      if c == None {
        return NoConfig;
      }
      var qs := RoutePolicies(c.value);
      if qs == None {
        return NoConfig;
      }
      var update := WriteNatPrerouting(qs.value, paused);
      var same := Agree(chain, update);
      if same {
        LeftIsUpdate(c.value, chain, paused);
        return Done;
      }
      if chain == None {
        return CannotRead;
      }
      var full := NFTables(c.value);
      if full == None {
        return NoConfig;
      }
      if generated != full {
        return Mismatch;
      }
      if !loads {
        return Rejected;
      }
      chain := Some(update);
      r := Done;
    }
  }

  // Two lists of markers, in order, are equal exactly when the chains mark the same routes.
  lemma SameMarkers(a: seq<Rule>, b: seq<Rule>, inA: seq<nat>, inB: seq<nat>)
    requires Increasing(inA) && (forall n :: n in inA <==> n in Markers(a))
    requires Increasing(inB) && (forall n :: n in inB <==> n in Markers(b))
    ensures inA == inB <==> Markers(a) == Markers(b)
  {
    if Markers(a) == Markers(b) {
      SameIncreasing(inA, inB);
    }
  }

  lemma {:induction false} SameIncreasing(a: seq<nat>, b: seq<nat>)
    requires Increasing(a) && Increasing(b) && forall n :: n in a <==> n in b
    ensures a == b
    decreases |a|
  {
    if a == [] {
      NoMembers(b);
    } else {
      var last := |a| - 1;
      assert a[last] in b;
      assert b[|b| - 1] in a;
      forall n ensures n in a[..last] <==> n in b[..|b| - 1] {
        InFront(a, n);
        InFront(b, n);
      }
      SameIncreasing(a[..last], b[..|b| - 1]);
    }
  }

  lemma NoMembers(s: seq<nat>)
    requires forall n :: n !in s
    ensures s == []
  {
    var m := multiset(s);
    assert forall n: nat :: n !in m by {
      forall n: nat ensures n !in m {
        assert n in m <==> n in s;
      }
    }
    assert m == multiset{} && |m| == |s|;
  }

  lemma InFront(a: seq<nat>, n: nat)
    requires a != [] && Increasing(a)
    ensures n in a[..|a| - 1] <==> n in a && n != a[|a| - 1]
  {
  }
}

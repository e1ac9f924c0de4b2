/** Runs in which a config.yaml.reverted left over from an earlier revert gets in the way of a later one. */
module ApplyLeftovers {
  import opened Common
  import opened History
  import opened ApplyState
  import opened ApplyPlans
  import opened ApplySafety
  import opened ApplyRuns
  import opened ApplyWorld
  import opened ApplyRollback
  import opened ApplyClaims

  lemma RevertedByHand(s: State)
    requires Inv(s) && s.session.Some? && s.session.value.phase == Active && s.cfg.Some? && s.cfg != s.snap[0]
    ensures var r := DoAll(s, PlanOf(s, Revert, FULL).effects);
            r.session == None && r.hist == s.snap && r.cfg == r.applied == s.snap[0] && r.reverted == s.cfg
  {
    assert PlanOf(s, Revert, FULL) == RollbackPlan(s, s.session.value, Manual, true, FULL.retries);
    RollbackOutcome(s, s.session.value, Manual, true, FULL.retries);
  }

  // c was applied, and an Apply of d was reverted by hand: d is kept as config.yaml.reverted.
  lemma RejectedIsKept(c: Config, d: Config) returns (s: State)
    requires c.valid && d.valid && c != d
    ensures Reached(Some(c), s) && Inv(s) && s.session == None && KnownBaseline(s)
    ensures s.cfg == s.hist[0] == Some(c) && s.reverted == Some(d)
  {
    var s1, es := FirstReload(c, d);
    ReachedIsSafe(Some(c), s1);
    ApplyWholeRun(s1, d);
    var s2 := DoAll(s1, PlanOf(s1, Apply(None), FULL).effects);
    GoesOnWhole(Some(c), s1, Apply(None), FULL);
    RevertedByHand(s2);
    s := DoAll(s2, PlanOf(s2, Revert, FULL).effects);
    GoesOnWhole(Some(c), s2, Revert, FULL);
  }

  // A first Apply that dies when its session is recorded, before it removes what an earlier revert kept.
  lemma ArmCut(s: State)
    requires Inv(s) && s.session == None && KnownBaseline(s)
    ensures var k := 1 + |CopyOut(s.hist, 0)| + 2;
            && k <= |PlanOf(s, Apply(None), FULL).effects|
            && DoAll(s, PlanOf(s, Apply(None), FULL).effects[..k]) == Waiting(WithCopies(s))
  {
    var copies, arm := [ClearDir] + CopyOut(s.hist, 0), RearmEffects(s, NewSession(), None);
    var forget := [RemoveLastRevert, RemoveReverted];
    CopiesRun(s);
    HoldsAfter(s, copies);
    RearmRun(WithCopies(s), None);
    DoAllConcat(s, copies, arm);
    assert ArmPlan(s, None, FULL).effects == copies + arm + forget;
    var all, tail := PlanOf(s, Apply(None), FULL).effects, ApplyTail(DoAll(s, copies + arm + forget), Rearmed(s, SessionOf(s)), FULL).effects;
    assert all == copies + arm + forget + tail;
    Front(copies + arm, forget, tail);
  }

  lemma Front(a: seq<Effect>, b: seq<Effect>, d: seq<Effect>)
    ensures |a| <= |a + b + d| && (a + b + d)[..|a|] == a
  {
  }

  const REFUSED: Env := Env(true, true, Refused, [Full, Full, Full], Live)

  // A re-Apply that fails to load and is taken back.
  lemma RefusedAgain(s: State)
    requires Inv(s) && s.session.Some? && s.session.value.phase == Active && Kept(s).Some?
    ensures var p := ApplyPlan(s, None, REFUSED); p.result == LoadFailed && DoAll(s, p.effects).cfg == Kept(s)
  {
    ArmRun(s, None, REFUSED);
    var s1, x := Armed(s), Rearmed(s, SessionOf(s));
    assert Kept(s1) == Kept(s);
    assert LoadPlan(s1, Trial, Refused) == Plan([], LoadFailed);
    RollbackRun(s1, x, FailedApply, true, REFUSED.retries);
    FailedTail(s1, x, REFUSED);
    DoAllConcat(s, ArmPlan(s, None, REFUSED).effects, ApplyTail(s1, x, REFUSED).effects);
  }

  /** A failed Apply can put another config in the place of config.yaml: after an Apply of d was reverted, one of c dies
      as it starts; the next one fails, and brings back d. */
  lemma FailedApplyBringsBackRejected(c: Config, d: Config) returns (s: State)
    requires c.valid && d.valid && c != d
    ensures Reached(Some(c), s) && s.cfg == Some(c)
    ensures var p := ApplyPlan(s, None, REFUSED); p.result == LoadFailed && DoAll(s, p.effects).cfg == Some(d)
  {
    var s1 := RejectedIsKept(c, d);
    ArmCut(s1);
    GoesOn(Some(c), s1, Apply(None), FULL, 1 + |CopyOut(s1.hist, 0)| + 2);
    s := Waiting(WithCopies(s1));
    RefusedAgain(s);
  }

  /** And the state in which a rollback is not repeatable is reached: the rejected d is saved again and reloaded one way,
      and an Apply of it dies as it starts. */
  lemma StaleCopyIsReached(c: Config, d: Config) returns (s: State)
    requires c.valid && d.valid && c != d
    ensures Reached(Some(c), s) && Inv(s) && s.session.Some? && !NoStaleCopy(s)
  {
    var s1 := RejectedIsKept(c, d);
    SaveRun(s1, d);
    GoesOnWhole(Some(c), s1, Save(d), FULL);
    var s2 := s1.(cfg := Some(d));
    ReloadRun(s2, d);
    GoesOnWhole(Some(c), s2, Reload(None), FULL);
    var s3 := Loaded(s2, OneWay, d);
    RecordWhole(s2.hist, d);
    ArmCut(s3);
    GoesOn(Some(c), s3, Apply(None), FULL, 1 + |CopyOut(s3.hist, 0)| + 2);
    s := Waiting(WithCopies(s3));
  }
}

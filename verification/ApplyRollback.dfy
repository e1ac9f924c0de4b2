/** Rollbacks cut off anywhere, then finished. */
module ApplyRollback {
  import opened Common
  import opened History
  import opened ApplyState
  import opened ApplyPlans
  import opened ApplySafety
  import opened ApplyRuns

  // Everything a rollback settles: config.yaml, the kept rejected config, the records, and the host with its geo sets.
  datatype Final = Final(cfg: Option<Config>, reverted: Option<Config>, hist: Chain<Config>, applied: Option<Config>,
                         fw: Option<Config>, geo: Option<Config>, wg: Option<Config>)

  function FinalOf(s: State): Final
  {
    Final(s.cfg, s.reverted, s.hist, s.applied, s.fw, s.geo, s.wg)
  }

  // The reason a rollback records: the first one given.
  function ReasonOf(s: State, reason: Reason): Reason
    requires s.session.Some?
  {
    Begun(s.session.value, reason).reason
  }

  function Target(s: State, reason: Reason, restoreEdits: bool): Final
  {
    var base, kept := s.snap[0], Kept(s);
    var geo := if base.Some? then GeoSets(base.value) else None;
    if reason == FailedApply && restoreEdits then Final(if kept.Some? then kept else base, None, s.snap, base, base, geo, base)
    else Final(base, kept, s.snap, base, base, geo, base)
  }

  function Finish(s: State, reason: Reason, restoreEdits: bool, tries: seq<Load>): State
    requires s.session.Some?
  {
    DoAll(s, RollbackPlan(s, s.session.value, reason, restoreEdits, tries).effects)
  }

  lemma FinishTarget(s: State, reason: Reason, restoreEdits: bool, tries: seq<Load>)
    requires Inv(s) && s.session.Some? && reason != NoReason && Full in tries
    ensures FinalOf(Finish(s, reason, restoreEdits, tries)) == Target(s, ReasonOf(s, reason), restoreEdits)
  {
    RollbackOutcome(s, s.session.value, reason, restoreEdits, tries);
  }

  // ---- What no effect of a rollback changes before the session goes ----

  predicate Steady(s: State, e: Effect)
  {
    var r := Do(s, e);
    && r.session.Some? && Kept(r) == Kept(s) && r.snap == s.snap
  }

  predicate AllSteady(s: State, es: seq<Effect>)
    decreases |es|
  {
    es == [] || (Steady(s, es[0]) && AllSteady(Do(s, es[0]), es[1..]))
  }

  // Effects on neither config.yaml, the kept config nor the session directory.
  predicate Quiet(e: Effect)
  {
    e.StopTimer? || e.WriteSession? || e.Rotate? || e.LoadFirewall? || e.LoadWireGuard? || e.RecordHash? || e.WriteLastRevert?
  }

  lemma QuietSteady(s: State, e: Effect)
    requires Quiet(e) && s.session.Some?
    ensures Steady(s, e)
  {
    var r := Do(s, e);
    assert r.cfg == s.cfg && r.reverted == s.reverted && r.snap == s.snap;
  }

  lemma {:induction false} QuietAllSteady(s: State, es: seq<Effect>)
    requires s.session.Some? && forall e | e in es :: Quiet(e)
    ensures AllSteady(s, es)
    decreases |es|
  {
    if es != [] {
      QuietSteady(s, es[0]);
      QuietAllSteady(Do(s, es[0]), es[1..]);
    }
  }

  lemma {:induction false} AllSteadyConcat(s: State, a: seq<Effect>, b: seq<Effect>)
    ensures AllSteady(s, a + b) == (AllSteady(s, a) && AllSteady(DoAll(s, a), b))
    decreases |a|
  {
    if a == [] {
      assert a + b == b;
    } else {
      assert (a + b)[1..] == a[1..] + b && (a + b)[0] == a[0];
      AllSteadyConcat(Do(s, a[0]), a[1..], b);
    }
  }

  lemma {:induction false} SteadyCut(s: State, es: seq<Effect>, k: nat)
    requires s.session.Some? && AllSteady(s, es) && k <= |es|
    ensures var r := DoAll(s, es[..k]); r.session.Some? && Kept(r) == Kept(s) && r.snap == s.snap
    decreases |es|
  {
    if k > 0 {
      assert es[..k][1..] == es[1..][..k - 1];
      SteadyCut(Do(s, es[0]), es[1..], k - 1);
    }
  }

  lemma {:induction false} CopyBackQuiet(snap: Chain<Config>, i: nat)
    requires i <= SLOTS
    ensures forall e | e in CopyBack(snap, i) :: Quiet(e)
    decreases SLOTS - i
  {
    if i < SLOTS {
      CopyBackQuiet(snap, i + 1);
    }
  }

  lemma {:induction false} RetryQuiet(s: State, tries: seq<Load>)
    ensures forall e | e in RetryPlan(s, tries).effects :: Quiet(e)
    decreases |tries|
  {
    if tries != [] {
      var p := LoadPlan(s, Back, tries[0]);
      if p.result != Ok {
        RetryQuiet(DoAll(s, p.effects), tries[1..]);
      }
    }
  }

  lemma OneSteady(s: State, e: Effect)
    ensures AllSteady(s, [e]) == Steady(s, e)
  {
    assert [e][1..] == [];
  }

  lemma RestoreSteady(s: State)
    requires s.session.Some? && s.snap[0].Some?
    ensures AllSteady(s, RestorePlan(s).effects)
  {
    var base := s.snap[0].value;
    var keep := if s.cfg.Some? && s.cfg != s.snap[0] then [KeepRejected(s.cfg.value)] else [];
    var s1 := s.(reverted := Kept(s));
    if keep != [] {
      DoOne(s, keep[0]);
      OneSteady(s, keep[0]);
    }
    assert DoAll(s, keep) == s1 && AllSteady(s, keep);
    DoOne(s1, WriteConfig(base));
    OneSteady(s1, WriteConfig(base));
    AllSteadyConcat(s, keep, [WriteConfig(base)]);
    DoAllConcat(s, keep, [WriteConfig(base)]);
    CopyBackQuiet(s.snap, 0);
    QuietAllSteady(Do(s1, WriteConfig(base)), CopyBack(s.snap, 0));
    AllSteadyConcat(s, keep + [WriteConfig(base)], CopyBack(s.snap, 0));
  }

  lemma StartSteady(s: State, x: Session, reason: Reason)
    requires Inv(s) && s.session == Some(x) && reason != NoReason
    ensures AllSteady(s, RollbackStart(s, x, reason))
  {
    var head := [StopTimer(x.token, true), WriteSession(Begun(x, reason))];
    QuietAllSteady(s, head);
    DoTwo(s, head[0], head[1]);
    var s2 := DoAll(s, head);
    assert RestorePlan(s2) == RestorePlan(s);
    RestoreSteady(s2);
    AllSteadyConcat(s, head, RestorePlan(s).effects);
  }

  // What of a rollback can run without the session going: all of it but the last effect of one that finishes.
  function Cuttable(s: State, x: Session, reason: Reason, restoreEdits: bool, tries: seq<Load>): seq<Effect>
  {
    var p := RollbackPlan(s, x, reason, restoreEdits, tries);
    if p.result == Ok then p.effects[..|p.effects| - 1] else p.effects
  }

  // No failed Apply's rollback can rename away a config.yaml.reverted that equals the baseline.
  predicate NoStaleCopy(s: State)
    requires s.session.Some?
  {
    Kept(s) != s.snap[0] || s.session.value.reason !in {NoReason, FailedApply}
  }

  function LastEffect(x: Session, reason: Reason, restoreEdits: bool, ok: bool): Effect
  {
    if ok then RollbackEnd(Begun(x, reason).reason, restoreEdits)[0] else WriteSession(Begun(x, reason).(phase := Failed))
  }

  lemma CuttableShape(s: State, x: Session, reason: Reason, restoreEdits: bool, tries: seq<Load>, head: seq<Effect>)
    requires Inv(s) && s.session == Some(x) && reason != NoReason
    requires head == RollbackStart(s, x, reason) + RetryPlan(Restored(s, x, reason), tries).effects
    ensures Cuttable(s, x, reason, restoreEdits, tries) == head + [LastEffect(x, reason, restoreEdits, Full in tries)]
    ensures AllSteady(s, head)
    ensures var back := DoAll(s, head);
            && back.cfg == s.snap[0] == back.snap[0] && back.snap == s.snap && back.reverted == Kept(s)
            && back.session == Some(Begun(x, reason))
  {
    var start := RollbackStart(s, x, reason);
    var mid := Restored(s, x, reason);
    RollbackStartRun(s, x, reason);
    StartSteady(s, x, reason);
    var retry := RetryPlan(mid, tries);
    RetryQuiet(mid, tries);
    RetryRun(mid, tries);
    QuietAllSteady(mid, retry.effects);
    AllSteadyConcat(s, start, retry.effects);
    DoAllConcat(s, start, retry.effects);
  }

  lemma LastSteady(back: State, x: Session, reason: Reason, restoreEdits: bool, ok: bool)
    requires back.session.Some? && back.cfg == back.snap[0] && back.snap[0].Some?
    requires back.reverted != back.snap[0] || x.reason !in {NoReason, FailedApply}
    ensures Steady(back, LastEffect(x, reason, restoreEdits, ok))
  {
    var last := LastEffect(x, reason, restoreEdits, ok);
    if last != RestoreEdits {
      QuietSteady(back, last);
    }
  }

  /** Wherever a rollback is cut, what it will keep and what it goes back to are as they were. */
  lemma CuttableSteady(s: State, x: Session, reason: Reason, restoreEdits: bool, tries: seq<Load>)
    requires Inv(s) && s.session == Some(x) && reason != NoReason && NoStaleCopy(s)
    ensures AllSteady(s, Cuttable(s, x, reason, restoreEdits, tries))
  {
    var head := RollbackStart(s, x, reason) + RetryPlan(Restored(s, x, reason), tries).effects;
    CuttableShape(s, x, reason, restoreEdits, tries, head);
    var back, last := DoAll(s, head), LastEffect(x, reason, restoreEdits, Full in tries);
    LastSteady(back, x, reason, restoreEdits, Full in tries);
    OneSteady(back, last);
    AllSteadyConcat(s, head, [last]);
  }

  // ---- The reason ----

  predicate ReasonStep(e: Effect, x: Session, reason: Reason)
  {
    match e
    case WriteSession(n) => n.reason == Begun(x, reason).reason
    case DropSession(_) => false
    case ClearDir => false
    case _ => true
  }

  lemma {:induction false} ReasonCut(s: State, x: Session, reason: Reason, es: seq<Effect>, k: nat)
    requires s.session.Some? && (s.session.value.reason == x.reason || s.session.value.reason == Begun(x, reason).reason)
    requires forall i | 0 <= i < |es| :: ReasonStep(es[i], x, reason)
    requires k <= |es|
    ensures var r := DoAll(s, es[..k]);
            r.session.Some? && (r.session.value.reason == x.reason || r.session.value.reason == Begun(x, reason).reason)
    decreases |es|
  {
    if k > 0 {
      assert es[..k][1..] == es[1..][..k - 1];
      assert ReasonStep(es[0], x, reason);
      forall i | 0 <= i < |es[1..]| ensures ReasonStep(es[1..][i], x, reason) {
        assert ReasonStep(es[i + 1], x, reason);
      }
      ReasonCut(Do(s, es[0]), x, reason, es[1..], k - 1);
    }
  }

  lemma {:induction false} CopyBackReason(snap: Chain<Config>, i: nat, x: Session, reason: Reason)
    requires i <= SLOTS
    ensures forall e | e in CopyBack(snap, i) :: ReasonStep(e, x, reason)
    decreases SLOTS - i
  {
    if i < SLOTS {
      CopyBackReason(snap, i + 1, x, reason);
    }
  }

  lemma {:induction false} RetryReason(s: State, tries: seq<Load>, x: Session, reason: Reason)
    ensures forall e | e in RetryPlan(s, tries).effects :: ReasonStep(e, x, reason)
    decreases |tries|
  {
    if tries != [] {
      var p := LoadPlan(s, Back, tries[0]);
      if p.result != Ok {
        RetryReason(DoAll(s, p.effects), tries[1..], x, reason);
      }
    }
  }

  lemma CuttableReason(s: State, x: Session, reason: Reason, restoreEdits: bool, tries: seq<Load>)
    requires s.snap[0].Some?
    ensures forall e | e in Cuttable(s, x, reason, restoreEdits, tries) :: ReasonStep(e, x, reason)
  {
    var start := RollbackStart(s, x, reason);
    CopyBackReason(s.snap, 0, x, reason);
    var retry := RetryPlan(DoAll(s, start), tries);
    RetryReason(DoAll(s, start), tries, x, reason);
    var last := if retry.result == Ok then RollbackEnd(Begun(x, reason).reason, restoreEdits)[..1] else [WriteSession(Begun(x, reason).(phase := Failed))];
    assert Cuttable(s, x, reason, restoreEdits, tries) == start + retry.effects + last;
    forall e | e in start ensures ReasonStep(e, x, reason) {
      assert e in [StopTimer(x.token, true), WriteSession(Begun(x, reason))] || e in RestorePlan(s).effects;
    }
  }

  // ---- Attempts ----

  // A rollback that did not finish: cut after done effects, or failed, with a reboot perhaps following.
  datatype Attempt = Attempt(reason: Reason, restoreEdits: bool, tries: seq<Load>, done: nat, reboot: bool)

  function AfterAttempt(s: State, a: Attempt): State
    requires s.session.Some?
  {
    var es := Cuttable(s, s.session.value, a.reason, a.restoreEdits, a.tries);
    var r := DoAll(s, es[..if a.done < |es| then a.done else |es|]);
    if a.reboot then Reboot(r) else r
  }

  lemma CutKeeps(s: State, x: Session, a: Attempt, k: nat)
    requires Inv(s) && s.session == Some(x) && a.reason != NoReason && NoStaleCopy(s)
    requires k <= |Cuttable(s, x, a.reason, a.restoreEdits, a.tries)|
    ensures var r := DoAll(s, Cuttable(s, x, a.reason, a.restoreEdits, a.tries)[..k]);
            && Inv(r) && r.session.Some? && Kept(r) == Kept(s) && r.snap == s.snap
            && (r.session.value.reason == x.reason || r.session.value.reason == Begun(x, a.reason).reason)
  {
    var p := RollbackPlan(s, x, a.reason, a.restoreEdits, a.tries);
    var es := Cuttable(s, x, a.reason, a.restoreEdits, a.tries);
    RollbackRun(s, x, a.reason, a.restoreEdits, a.tries);
    assert es[..k] == p.effects[..k];
    HoldsAtEveryCut(s, p.effects, k);
    CuttableSteady(s, x, a.reason, a.restoreEdits, a.tries);
    SteadyCut(s, es, k);
    CuttableReason(s, x, a.reason, a.restoreEdits, a.tries);
    ReasonCut(s, x, a.reason, es, k);
  }

  lemma AttemptKeeps(s: State, a: Attempt)
    requires Inv(s) && s.session.Some? && a.reason != NoReason && NoStaleCopy(s)
    ensures var r := AfterAttempt(s, a);
            && Inv(r) && r.session.Some? && NoStaleCopy(r) && Kept(r) == Kept(s) && r.snap == s.snap
            && (r.session.value.reason == s.session.value.reason || s.session.value.reason == NoReason)
  {
    var x := s.session.value;
    var es := Cuttable(s, x, a.reason, a.restoreEdits, a.tries);
    var k := if a.done < |es| then a.done else |es|;
    CutKeeps(s, x, a, k);
    RebootKeeps(DoAll(s, es[..k]));
  }

  function AfterAttempts(s: State, attempts: seq<Attempt>): State
    decreases |attempts|
  {
    if attempts == [] || s.session == None then s else AfterAttempts(AfterAttempt(s, attempts[0]), attempts[1..])
  }

  lemma {:induction false} AttemptsKeep(s: State, attempts: seq<Attempt>)
    requires Inv(s) && s.session.Some? && NoStaleCopy(s) && forall a | a in attempts :: a.reason != NoReason
    ensures var r := AfterAttempts(s, attempts);
            && Inv(r) && r.session.Some? && NoStaleCopy(r) && Kept(r) == Kept(s) && r.snap == s.snap
            && (r.session.value.reason == s.session.value.reason || s.session.value.reason == NoReason)
    decreases |attempts|
  {
    if attempts != [] {
      AttemptKeeps(s, attempts[0]);
      AttemptsKeep(AfterAttempt(s, attempts[0]), attempts[1..]);
    }
  }

  /** Any number of rollbacks that were cut off or failed, with reboots between them, then one that finishes:
      config.yaml, the kept config, the history, the hash and the host end as one undisturbed rollback with the
      last one's flag and the first recorded reason leaves them. */
  lemma RollbackIsRepeatable(s: State, attempts: seq<Attempt>, reason: Reason, restoreEdits: bool, tries: seq<Load>)
    requires Inv(s) && s.session.Some? && reason != NoReason && Full in tries
    requires forall a | a in attempts :: a.reason != NoReason
    requires NoStaleCopy(s)
    ensures var cut := AfterAttempts(s, attempts);
            && cut.session.Some?
            && FinalOf(Finish(cut, reason, restoreEdits, tries)) == FinalOf(Finish(s, ReasonOf(cut, reason), restoreEdits, tries))
  {
    AttemptsKeep(s, attempts);
    var cut := AfterAttempts(s, attempts);
    FinishTarget(cut, reason, restoreEdits, tries);
    FinishTarget(s, ReasonOf(cut, reason), restoreEdits, tries);
  }

  function JustBeforeTheEnd(s: State, tries: seq<Load>): Attempt
    requires s.session.Some?
  {
    Attempt(FailedApply, true, tries, |Cuttable(s, s.session.value, FailedApply, true, tries)|, false)
  }

  lemma RenamedAway(s: State, tries: seq<Load>)
    requires Inv(s) && s.session.Some? && Full in tries && !NoStaleCopy(s)
    ensures var cut := AfterAttempt(s, JustBeforeTheEnd(s, tries));
            && Inv(cut) && cut.session == Some(Begun(s.session.value, FailedApply))
            && cut.cfg == s.snap[0] && cut.reverted == None && cut.snap == s.snap
  {
    var x := s.session.value;
    var p := RollbackPlan(s, x, FailedApply, true, tries);
    var es := Cuttable(s, x, FailedApply, true, tries);
    var head := RollbackStart(s, x, FailedApply) + RetryPlan(Restored(s, x, FailedApply), tries).effects;
    RollbackRun(s, x, FailedApply, true, tries);
    CuttableShape(s, x, FailedApply, true, tries, head);
    DoAllConcat(s, head, [RestoreEdits]);
    RenamedOver(DoAll(s, head), s.snap[0]);
    CutBeforeTheEnd(s, p.effects, es);
  }

  lemma RenamedOver(s: State, base: Option<Config>)
    requires s.cfg == base && (s.reverted == None || s.reverted == base)
    ensures var r := DoAll(s, [RestoreEdits]); r == s.(reverted := None) && r.cfg == base
  {
    DoOne(s, RestoreEdits);
  }

  lemma CutBeforeTheEnd(s: State, all: seq<Effect>, es: seq<Effect>)
    requires Inv(s) && AllAllowed(s, all) && es <= all
    ensures es[..|es|] == es && Inv(DoAll(s, es))
  {
    assert es == all[..|es|];
    HoldsAtEveryCut(s, all, |es|);
  }

  /** The condition is exact: where it fails, cutting a failed Apply's rollback just before its last effect loses
      config.yaml.reverted for the boot that finishes it. */
  lemma StaleCopyIsLost(s: State, tries: seq<Load>)
    requires Inv(s) && s.session.Some? && Full in tries
    requires !NoStaleCopy(s)
    ensures var cut := AfterAttempts(s, [JustBeforeTheEnd(s, tries)]);
            && cut.session.Some?
            && FinalOf(Finish(cut, Interrupted, false, tries)) != FinalOf(Finish(s, ReasonOf(cut, Interrupted), false, tries))
  {
    var a := JustBeforeTheEnd(s, tries);
    var cut := AfterAttempt(s, a);
    RenamedAway(s, tries);
    assert [a][1..] == [] && AfterAttempts(s, [a]) == AfterAttempts(cut, []) == cut;
    FinishTarget(cut, Interrupted, false, tries);
    FinishTarget(s, FailedApply, false, tries);
  }
}

/** The history of applied configs over whole runs: .bak ... .bak.5 stay in the order things were applied in, through crashes,
    re-Applies and reverts. */
module ApplyHistory {
  import opened Common
  import opened History
  import opened ApplyState
  import opened ApplyPlans
  import opened ApplySafety
  import opened ApplyRuns
  import opened ApplyWorld

  // ---- What was applied ----

  // past is every config recorded as applied so far, newest first.
  function Noted(past: seq<Config>, e: Effect): seq<Config>
  {
    if e.RecordHash? then [e.content] + past else past
  }

  function NotedAll(past: seq<Config>, es: seq<Effect>): seq<Config>
    decreases |es|
  {
    if es == [] then past else NotedAll(Noted(past, es[0]), es[1..])
  }

  // The configs a run records as applied, in front of those in past.
  function AppliedBy(w: World, es: seq<Event>, past: seq<Config>): seq<Config>
    decreases |es|
  {
    if es == [] then past
    else AppliedBy(After(w, es[0]), es[1..], if es[0] == Tick && w.todo != [] then Noted(past, w.todo[0]) else past)
  }

  predicate Reverting(s: State)
  {
    s.session.Some? && s.session.value.phase != Active
  }

  /** Both the history, except while a revert rewrites it, and a session's copies of it are in the order of past. */
  ghost predicate Ordered(s: State, past: seq<Config>)
  {
    && (!Reverting(s) ==> Subsequence(Entries(s.hist), past))
    && (s.session.Some? ==> Subsequence(Entries(s.snap), past))
  }

  // ---- When an effect keeps the order ----

  // A config is put into .bak only when it is the one recorded last, and what is below it was applied before.
  ghost predicate Fitting(s: State, e: Effect, past: seq<Config>)
  {
    e.Rotate? && e.step.Put? && !Reverting(s) ==>
      e.step.slot == 0 && past != [] && past[0] == e.step.content && Subsequence(Entries(s.hist[0 := None]), past[1..])
  }

  ghost predicate AllFitting(s: State, es: seq<Effect>, past: seq<Config>)
    decreases |es|
  {
    es == [] || (Fitting(s, es[0], past) && AllFitting(Do(s, es[0]), es[1..], Noted(past, es[0])))
  }

  lemma RotateKeepsOrder(s: State, step: Step<Config>, past: seq<Config>)
    requires Ordered(s, past) && Fitting(s, Rotate(step), past)
    ensures Ordered(Do(s, Rotate(step)), past)
  {
    var now := Take(s.hist, step);
    match step
    case Drop(n) =>
      if n < SLOTS { ClearedKeepsOrder(s.hist, n); }
      if !Reverting(s) && n < SLOTS { SubsequenceTrans(Entries(now), Entries(s.hist), past); }
    case Shift(n) =>
      ShiftKeepsOrder(s.hist, n);
      if !Reverting(s) { SubsequenceTrans(Entries(now), Entries(s.hist), past); }
    case Put(n, c) =>
      if !Reverting(s) {
        var below := s.hist[0 := None];
        PutNewest(below, c);
        assert Take(below, Put(0, c)) == now && past == [c] + past[1..];
        SubsequenceCons(c, Entries(below), past[1..]);
      }
  }

  lemma RecordKeepsOrder(s: State, c: Config, kind: LoadKind, past: seq<Config>)
    requires Ordered(s, past)
    ensures Ordered(Do(s, RecordHash(c, kind)), [c] + past)
  {
    if !Reverting(s) { SubsequenceCons(c, Entries(s.hist), past); }
    if s.session.Some? { SubsequenceCons(c, Entries(s.snap), past); }
  }

  lemma EffectKeepsOrder(s: State, e: Effect, past: seq<Config>)
    requires Inv(s) && Allowed(s, e) && Ordered(s, past) && Fitting(s, e, past)
    ensures Ordered(Do(s, e), Noted(past, e))
  {
    if e.Rotate? {
      RotateKeepsOrder(s, e.step, past);
    } else if e.RecordHash? {
      RecordKeepsOrder(s, e.content, e.kind, past);
    } else if e.WriteSession? || e.DropSession? || e.ClearDir? || e.CopyBaseline? {
      SessionKeepsOrder(s, e, past);
    } else {
      assert Do(s, e).hist == s.hist && Do(s, e).session == s.session && Do(s, e).snap == s.snap;
    }
  }

  lemma SessionKeepsOrder(s: State, e: Effect, past: seq<Config>)
    requires e.WriteSession? || e.DropSession? || e.ClearDir? || e.CopyBaseline?
    requires Allowed(s, e) && Ordered(s, past)
    ensures Ordered(Do(s, e), past)
  {
  }

  lemma {:induction false} EffectsKeepOrder(s: State, es: seq<Effect>, past: seq<Config>)
    requires Inv(s) && AllAllowed(s, es) && Ordered(s, past) && AllFitting(s, es, past)
    ensures Ordered(DoAll(s, es), NotedAll(past, es))
    decreases |es|
  {
    if es != [] {
      EffectKeepsOrder(s, es[0], past);
      AllowedKeeps(s, es[0]);
      EffectsKeepOrder(Do(s, es[0]), es[1..], Noted(past, es[0]));
    }
  }

  lemma {:induction false} AllFittingConcat(s: State, a: seq<Effect>, b: seq<Effect>, past: seq<Config>)
    ensures AllFitting(s, a + b, past) == (AllFitting(s, a, past) && AllFitting(DoAll(s, a), b, NotedAll(past, a)))
    decreases |a|
  {
    if a == [] {
      assert a + b == b;
    } else {
      assert (a + b)[1..] == a[1..] + b && (a + b)[0] == a[0];
      AllFittingConcat(Do(s, a[0]), a[1..], b, Noted(past, a[0]));
    }
  }

  // ---- Every operation's effects do ----

  predicate Rotates(es: seq<Effect>)
  {
    exists i | 0 <= i < |es| :: es[i].Rotate?
  }

  lemma {:induction false} WithoutRotation(s: State, es: seq<Effect>, past: seq<Config>)
    requires !Rotates(es)
    ensures AllFitting(s, es, past)
    decreases |es|
  {
    if es != [] {
      assert !es[0].Rotate?;
      forall i | 0 <= i < |es[1..]| ensures !es[1..][i].Rotate? {
        assert !es[i + 1].Rotate?;
      }
      WithoutRotation(Do(s, es[0]), es[1..], Noted(past, es[0]));
    }
  }

  // Whatever a revert does between its first and its last effects.
  predicate LeavesSession(es: seq<Effect>)
  {
    forall i | 0 <= i < |es| :: !es[i].WriteSession? && !es[i].DropSession? && !es[i].ClearDir?
  }

  lemma {:induction false} WhileReverting(s: State, es: seq<Effect>, past: seq<Config>)
    requires Reverting(s) && LeavesSession(es)
    ensures AllFitting(s, es, past)
    decreases |es|
  {
    if es != [] {
      assert !es[0].WriteSession? && !es[0].DropSession? && !es[0].ClearDir?;
      forall i | 0 <= i < |es[1..]| ensures !es[1..][i].WriteSession? && !es[1..][i].DropSession? && !es[1..][i].ClearDir? {
        assert es[1..][i] == es[i + 1];
      }
      WhileReverting(Do(s, es[0]), es[1..], Noted(past, es[0]));
    }
  }

  // Files that move up or go, and then at most c into .bak.
  predicate Rotation(steps: seq<Step<Config>>, c: Config)
  {
    forall i | 0 <= i < |steps| && steps[i].Put? :: i == |steps| - 1 && steps[i] == Put(0, c)
  }

  lemma RecordStepsRotate(chain: Chain<Config>, c: Config)
    ensures Rotation(RecordSteps(chain, c), c)
  {
    var steps, mid := RecordSteps(chain, c), ShiftSteps(chain, 4);
    forall i | 0 <= i < |steps| && steps[i].Put? ensures i == |steps| - 1 && steps[i] == Put(0, c) {
      if chain[0] != None && 1 <= i < 1 + |mid| {
        ShiftStepsAreShifts(chain, 4, i - 1);
      }
    }
  }

  lemma {:induction false} RotationFits(s: State, steps: seq<Step<Config>>, c: Config, past: seq<Config>)
    requires !Reverting(s) && Rotation(steps, c) && Subsequence(Entries(s.hist), past)
    ensures AllFitting(s, Rotations(steps), [c] + past)
    decreases |steps|
  {
    if steps != [] {
      var es, next := Rotations(steps), s.(hist := Take(s.hist, steps[0]));
      assert es[0] == Rotate(steps[0]) && es[1..] == Rotations(steps[1..]);
      assert ([c] + past)[1..] == past;
      if steps[0].Put? {
        assert steps[1..] == [];
        ClearedKeepsOrder(s.hist, 0);
        SubsequenceTrans(Entries(s.hist[0 := None]), Entries(s.hist), past);
      } else {
        OneStepUp(s.hist, steps[0], past);
        assert forall i | 0 <= i < |steps[1..]| :: steps[1..][i] == steps[i + 1];
        RotationFits(next, steps[1..], c, past);
      }
    }
  }

  lemma OneStepUp(chain: Chain<Config>, step: Step<Config>, past: seq<Config>)
    requires !step.Put? && Subsequence(Entries(chain), past)
    ensures Subsequence(Entries(Take(chain, step)), past)
  {
    match step
    case Drop(n) =>
      if n < SLOTS {
        ClearedKeepsOrder(chain, n);
        SubsequenceTrans(Entries(chain[n := None]), Entries(chain), past);
      }
    case Shift(n) =>
      ShiftKeepsOrder(chain, n);
      SubsequenceTrans(Entries(Take(chain, Shift(n))), Entries(chain), past);
  }

  lemma HostNotes(past: seq<Config>, kind: LoadKind, c: Config)
    ensures NotedAll(past, HostEffects(kind, c)) == [c] + past
  {
    var es := HostEffects(kind, c);
    assert es[1..] == [LoadWireGuard(c), RecordHash(c, kind)];
    assert es[1..][1..] == [RecordHash(c, kind)];
    assert es[1..][1..][1..] == [];
    assert NotedAll(past, es[1..][1..]) == NotedAll([c] + past, []);
    assert NotedAll(past, es[1..]) == NotedAll(past, es[1..][1..]);
  }

  lemma LoadFits(s: State, kind: LoadKind, load: Load, past: seq<Config>)
    requires Ordered(s, past)
    ensures AllFitting(s, LoadPlan(s, kind, load).effects, past)
  {
    var p := LoadPlan(s, kind, load);
    if p.result == Ok {
      var c := s.cfg.value;
      var host, steps := HostEffects(kind, c), RecordSteps(s.hist, c);
      WithoutRotation(s, host, past);
      HostRun(s, kind, c);
      HostNotes(past, kind, c);
      if Reverting(s) {
        WhileReverting(HostLoaded(s, kind, c), Rotations(steps), [c] + past);
      } else {
        RecordStepsRotate(s.hist, c);
        RotationFits(HostLoaded(s, kind, c), steps, c, past);
      }
      AllFittingConcat(s, host, Rotations(steps), past);
    } else {
      WithoutRotation(s, p.effects, past);
    }
  }

  lemma LoadLeavesSession(s: State, kind: LoadKind, load: Load)
    ensures LeavesSession(LoadPlan(s, kind, load).effects)
  {
  }

  lemma {:induction false} RetryLeavesSession(s: State, tries: seq<Load>)
    ensures LeavesSession(RetryPlan(s, tries).effects)
    decreases |tries|
  {
    if tries != [] {
      var p := LoadPlan(s, Back, tries[0]);
      LoadLeavesSession(s, Back, tries[0]);
      RetryLeavesSession(DoAll(s, p.effects), tries[1..]);
    }
  }

  lemma {:induction false} CopyBackLeavesSession(snap: Chain<Config>, i: nat)
    requires i <= SLOTS
    ensures LeavesSession(CopyBack(snap, i))
    decreases SLOTS - i
  {
    if i < SLOTS { CopyBackLeavesSession(snap, i + 1); }
  }

  lemma RestoreLeavesSession(s: State)
    ensures LeavesSession(RestorePlan(s).effects)
  {
    CopyBackLeavesSession(s.snap, 0);
  }

  // A rollback's effects: two that mark the session, those that leave it alone, and the last.
  lemma RollbackParts(s: State, x: Session, reason: Reason, restoreEdits: bool, tries: seq<Load>) returns (middle: seq<Effect>, last: seq<Effect>)
    requires Inv(s) && s.session == Some(x) && reason != NoReason
    ensures RollbackPlan(s, x, reason, restoreEdits, tries).effects == [StopTimer(x.token, true), WriteSession(Begun(x, reason))] + middle + last
    ensures LeavesSession(middle) && !Rotates(last)
  {
    var restore, retry := RestorePlan(s).effects, RetryPlan(Restored(s, x, reason), tries);
    RollbackStartRun(s, x, reason);
    RestoreLeavesSession(s);
    RetryLeavesSession(Restored(s, x, reason), tries);
    middle := restore + retry.effects;
    last := if retry.result == Ok then RollbackEnd(Begun(x, reason).reason, restoreEdits) else [WriteSession(Begun(x, reason).(phase := Failed))];
  }

  lemma PartsFit(s: State, first: seq<Effect>, middle: seq<Effect>, last: seq<Effect>, past: seq<Config>)
    requires !Rotates(first) && Reverting(DoAll(s, first)) && LeavesSession(middle) && !Rotates(last)
    ensures AllFitting(s, first + middle + last, past)
  {
    WithoutRotation(s, first, past);
    WhileReverting(DoAll(s, first), middle, NotedAll(past, first));
    AllFittingConcat(s, first, middle, past);
    WithoutRotation(DoAll(s, first + middle), last, NotedAll(past, first + middle));
    AllFittingConcat(s, first + middle, last, past);
  }

  lemma RollbackFits(s: State, x: Session, reason: Reason, restoreEdits: bool, tries: seq<Load>, past: seq<Config>)
    requires Inv(s) && s.session == Some(x) && reason != NoReason
    ensures AllFitting(s, RollbackPlan(s, x, reason, restoreEdits, tries).effects, past)
  {
    var first := [StopTimer(x.token, true), WriteSession(Begun(x, reason))];
    DoTwo(s, first[0], first[1]);
    var middle, last := RollbackParts(s, x, reason, restoreEdits, tries);
    PartsFit(s, first, middle, last, past);
  }

  lemma {:induction false} CopyOutRotatesNothing(hist: Chain<Config>, i: nat)
    requires i <= SLOTS
    ensures !Rotates(CopyOut(hist, i))
    decreases SLOTS - i
  {
    if i < SLOTS { CopyOutRotatesNothing(hist, i + 1); }
  }

  lemma ArmRotatesNothing(s: State, hash: Option<Config>, env: Env)
    ensures !Rotates(ArmPlan(s, hash, env).effects)
  {
    CopyOutRotatesNothing(s.hist, 0);
  }

  lemma TrialFits(s: State, x: Session, env: Env, past: seq<Config>)
    requires Ordered(s, past) && LoadPlan(s, Trial, env.load).result == Ok
    ensures AllFitting(s, ApplyTail(s, x, env).effects, past)
  {
    var l := LoadPlan(s, Trial, env.load);
    LoadFits(s, Trial, env.load, past);
    LastRotatesNothing(s, l.effects, if env.rearm then RearmEffects(DoAll(s, l.effects), x, Some(x.token)) else [], past);
  }

  lemma LastRotatesNothing(s: State, front: seq<Effect>, last: seq<Effect>, past: seq<Config>)
    requires AllFitting(s, front, past) && !Rotates(last)
    ensures AllFitting(s, front + last, past)
  {
    WithoutRotation(DoAll(s, front), last, NotedAll(past, front));
    AllFittingConcat(s, front, last, past);
  }

  lemma FailedTrialFits(s: State, x: Session, env: Env, past: seq<Config>)
    requires Inv(s) && s.session == Some(x) && x.phase == Active && Ordered(s, past) && LoadPlan(s, Trial, env.load).result != Ok
    ensures AllFitting(s, ApplyTail(s, x, env).effects, past)
  {
    var l := LoadPlan(s, Trial, env.load);
    LoadFits(s, Trial, env.load, past);
    LoadAllowed(s, Trial, env.load);
    LoadRun(s, Trial, env.load);
    HoldsAfter(s, l.effects);
    var s2 := DoAll(s, l.effects);
    RollbackFits(s2, x, FailedApply, true, env.retries, NotedAll(past, l.effects));
    AllFittingConcat(s, l.effects, RollbackPlan(s2, x, FailedApply, true, env.retries).effects, past);
  }

  lemma ApplyTailFits(s: State, x: Session, env: Env, past: seq<Config>)
    requires Inv(s) && s.session == Some(x) && x.phase == Active && Ordered(s, past)
    ensures AllFitting(s, ApplyTail(s, x, env).effects, past)
  {
    if LoadPlan(s, Trial, env.load).result == Ok {
      TrialFits(s, x, env, past);
    } else {
      FailedTrialFits(s, x, env, past);
    }
  }

  lemma ApplyFits(s: State, hash: Option<Config>, env: Env, past: seq<Config>)
    requires Inv(s) && Ordered(s, past)
    ensures AllFitting(s, ApplyPlan(s, hash, env).effects, past)
  {
    var a := ArmPlan(s, hash, env);
    ArmRotatesNothing(s, hash, env);
    WithoutRotation(s, a.effects, past);
    if a.result == Ok {
      var x := Rearmed(s, SessionOf(s));
      ArmRun(s, hash, env);
      EffectsKeepOrder(s, a.effects, past);
      ApplyTailFits(Armed(s), x, env, NotedAll(past, a.effects));
      AllFittingConcat(s, a.effects, ApplyTail(Armed(s), x, env).effects, past);
    }
  }

  lemma OneWayCheckFits(s: State, env: Env, past: seq<Config>)
    requires Inv(s) && Ordered(s, past)
    ensures var es := OneWayCheck(s, env).effects; AllFitting(s, es, past) && Ordered(DoAll(s, es), NotedAll(past, es))
  {
    if OneWayCheck(s, env).effects != [] {
      RollbackFits(s, s.session.value, Interrupted, false, env.retries, past);
    }
    OneWayCheckRun(s, env);
    EffectsKeepOrder(s, OneWayCheck(s, env).effects, past);
  }

  lemma ReloadFits(s: State, hash: Option<Config>, env: Env, past: seq<Config>)
    requires Inv(s) && Ordered(s, past)
    ensures AllFitting(s, ReloadPlan(s, hash, env).effects, past)
  {
    var p := OneWayCheck(s, env);
    var s1, now := DoAll(s, p.effects), NotedAll(past, p.effects);
    OneWayCheckFits(s, env, past);
    if p.result == Ok {
      LoadFits(s1, OneWay, env.load, now);
      AllFittingConcat(s, p.effects, LoadPlan(s1, OneWay, env.load).effects, past);
    }
  }

  lemma BootFits(s: State, env: Env, past: seq<Config>)
    requires Inv(s) && Ordered(s, past)
    ensures AllFitting(s, BootPlan(s, env).effects, past)
  {
    var p := OneWayCheck(s, env);
    var s1, now := DoAll(s, p.effects), NotedAll(past, p.effects);
    OneWayCheckFits(s, env, past);
    if p.result == Ok && PreferBaseline(s1) {
      var c := s1.hist[0].value;
      WithoutRotation(s1, LoadKnown(c, env.load).effects, now);
      AllFittingConcat(s, p.effects, LoadKnown(c, env.load).effects, past);
    } else if p.result == Ok {
      LoadFits(s1, OneWay, env.load, now);
      AllFittingConcat(s, p.effects, LoadPlan(s1, OneWay, env.load).effects, past);
    }
  }

  /** Every operation puts into .bak only what it has just recorded as applied, unless it restores the copies. */
  lemma OpFits(s: State, op: Op, env: Env, past: seq<Config>)
    requires Inv(s) && Ordered(s, past)
    ensures AllFitting(s, PlanOf(s, op, env).effects, past)
  {
    match op
    case Apply(hash) => ApplyFits(s, hash, env, past);
    case Reload(hash) => ReloadFits(s, hash, env, past);
    case BootReload => BootFits(s, env, past);
    case Recover => if RecoverPlan(s, env).effects != [] { RollbackFits(s, s.session.value, Interrupted, false, env.retries, past); }
    case Revert => if RevertPlan(s, None, env).effects != [] { RollbackFits(s, s.session.value, Manual, true, env.retries, past); }
    case TimerRevert(t) => if RevertPlan(s, Some(t), env).effects != [] { RollbackFits(s, s.session.value, Timeout, true, env.retries, past); }
    case _ => WithoutRotation(s, PlanOf(s, op, env).effects, past);
  }

  // ---- Every run ----

  // A timer going off changes nothing the order is about.
  lemma {:induction false} FittingAfterFire(a: State, b: State, es: seq<Effect>, past: seq<Config>)
    requires MoreFired(a, b) && AllAllowed(a, es) && AllFitting(a, es, past)
    ensures AllFitting(b, es, past)
    decreases |es|
  {
    if es != [] {
      MoreFiredAllowed(a, b, es[0]);
      FittingAfterFire(Do(a, es[0]), Do(b, es[0]), es[1..], Noted(past, es[0]));
    }
  }

  ghost predicate InOrder(w: World, past: seq<Config>)
  {
    Safe(w) && Ordered(w.s, past) && AllFitting(w.s, w.todo, past)
  }

  lemma InOrderStep(w: World, e: Event, past: seq<Config>)
    requires InOrder(w, past) && Possible(w, e)
    ensures InOrder(After(w, e), if e == Tick && w.todo != [] then Noted(past, w.todo[0]) else past)
  {
    SafeStep(w, e);
    match e
    case Begin(op, env) => OpFits(w.s, op, env, past);
    case Tick => EffectKeepsOrder(w.s, w.todo[0], past);
    case GoesOff(t) => FittingAfterFire(w.s, Fire(w.s, t), w.todo, past);
    case _ =>
  }

  lemma {:induction false} InOrderRun(w: World, es: seq<Event>, past: seq<Config>)
    requires InOrder(w, past) && IsRun(w, es)
    ensures InOrder(AfterRun(w, es), AppliedBy(w, es, past))
    decreases |es|
  {
    if es != [] {
      InOrderStep(w, es[0], past);
      InOrderRun(After(w, es[0]), es[1..], if es[0] == Tick && w.todo != [] then Noted(past, w.todo[0]) else past);
    }
  }

  /** In every state of every run, unless a revert has begun and not ended, .bak ... .bak.5 read newest first are a
      subsequence of everything applied so far; and so are the copies a session would bring back, in any case. */
  lemma HistoryFollowsApplied(cfg: Option<Config>, es: seq<Event>)
    requires IsRun(Start(cfg), es)
    ensures var s, past := AfterRun(Start(cfg), es).s, AppliedBy(Start(cfg), es, []);
            && (!Reverting(s) ==> Subsequence(Entries(s.hist), past))
            && (s.session.Some? ==> Subsequence(Entries(s.snap), past))
  {
    SafeStart(cfg);
    NoEntries(NoFiles<Config>());
    InOrderRun(Start(cfg), es, []);
  }
}

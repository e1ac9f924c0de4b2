/** Every operation keeps to the discipline, so the invariant holds over every run. */
module ApplyRuns {
  import opened Common
  import opened History
  import opened ApplyState
  import opened ApplyPlans
  import opened ApplySafety

  lemma DoOne(s: State, a: Effect)
    ensures DoAll(s, [a]) == Do(s, a)
    ensures AllAllowed(s, [a]) == Allowed(s, a)
  {
    assert [a][1..] == [];
  }

  lemma DoTwo(s: State, a: Effect, b: Effect)
    ensures DoAll(s, [a, b]) == Do(Do(s, a), b)
    ensures AllAllowed(s, [a, b]) == (Allowed(s, a) && Allowed(Do(s, a), b))
  {
    assert [a, b] == [a] + [b];
    DoOne(s, a);
    DoOne(Do(s, a), b);
    DoAllConcat(s, [a], [b]);
    AllAllowedConcat(s, [a], [b]);
  }

  lemma DoThree(s: State, a: Effect, b: Effect, c: Effect)
    ensures DoAll(s, [a, b, c]) == Do(Do(Do(s, a), b), c)
    ensures AllAllowed(s, [a, b, c]) == (Allowed(s, a) && Allowed(Do(s, a), b) && Allowed(Do(Do(s, a), b), c))
  {
    assert [a, b, c] == [a, b] + [c];
    DoTwo(s, a, b);
    DoOne(Do(Do(s, a), b), c);
    DoAllConcat(s, [a, b], [c]);
    AllAllowedConcat(s, [a, b], [c]);
  }

  // ---- Copies and rotations ----

  lemma {:induction false} RotationsRun(s: State, steps: seq<Step<Config>>)
    ensures DoAll(s, Rotations(steps)) == s.(hist := TakeAll(s.hist, steps))
    decreases |steps|
  {
    if steps != [] {
      assert Rotations(steps)[1..] == Rotations(steps[1..]);
      RotationsRun(s.(hist := Take(s.hist, steps[0])), steps[1..]);
    }
  }

  lemma {:induction false} RotationsAllowed(s: State, steps: seq<Step<Config>>)
    requires forall i | 0 <= i < |steps| :: RotateAllowed(s, steps[i])
    ensures AllAllowed(s, Rotations(steps))
    decreases |steps|
  {
    if steps != [] {
      assert Rotations(steps)[1..] == Rotations(steps[1..]);
      var next := s.(hist := Take(s.hist, steps[0]));
      forall i | 0 <= i < |steps[1..]| ensures RotateAllowed(next, steps[1..][i]) {
        assert RotateAllowed(s, steps[i + 1]);
      }
      RotationsAllowed(next, steps[1..]);
    }
  }

  lemma {:induction false} ShiftStepsAreShifts(chain: Chain<Config>, n: nat, i: nat)
    requires n < SLOTS && i < |ShiftSteps(chain, n)|
    ensures ShiftSteps(chain, n)[i].Shift?
    decreases n
  {
    if chain[n].Some? {
      if i > 0 { ShiftStepsAreShifts(chain, n - 1, i - 1); }
    } else {
      ShiftStepsAreShifts(chain, n - 1, i);
    }
  }

  lemma RecordStepsWriteCur(chain: Chain<Config>, cur: Config, i: nat)
    requires i < |RecordSteps(chain, cur)|
    ensures var step := RecordSteps(chain, cur)[i]; step.Put? ==> step == Put(0, cur)
  {
    var mid := ShiftSteps(chain, 4);
    if chain[0] != None && 1 <= i < 1 + |mid| {
      ShiftStepsAreShifts(chain, 4, i - 1);
    }
  }

  lemma OverlaidBy(a: Chain<Config>, b: Chain<Config>, i: nat)
    requires i < SLOTS
    ensures a[i := b[i]][..i + 1] + b[i + 1..] == a[..i] + b[i..]
  {
  }

  lemma {:induction false} CopyOutRun(s: State, hist: Chain<Config>, i: nat)
    requires i <= SLOTS && forall j | i <= j < SLOTS :: s.snap[j] == None
    ensures DoAll(s, CopyOut(hist, i)) == s.(snap := s.snap[..i] + hist[i..])
    decreases SLOTS - i
  {
    if i == SLOTS {
      assert s.snap[..i] + hist[i..] == s.snap;
    } else {
      var next := s.(snap := s.snap[i := hist[i]]);
      CopyOutRun(next, hist, i + 1);
      OverlaidBy(s.snap, hist, i);
      var es := CopyOut(hist, i);
      if hist[i].Some? {
        assert es[0] == CopyBaseline(i, hist[i].value) && es[1..] == CopyOut(hist, i + 1);
        assert Do(s, es[0]) == next;
      } else {
        assert es == CopyOut(hist, i + 1);
        assert next.snap == s.snap;
      }
    }
  }

  lemma {:induction false} CopyOutAllowed(s: State, hist: Chain<Config>, i: nat)
    requires i <= SLOTS && s.session == None
    ensures AllAllowed(s, CopyOut(hist, i))
    decreases SLOTS - i
  {
    if i < SLOTS {
      if hist[i].Some? {
        var es := CopyOut(hist, i);
        assert es[0] == CopyBaseline(i, hist[i].value) && es[1..] == CopyOut(hist, i + 1);
        CopyOutAllowed(Do(s, es[0]), hist, i + 1);
      } else {
        assert CopyOut(hist, i) == CopyOut(hist, i + 1);
        CopyOutAllowed(s, hist, i + 1);
      }
    }
  }

  lemma {:induction false} CopyBackRun(s: State, snap: Chain<Config>, i: nat)
    requires i <= SLOTS
    ensures DoAll(s, CopyBack(snap, i)) == s.(hist := s.hist[..i] + snap[i..])
    decreases SLOTS - i
  {
    if i == SLOTS {
      assert s.hist[..i] + snap[i..] == s.hist;
    } else {
      var es := CopyBack(snap, i);
      assert es[1..] == CopyBack(snap, i + 1);
      var next := s.hist[i := snap[i]];
      assert Do(s, es[0]) == s.(hist := next);
      CopyBackRun(s.(hist := next), snap, i + 1);
      assert next[..i + 1] + snap[i + 1..] == s.hist[..i] + snap[i..];
    }
  }

  lemma {:induction false} CopyBackAllowed(s: State, snap: Chain<Config>, i: nat)
    requires i <= SLOTS && s.session.Some? && s.session.value.phase != Active
    ensures AllAllowed(s, CopyBack(snap, i))
    decreases SLOTS - i
  {
    if i < SLOTS {
      var es := CopyBack(snap, i);
      assert es[1..] == CopyBack(snap, i + 1);
      CopyBackAllowed(Do(s, es[0]), snap, i + 1);
    }
  }

  // ---- Loads ----

  // The host and the hash once c is loaded completely.
  function HostLoaded(s: State, kind: LoadKind, c: Config): State
  {
    s.(fw := Some(c), geo := GeoSets(c), wg := Some(c), applied := Some(c),
       onTrial := kind == Trial, trial := if kind == Trial then Some(c) else s.trial,
       trusted := if kind == OneWay then Some(c) else s.trusted, clean := kind == OneWay || s.clean)
  }

  function HostEffects(kind: LoadKind, c: Config): seq<Effect>
  {
    [LoadFirewall(c, kind), LoadWireGuard(c), RecordHash(c, kind)]
  }

  // What a complete load leaves behind.
  function Loaded(s: State, kind: LoadKind, c: Config): State
  {
    HostLoaded(s, kind, c).(hist := TakeAll(s.hist, RecordSteps(s.hist, c)))
  }

  predicate MayLoad(s: State, kind: LoadKind, c: Config)
  {
    match kind
    case OneWay => s.session == None
    case Trial => s.session.Some? && s.session.value.phase == Active
    case Back => s.session.Some? && s.session.value.phase != Active && s.snap[0] == Some(c)
  }

  lemma HostRun(s: State, kind: LoadKind, c: Config)
    ensures DoAll(s, HostEffects(kind, c)) == HostLoaded(s, kind, c)
    ensures MayLoad(s, kind, c) ==> AllAllowed(s, HostEffects(kind, c))
  {
    DoThree(s, LoadFirewall(c, kind), LoadWireGuard(c), RecordHash(c, kind));
  }

  lemma FullLoadRun(s: State, kind: LoadKind, c: Config, steps: seq<Step<Config>>)
    ensures DoAll(s, HostEffects(kind, c) + Rotations(steps)) == HostLoaded(s, kind, c).(hist := TakeAll(s.hist, steps))
  {
    HostRun(s, kind, c);
    var s3 := HostLoaded(s, kind, c);
    DoAllConcat(s, HostEffects(kind, c), Rotations(steps));
    RotationsRun(s3, steps);
  }

  lemma FullLoadAllowed(s: State, kind: LoadKind, c: Config)
    requires MayLoad(s, kind, c)
    ensures AllAllowed(s, HostEffects(kind, c) + Rotations(RecordSteps(s.hist, c)))
  {
    HostRun(s, kind, c);
    var s3 := HostLoaded(s, kind, c);
    var steps := RecordSteps(s.hist, c);
    forall i | 0 <= i < |steps| ensures RotateAllowed(s3, steps[i]) {
      RecordStepsWriteCur(s.hist, c, i);
    }
    RotationsAllowed(s3, steps);
    AllAllowedConcat(s, HostEffects(kind, c), Rotations(steps));
  }

  /** A load is allowed where its kind is: with no session, for a waiting session, or while rolling back. */
  lemma LoadAllowed(s: State, kind: LoadKind, load: Load)
    requires s.cfg.Some? ==> MayLoad(s, kind, s.cfg.value)
    ensures AllAllowed(s, LoadPlan(s, kind, load).effects)
  {
    var p := LoadPlan(s, kind, load);
    if p.result == Ok {
      FullLoadAllowed(s, kind, s.cfg.value);
    } else if p.effects != [] {
      DoOne(s, p.effects[0]);
    }
  }

  lemma LoadRun(s: State, kind: LoadKind, load: Load)
    ensures var p := LoadPlan(s, kind, load); var r := DoAll(s, p.effects);
            if p.result == Ok then s.cfg.Some? && r == Loaded(s, kind, s.cfg.value)
            else r == s || (s.cfg.Some? && r == Do(s, LoadFirewall(s.cfg.value, kind)))
  {
    var p := LoadPlan(s, kind, load);
    if p.result == Ok {
      FullLoadRun(s, kind, s.cfg.value, RecordSteps(s.hist, s.cfg.value));
    } else if p.effects != [] {
      DoOne(s, p.effects[0]);
    }
  }

  // ---- Rollback ----

  // The rejected config a rollback keeps: what config.yaml holds unless that is the baseline.
  function Kept(s: State): Option<Config>
  {
    if s.cfg.Some? && s.cfg != s.snap[0] then s.cfg else s.reverted
  }

  function Restored(s: State, x: Session, reason: Reason): State
  {
    s.(armed := s.armed - {x.token}, began := s.began + {x.token}, session := Some(Begun(x, reason)),
       reverted := Kept(s), cfg := s.snap[0], hist := s.snap)
  }

  lemma KeepAndWriteRun(s: State, keep: seq<Effect>, base: Config)
    requires Some(base) == s.snap[0]
    requires keep == if s.cfg.Some? && s.cfg != s.snap[0] then [KeepRejected(s.cfg.value)] else []
    ensures DoAll(s, keep + [WriteConfig(base)]) == s.(reverted := Kept(s), cfg := s.snap[0])
    ensures AllAllowed(s, keep + [WriteConfig(base)])
  {
    if keep == [] {
      assert keep + [WriteConfig(base)] == [WriteConfig(base)];
      DoOne(s, WriteConfig(base));
    } else {
      DoTwo(s, keep[0], WriteConfig(base));
      assert keep + [WriteConfig(base)] == [keep[0], WriteConfig(base)];
    }
  }

  lemma RestoreRun(s: State)
    requires s.session.Some? && s.session.value.phase != Active && s.snap[0].Some?
    ensures RestorePlan(s).result == Ok
    ensures DoAll(s, RestorePlan(s).effects) == s.(reverted := Kept(s), cfg := s.snap[0], hist := s.snap)
    ensures AllAllowed(s, RestorePlan(s).effects)
  {
    var keep := if s.cfg.Some? && s.cfg != s.snap[0] then [KeepRejected(s.cfg.value)] else [];
    var first := keep + [WriteConfig(s.snap[0].value)];
    KeepAndWriteRun(s, keep, s.snap[0].value);
    var s2 := s.(reverted := Kept(s), cfg := s.snap[0]);
    CopyBackRun(s2, s.snap, 0);
    CopyBackAllowed(s2, s.snap, 0);
    assert s.hist[..0] + s.snap[0..] == s.snap;
    DoAllConcat(s, first, CopyBack(s.snap, 0));
    AllAllowedConcat(s, first, CopyBack(s.snap, 0));
  }

  lemma RollbackStartRun(s: State, x: Session, reason: Reason)
    requires Inv(s) && s.session == Some(x) && reason != NoReason
    ensures RestorePlan(s).result == Ok
    ensures DoAll(s, RollbackStart(s, x, reason)) == Restored(s, x, reason)
    ensures AllAllowed(s, RollbackStart(s, x, reason))
  {
    var stop, write := StopTimer(x.token, true), WriteSession(Begun(x, reason));
    DoTwo(s, stop, write);
    var s1 := Do(s, stop);
    var s2 := Do(s1, write);
    AllowedKeeps(s, stop);
    AllowedKeeps(s1, write);
    assert s.owner[x.token := s.started] == s.owner;
    assert s2 == s.(armed := s.armed - {x.token}, began := s.began + {x.token}, session := Some(Begun(x, reason)));
    RestoreRun(s2);
    assert RestorePlan(s2) == RestorePlan(s);
    DoAllConcat(s, [stop, write], RestorePlan(s).effects);
    AllAllowedConcat(s, [stop, write], RestorePlan(s).effects);
  }

  // The state with the baseline back on the host.
  predicate Reloaded(s: State, r: State)
  {
    && r == s.(fw := r.fw, geo := r.geo, wg := r.wg, applied := r.applied, onTrial := r.onTrial)
    && (r.onTrial ==> s.onTrial && r.fw == s.fw)
    && (r.applied == s.applied || r.applied == s.snap[0])
  }

  lemma {:induction false} RetryRun(s: State, tries: seq<Load>)
    requires s.session.Some? && s.session.value.phase != Active
    requires s.snap[0].Some? && s.snap[0].value.valid && s.cfg == s.snap[0] && s.hist == s.snap
    ensures var p := RetryPlan(s, tries); var r := DoAll(s, p.effects);
            && AllAllowed(s, p.effects)
            && Reloaded(s, r)
            && (p.result == Ok <==> Full in tries)
            && (p.result == Ok ==> r.fw == r.wg == r.applied == s.snap[0] && r.geo == GeoSets(s.snap[0].value) && !r.onTrial)
    decreases |tries|
  {
    if tries != [] {
      var p := LoadPlan(s, Back, tries[0]);
      var s1 := DoAll(s, p.effects);
      LoadAllowed(s, Back, tries[0]);
      LoadRun(s, Back, tries[0]);
      if p.result == Ok {
        assert RecordSteps(s.hist, s.cfg.value) == [];
      } else {
        RetryRun(s1, tries[1..]);
        var q := RetryPlan(s1, tries[1..]);
        AllAllowedConcat(s, p.effects, q.effects);
        DoAllConcat(s, p.effects, q.effects);
        assert tries == [tries[0]] + tries[1..];
      }
    }
  }

  // How a rollback ends, given how it started.
  function RolledBack(s: State, reason: Reason, restoreEdits: bool): State
  {
    if reason == FailedApply && restoreEdits then Do(Do(s, RestoreEdits), DropSession(Reverted))
    else Do(Do(s, WriteLastRevert(reason)), DropSession(Reverted))
  }

  lemma RollbackEndRun(s: State, reason: Reason, restoreEdits: bool)
    requires s.session.Some? && !s.onTrial && s.hist == s.snap && s.applied == s.snap[0]
    ensures DoAll(s, RollbackEnd(reason, restoreEdits)) == RolledBack(s, reason, restoreEdits)
    ensures AllAllowed(s, RollbackEnd(reason, restoreEdits))
  {
    var es := RollbackEnd(reason, restoreEdits);
    DoTwo(s, es[0], es[1]);
  }

  // What a rollback leaves when no attempt loads everything.
  function Stuck(s: State, x: Session): State
  {
    s.(session := Some(x.(phase := Failed)))
  }

  // What comes after the attempts to reload.
  lemma RollbackTailRun(back: State, x: Session, restoreEdits: bool, ok: bool)
    requires back.session == Some(x) && x.phase == RollingBack && x.reason != NoReason
    requires x.token in back.owner && back.owner[x.token] == back.started
    requires ok ==> !back.onTrial && back.hist == back.snap && back.applied == back.snap[0]
    ensures var last := if ok then RollbackEnd(x.reason, restoreEdits) else [WriteSession(x.(phase := Failed))];
            && AllAllowed(back, last)
            && DoAll(back, last) == if ok then RolledBack(back, x.reason, restoreEdits) else Stuck(back, x)
  {
    if ok {
      RollbackEndRun(back, x.reason, restoreEdits);
    } else {
      var w := WriteSession(x.(phase := Failed));
      assert [w][1..] == [];
      assert back.owner[x.token := back.started] == back.owner;
    }
  }

  // The state once a rollback's attempts to reload are over.
  function AfterRetries(s: State, x: Session, reason: Reason, tries: seq<Load>): State
  {
    var mid := Restored(s, x, reason);
    DoAll(mid, RetryPlan(mid, tries).effects)
  }

  /** A rollback keeps the discipline, and finishes exactly when one of its attempts loads everything. */
  lemma RollbackRun(s: State, x: Session, reason: Reason, restoreEdits: bool, tries: seq<Load>)
    requires Inv(s) && s.session == Some(x) && reason != NoReason
    ensures var p := RollbackPlan(s, x, reason, restoreEdits, tries); var back := AfterRetries(s, x, reason, tries);
            && AllAllowed(s, p.effects)
            && (p.result == Ok <==> Full in tries)
            && (p.result == Ok || p.result == RollbackFailed)
            && Reloaded(Restored(s, x, reason), back)
            && (p.result == Ok ==> back.fw == back.wg == back.applied == s.snap[0] && back.geo == GeoSets(s.snap[0].value) && !back.onTrial)
            && DoAll(s, p.effects) == if p.result == Ok then RolledBack(back, Begun(x, reason).reason, restoreEdits) else Stuck(back, Begun(x, reason))
  {
    var start := RollbackStart(s, x, reason);
    var mid := Restored(s, x, reason);
    RollbackStartRun(s, x, reason);
    var retry := RetryPlan(mid, tries);
    RetryRun(mid, tries);
    AllAllowedConcat(s, start, retry.effects);
    DoAllConcat(s, start, retry.effects);
    var ok := retry.result == Ok;
    var last := if ok then RollbackEnd(Begun(x, reason).reason, restoreEdits) else [WriteSession(Begun(x, reason).(phase := Failed))];
    RollbackTailRun(DoAll(mid, retry.effects), Begun(x, reason), restoreEdits, ok);
    AllAllowedConcat(s, start + retry.effects, last);
    DoAllConcat(s, start + retry.effects, last);
  }

  lemma RolledBackFields(s: State, reason: Reason, restoreEdits: bool)
    ensures var r := RolledBack(s, reason, restoreEdits);
            && r.session == None && r.onTrial == s.onTrial && r.hist == s.hist && r.applied == s.applied
            && r.fw == s.fw && r.wg == s.wg && r.geo == s.geo
            && (if reason == FailedApply && restoreEdits
                then r.cfg == (if s.reverted.Some? then s.reverted else s.cfg) && r.reverted == None
                else r.cfg == s.cfg && r.reverted == s.reverted && r.lastRevert == Some(reason))
  {
  }

  /** What a finished rollback leaves. */
  lemma RollbackOutcome(s: State, x: Session, reason: Reason, restoreEdits: bool, tries: seq<Load>)
    requires Inv(s) && s.session == Some(x) && reason != NoReason && Full in tries
    ensures var p := RollbackPlan(s, x, reason, restoreEdits, tries); var r := DoAll(s, p.effects);
            && p.result == Ok
            && r.session == None && !r.onTrial && r.hist == s.snap
            && r.applied == r.fw == r.wg == s.snap[0] && r.geo == GeoSets(s.snap[0].value)
            && (if Begun(x, reason).reason == FailedApply && restoreEdits
                then r.cfg == (if Kept(s).Some? then Kept(s) else s.snap[0]) && r.reverted == None
                else r.cfg == s.snap[0] && r.reverted == Kept(s) && r.lastRevert == Some(Begun(x, reason).reason))
  {
    RollbackRun(s, x, reason, restoreEdits, tries);
    var back := AfterRetries(s, x, reason, tries);
    assert back.cfg == s.snap[0] && back.hist == s.snap && back.reverted == Kept(s);
    RolledBackFields(back, Begun(x, reason).reason, restoreEdits);
  }

  // ---- Apply ----

  // A session waiting, recorded with a new token.
  function Waiting(s: State): State
  {
    var x := Rearmed(s, SessionOf(s));
    var replaced := if s.session.Some? then {s.session.value.token} else {};
    var n := if s.session.Some? then s.started else s.started + 1;
    s.(armed := s.armed + {x.token} - replaced, nextToken := s.nextToken + 1, session := Some(x), started := n, owner := s.owner[x.token := n],
       trial := if s.session.Some? then s.trial else None,
       pre := if s.session.Some? then s.pre else s.hist,
       preApplied := if s.session.Some? then s.preApplied else s.applied)
  }

  lemma RearmRun(s: State, replaced: Option<Token>)
    requires Inv(s) && replaced == (if s.session.Some? then Some(s.session.value.token) else None)
    requires s.session.Some? ==> s.session.value.phase == Active
    requires s.session == None ==> s.snap == s.hist && KnownBaseline(s)
    ensures DoAll(s, RearmEffects(s, SessionOf(s), replaced)) == Waiting(s)
    ensures AllAllowed(s, RearmEffects(s, SessionOf(s), replaced))
  {
    var x := SessionOf(s);
    var arm, write := ArmTimer(s.nextToken), WriteSession(Rearmed(s, x));
    DoTwo(s, arm, write);
    if replaced.Some? {
      assert replaced.value < s.nextToken;
      var stop := StopTimer(x.token, false);
      DoThree(s, arm, write, stop);
      assert RearmEffects(s, x, replaced) == [arm, write, stop];
    } else {
      assert RearmEffects(s, x, replaced) == [arm, write];
    }
  }

  function WithCopies(s: State): State
  {
    s.(session := None, snap := s.hist)
  }

  lemma CopiesRun(s: State)
    requires Inv(s) && s.session == None
    ensures DoAll(s, [ClearDir] + CopyOut(s.hist, 0)) == WithCopies(s)
    ensures AllAllowed(s, [ClearDir] + CopyOut(s.hist, 0))
  {
    var s1 := Do(s, ClearDir);
    DoOne(s, ClearDir);
    CopyOutRun(s1, s.hist, 0);
    CopyOutAllowed(s1, s.hist, 0);
    assert s1.snap[..0] + s.hist[0..] == s.hist;
    DoAllConcat(s, [ClearDir], CopyOut(s.hist, 0));
    AllAllowedConcat(s, [ClearDir], CopyOut(s.hist, 0));
  }

  // The state an Apply's reload starts in.
  function Armed(s: State): State
  {
    if s.session.Some? then Waiting(s) else Waiting(WithCopies(s)).(lastRevert := None, reverted := None)
  }

  lemma ForgetRevertRun(s: State)
    ensures DoAll(s, [RemoveLastRevert, RemoveReverted]) == s.(lastRevert := None, reverted := None)
    ensures AllAllowed(s, [RemoveLastRevert, RemoveReverted])
  {
    DoTwo(s, RemoveLastRevert, RemoveReverted);
  }

  lemma FirstArmRun(s: State, copies: seq<Effect>, arm: seq<Effect>, forget: seq<Effect>)
    requires Inv(s) && s.session == None && KnownBaseline(s)
    requires copies == [ClearDir] + CopyOut(s.hist, 0) && arm == RearmEffects(s, NewSession(), None)
    requires forget == [RemoveLastRevert, RemoveReverted]
    ensures DoAll(s, copies + arm + forget) == Armed(s) && AllAllowed(s, copies + arm + forget)
  {
    CopiesRun(s);
    HoldsAfter(s, copies);
    RearmRun(WithCopies(s), None);
    DoAllConcat(s, copies, arm);
    AllAllowedConcat(s, copies, arm);
    ForgetRevertRun(Waiting(WithCopies(s)));
    DoAllConcat(s, copies + arm, forget);
    AllAllowedConcat(s, copies + arm, forget);
  }

  lemma ArmRun(s: State, hash: Option<Config>, env: Env)
    requires Inv(s)
    ensures var p := ArmPlan(s, hash, env);
            && AllAllowed(s, p.effects)
            && (p.result == Ok ==> DoAll(s, p.effects) == Armed(s) && Inv(Armed(s)))
  {
    var p := ArmPlan(s, hash, env);
    if p.result == Ok {
      if s.session.Some? {
        RearmRun(s, Some(s.session.value.token));
      } else {
        FirstArmRun(s, [ClearDir] + CopyOut(s.hist, 0), RearmEffects(s, NewSession(), None), [RemoveLastRevert, RemoveReverted]);
      }
      HoldsAfter(s, p.effects);
    } else if p.effects != [] {
      var copies := [ClearDir] + CopyOut(s.hist, 0);
      CopiesRun(s);
      DoOne(WithCopies(s), ClearDir);
      AllAllowedConcat(s, copies, [ClearDir]);
    }
  }

  lemma ApplyTailAllowed(s: State, x: Session, env: Env)
    requires Inv(s) && s.session == Some(x) && x.phase == Active
    ensures AllAllowed(s, ApplyTail(s, x, env).effects)
  {
    var l := LoadPlan(s, Trial, env.load);
    LoadAllowed(s, Trial, env.load);
    HoldsAfter(s, l.effects);
    LoadRun(s, Trial, env.load);
    var s2 := DoAll(s, l.effects);
    assert s2.session == Some(x);
    if l.result != Ok {
      RollbackRun(s2, x, FailedApply, true, env.retries);
      AllAllowedConcat(s, l.effects, RollbackPlan(s2, x, FailedApply, true, env.retries).effects);
    } else if env.rearm {
      RearmRun(s2, Some(x.token));
      AllAllowedConcat(s, l.effects, RearmEffects(s2, x, Some(x.token)));
    } else {
      assert l.effects + [] == l.effects;
    }
  }

  lemma ApplyAllowed(s: State, hash: Option<Config>, env: Env)
    requires Inv(s)
    ensures AllAllowed(s, ApplyPlan(s, hash, env).effects)
  {
    var a := ArmPlan(s, hash, env);
    ArmRun(s, hash, env);
    if a.result == Ok {
      var x := Rearmed(s, SessionOf(s));
      assert Armed(s).session == Some(x) && x.phase == Active;
      ApplyTailAllowed(Armed(s), x, env);
      AllAllowedConcat(s, a.effects, ApplyTail(Armed(s), x, env).effects);
    }
  }

  // ---- The other operations ----

  lemma OneWayCheckRun(s: State, env: Env)
    requires Inv(s)
    ensures var p := OneWayCheck(s, env); var r := DoAll(s, p.effects);
            && AllAllowed(s, p.effects) && Inv(r)
            && (p.result == Ok ==> r.session == None)
            && (p.result == Ok && s.session == None ==> r == s)
            && (p.result == Ok && s.session.Some? ==> r.cfg == r.applied == r.hist[0] == r.fw == r.wg == s.snap[0] && r.hist == s.snap)
  {
    var p := OneWayCheck(s, env);
    if p.effects != [] {
      RollbackRun(s, s.session.value, Interrupted, false, env.retries);
      HoldsAfter(s, p.effects);
      if p.result == Ok {
        RollbackOutcome(s, s.session.value, Interrupted, false, env.retries);
      }
    }
  }

  lemma ReloadAllowed(s: State, hash: Option<Config>, env: Env)
    requires Inv(s)
    ensures AllAllowed(s, ReloadPlan(s, hash, env).effects)
  {
    var p := OneWayCheck(s, env);
    OneWayCheckRun(s, env);
    var s1 := DoAll(s, p.effects);
    if p.result == Ok {
      LoadAllowed(s1, OneWay, env.load);
      AllAllowedConcat(s, p.effects, LoadPlan(s1, OneWay, env.load).effects);
    }
  }

  lemma LoadKnownAllowed(s: State, c: Config, load: Load)
    requires s.session == None
    ensures AllAllowed(s, LoadKnown(c, load).effects)
  {
    DoOne(s, LoadFirewall(c, OneWay));
    DoTwo(s, LoadFirewall(c, OneWay), LoadWireGuard(c));
  }

  lemma BootAllowed(s: State, env: Env)
    requires Inv(s)
    ensures AllAllowed(s, BootPlan(s, env).effects)
  {
    var p := OneWayCheck(s, env);
    OneWayCheckRun(s, env);
    var s1 := DoAll(s, p.effects);
    if p.result == Ok {
      LoadAllowed(s1, OneWay, env.load);
      if PreferBaseline(s1) {
        LoadKnownAllowed(s1, s1.hist[0].value, env.load);
        AllAllowedConcat(s, p.effects, LoadKnown(s1.hist[0].value, env.load).effects);
      } else {
        AllAllowedConcat(s, p.effects, LoadPlan(s1, OneWay, env.load).effects);
      }
    }
  }

  lemma ConfirmAllowed(s: State)
    requires Inv(s)
    ensures AllAllowed(s, ConfirmPlan(s).effects)
  {
    if ConfirmPlan(s).effects != [] {
      DoTwo(s, DropSession(Confirmed), StopTimer(s.session.value.token, false));
    }
  }

  lemma FileOpsAllowed(s: State, op: Op, env: Env)
    requires op.Save? || op.Discard? || op.RestorePrevious? || op.RestoreReverted? || op.Dismiss? || op.UpdateGeo? || op.InitState?
    ensures AllAllowed(s, PlanOf(s, op, env).effects)
  {
    if op.InitState? {
      if InitPlan(s).effects != [] { DoOne(s, InitPlan(s).effects[0]); }
    } else {
      HarmlessAllowed(s, PlanOf(s, op, env).effects);
    }
  }

  lemma {:induction false} HarmlessAllowed(s: State, es: seq<Effect>)
    requires forall i | 0 <= i < |es| :: Harmless(es[i])
    ensures AllAllowed(s, es)
    decreases |es|
  {
    if es != [] {
      assert Harmless(es[0]) && forall i | 0 <= i < |es[1..]| :: es[1..][i] == es[i + 1];
      HarmlessAllowed(Do(s, es[0]), es[1..]);
    }
  }

  /** Every operation, from every state, keeps to the discipline at each of its effects. */
  lemma OpAllowed(s: State, op: Op, env: Env)
    requires Inv(s)
    ensures AllAllowed(s, PlanOf(s, op, env).effects)
  {
    match op
    case Apply(hash) => ApplyAllowed(s, hash, env);
    case Reload(hash) => ReloadAllowed(s, hash, env);
    case BootReload => BootAllowed(s, env);
    case Recover => if RecoverPlan(s, env).effects != [] { RollbackRun(s, s.session.value, Interrupted, false, env.retries); }
    case Confirm => ConfirmAllowed(s);
    case Revert => if RevertPlan(s, None, env).effects != [] { RollbackRun(s, s.session.value, Manual, true, env.retries); }
    case TimerRevert(t) => if RevertPlan(s, Some(t), env).effects != [] { RollbackRun(s, s.session.value, Timeout, true, env.retries); }
    case _ => FileOpsAllowed(s, op, env);
  }
}

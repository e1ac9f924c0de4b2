/** What each operation answers and leaves, said of the state it starts in and of what the commands do. */
module ApplyOutcomes {
  import opened Common
  import opened History
  import opened ApplyState
  import opened ApplyPlans
  import opened ApplySafety
  import opened ApplyRuns
  import opened ApplyClaims

  function Ended(s: State, op: Op, env: Env): State
  {
    DoAll(s, PlanOf(s, op, env).effects)
  }

  function Answered(s: State, op: Op, env: Env): Result
  {
    PlanOf(s, op, env).result
  }

  // ---- Reverts ----

  // The baseline is everywhere, and what config.yaml held beside it is kept for the operator.
  predicate Rejected(s: State, r: State, reason: Reason)
  {
    && r.session == None && r.cfg == s.snap[0] && r.lastRevert == Some(reason)
    && r.reverted == (if s.cfg.Some? && s.cfg != s.snap[0] then s.cfg else s.reverted)
  }

  // The edits are unapplied changes again, and no revert is on record.
  predicate HandedBack(s: State, r: State)
  {
    && r.session == None && r.reverted == None && r.lastRevert == s.lastRevert
    && r.cfg == (if s.cfg.Some? && s.cfg != s.snap[0] then s.cfg else if s.reverted.Some? then s.reverted else s.snap[0])
  }

  /** A revert by hand or by the session's own timer, with a reload that works. The first reason recorded stays: only when
      that is a failed Apply do the edits go back into config.yaml. */
  lemma RevertOutcome(s: State, env: Env)
    requires Inv(s) && s.session.Some? && Full in env.retries
    ensures Answered(s, Revert, env) == Answered(s, TimerRevert(s.session.value.token), env) == Ok
    ensures s.session.value.reason == NoReason ==>
              && Rejected(s, Ended(s, Revert, env), Manual)
              && Rejected(s, Ended(s, TimerRevert(s.session.value.token), env), Timeout)
    ensures s.session.value.reason !in {NoReason, FailedApply} ==>
              && Rejected(s, Ended(s, Revert, env), s.session.value.reason)
              && Rejected(s, Ended(s, TimerRevert(s.session.value.token), env), s.session.value.reason)
    ensures s.session.value.reason == FailedApply ==>
              && HandedBack(s, Ended(s, Revert, env))
              && HandedBack(s, Ended(s, TimerRevert(s.session.value.token), env))
  {
    OneRevert(s, None, env);
    OneRevert(s, Some(s.session.value.token), env);
  }

  lemma OneRevert(s: State, token: Option<Token>, env: Env)
    requires Inv(s) && s.session.Some? && Full in env.retries && (token.Some? ==> token.value == s.session.value.token)
    ensures var p := RevertPlan(s, token, env); var r := DoAll(s, p.effects);
            && p.result == Ok
            && match s.session.value.reason
               case NoReason => Rejected(s, r, if token.Some? then Timeout else Manual)
               case FailedApply => HandedBack(s, r)
               case first => Rejected(s, r, first)
  {
    var reason := if token.Some? then Timeout else Manual;
    RollbackOutcome(s, s.session.value, reason, true, env.retries);
    if s.session.value.reason == FailedApply {
      FailedApplyHandsBack(s, s.session.value, reason, env.retries);
    }
  }

  lemma FailedApplyHandsBack(s: State, x: Session, reason: Reason, tries: seq<Load>)
    requires Inv(s) && s.session == Some(x) && x.reason == FailedApply && reason != NoReason && Full in tries
    ensures HandedBack(s, DoAll(s, RollbackPlan(s, x, reason, true, tries).effects))
  {
    RollbackRun(s, x, reason, true, tries);
    RollbackOutcome(s, x, reason, true, tries);
    KeepsLastRevert(AfterRetries(s, x, reason, tries));
  }

  lemma KeepsLastRevert(s: State)
    ensures RolledBack(s, FailedApply, true).lastRevert == s.lastRevert
  {
  }

  /** A timer whose token is not the session's finds nothing to revert. */
  lemma OtherTimersDoNothing(s: State, t: Token, env: Env)
    requires s.session == None || s.session.value.token != t
    ensures PlanOf(s, TimerRevert(t), env) == Plan([], NoSession)
    ensures s.session == None ==> PlanOf(s, Revert, env) == Plan([], NoSession)
  {
  }

  // ---- Waiting sessions and one-way reloads ----

  /** While a session waits in the boot it was armed in, and systemctl does not call its timer dead, nothing one-way gets
      past it: a reload and a boot load are refused without an effect, and a recovery leaves it alone. */
  lemma LiveSessionRefuses(s: State, hash: Option<Config>, env: Env)
    requires s.session.Some? && s.session.value.phase == Active && s.boot == s.session.value.boot && env.answer != Dead
    ensures PlanOf(s, Reload(hash), env) == PlanOf(s, BootReload, env) == Plan([], SessionActive)
    ensures PlanOf(s, Recover, env) == Plan([], Ok)
  {
  }

  // The session outlived its timer, or a revert of it did not finish.
  predicate LeftOver(s: State, env: Env)
  {
    s.session.Some? && (s.session.value.phase != Active || s.boot != s.session.value.boot || env.answer == Dead)
  }

  // What the host and the records are after a session was taken back; loading the baseline again changes nothing of it.
  predicate TakenBack(s: State, r: State)
  {
    && Rejected(s, r, if s.session.Some? && s.session.value.reason != NoReason then s.session.value.reason else Interrupted)
    && r.hist == s.snap && r.applied == r.fw == r.wg == s.snap[0] && !r.onTrial
  }

  /** A session left over is taken back by all three, with a reload that works: the rejected edits are kept, also those of a
      failed Apply, because nobody is there to see them in config.yaml. */
  lemma LeftOverIsTakenBack(s: State, hash: Option<Config>, env: Env)
    requires Inv(s) && LeftOver(s, env) && Full in env.retries
    ensures TakenBack(s, Ended(s, Recover, env)) && Answered(s, Recover, env) == Ok
    ensures TakenBack(s, Ended(s, Reload(hash), env)) && Answered(s, Reload(hash), env) !in {SessionActive, RollbackFailed}
    ensures TakenBack(s, Ended(s, BootReload, env)) && Answered(s, BootReload, env) !in {SessionActive, RollbackFailed}
  {
    var x := s.session.value;
    RollbackOutcome(s, x, Interrupted, false, env.retries);
    var s1 := DoAll(s, RollbackPlan(s, x, Interrupted, false, env.retries).effects);
    assert TakenBack(s, s1);
    ReloadAfterwards(s, s1, hash, env);
    BootAfterwards(s, s1, env);
  }

  lemma ReloadAfterwards(s: State, s1: State, hash: Option<Config>, env: Env)
    requires OneWayCheck(s, env).result == Ok && s1 == DoAll(s, OneWayCheck(s, env).effects) && TakenBack(s, s1) && s.snap[0].Some?
    ensures TakenBack(s, Ended(s, Reload(hash), env)) && Answered(s, Reload(hash), env) !in {SessionActive, RollbackFailed}
  {
    StillTakenBack(s, s1, s.snap[0].value, env.load);
    DoAllConcat(s, OneWayCheck(s, env).effects, LoadPlan(s1, OneWay, env.load).effects);
  }

  lemma BootAfterwards(s: State, s1: State, env: Env)
    requires OneWayCheck(s, env).result == Ok && s1 == DoAll(s, OneWayCheck(s, env).effects) && TakenBack(s, s1) && s.snap[0].Some?
    ensures TakenBack(s, Ended(s, BootReload, env)) && Answered(s, BootReload, env) !in {SessionActive, RollbackFailed}
  {
    StillTakenBack(s, s1, s.snap[0].value, env.load);
    DoAllConcat(s, OneWayCheck(s, env).effects, LoadPlan(s1, OneWay, env.load).effects);
    DoAllConcat(s, OneWayCheck(s, env).effects, LoadKnown(s.snap[0].value, env.load).effects);
  }

  lemma StillTakenBack(s: State, s1: State, c: Config, load: Load)
    requires TakenBack(s, s1) && s.snap[0] == Some(c)
    ensures TakenBack(s, DoAll(s1, LoadPlan(s1, OneWay, load).effects)) && TakenBack(s, DoAll(s1, LoadKnown(c, load).effects))
  {
    LoadRun(s1, OneWay, load);
    assert RecordSteps(s1.hist, c) == [];
    DoOne(s1, LoadFirewall(c, OneWay));
    DoTwo(s1, LoadFirewall(c, OneWay), LoadWireGuard(c));
  }

  /** And when no attempt works it stays on disk, marked failed, whoever tried. */
  lemma FailedRevertStays(s: State, op: Op, env: Env)
    requires Inv(s) && s.session.Some? && Full !in env.retries
    requires op == Revert || op == TimerRevert(s.session.value.token) || (LeftOver(s, env) && (op.Recover? || op.Reload? || op.BootReload?))
    ensures Answered(s, op, env) == RollbackFailed
    ensures var r := Ended(s, op, env); r.session.Some? && r.session.value.phase == Failed && r.session.value.token == s.session.value.token
  {
    var x := s.session.value;
    var reason := if op == Revert then Manual else if op.TimerRevert? then Timeout else Interrupted;
    RollbackRun(s, x, reason, op == Revert || op.TimerRevert?, env.retries);
  }

  // ---- Loads without a session ----

  // .bak is what was applied last and could be applied again.
  predicate Known(s: State)
  {
    s.hist[0].Some? && s.applied == s.hist[0] && s.hist[0].value.valid
  }

  // config.yaml is on the host and in the records, and whatever was in .bak has moved down when it was something else.
  predicate AppliedOneWay(s: State, r: State)
  {
    && s.cfg.Some? && r.fw == r.wg == r.applied == r.hist[0] == r.cfg == s.cfg && r.geo == GeoSets(s.cfg.value)
    && (s.hist[0].Some? && s.hist[0] != s.cfg ==> r.hist[1..] == s.hist[..5])
    && (s.hist[0] == None || s.hist[0] == s.cfg ==> r.hist[1..] == s.hist[1..])
    && r.session == s.session && r.reverted == s.reverted && r.lastRevert == s.lastRevert
  }

  // Files, records and WireGuard are as before.
  predicate NothingRecorded(s: State, r: State)
  {
    && r.cfg == s.cfg && r.hist == s.hist && r.applied == s.applied && r.wg == s.wg
    && r.session == s.session && r.reverted == s.reverted && r.lastRevert == s.lastRevert
  }

  /** A one-way load of config.yaml succeeds exactly when it is valid and everything loads; then it is applied and recorded.
      One that fails records nothing, and changes the tables only when it got as far as WireGuard. */
  lemma LoadOutcome(s: State, load: Load)
    ensures var p := LoadPlan(s, OneWay, load); var r := DoAll(s, p.effects);
            && (p.result == Ok <==> s.cfg.Some? && s.cfg.value.valid && load == Full)
            && (p.result != Ok ==> p.result == LoadFailed && NothingRecorded(s, r))
            && (p.result == Ok ==> AppliedOneWay(s, r))
            && (p.result != Ok ==> r.fw == if s.cfg.Some? && s.cfg.value.valid && load == FirewallOnly then s.cfg else s.fw)
  {
    LoadRun(s, OneWay, load);
    if LoadPlan(s, OneWay, load).result == Ok {
      RecordWhole(s.hist, s.cfg.value);
    } else if LoadPlan(s, OneWay, load).effects != [] {
      DoOne(s, LoadFirewall(s.cfg.value, OneWay));
    }
  }

  /** At whatever point a load is cut: the hash names a new config only when that one is on the host, and the history changes
      only when the hash names it. */
  lemma {:induction false} RecordsFollowTheHost(s: State, kind: LoadKind, load: Load, k: nat)
    requires k <= |LoadPlan(s, kind, load).effects|
    ensures var r := DoAll(s, LoadPlan(s, kind, load).effects[..k]);
            && (r.applied != s.applied ==> r.fw == r.wg == r.applied == s.cfg)
            && (r.hist != s.hist ==> r.fw == r.wg == r.applied == s.cfg)
            && (r.wg != s.wg ==> r.fw == s.cfg)
  {
    var p := LoadPlan(s, kind, load);
    if p.result == Ok {
      FullLoadCut(s, kind, s.cfg.value, RecordSteps(s.hist, s.cfg.value), k);
    } else if k > 0 {
      assert p.effects[..k] == [LoadFirewall(s.cfg.value, kind)];
      DoOne(s, LoadFirewall(s.cfg.value, kind));
    }
  }

  lemma {:induction false} FullLoadCut(s: State, kind: LoadKind, c: Config, steps: seq<Step<Config>>, k: nat)
    requires k <= 3 + |steps|
    ensures var r := DoAll(s, (HostEffects(kind, c) + Rotations(steps))[..k]);
            && (r.applied != s.applied ==> r.fw == r.wg == r.applied == Some(c))
            && (r.hist != s.hist ==> r.fw == r.wg == r.applied == Some(c))
            && (r.wg != s.wg ==> r.fw == Some(c))
  {
    var host, all := HostEffects(kind, c), HostEffects(kind, c) + Rotations(steps);
    HostRun(s, kind, c);
    if k >= 3 {
      assert all[..k] == host + Rotations(steps[..k - 3]);
      DoAllConcat(s, host, Rotations(steps[..k - 3]));
      RotationsRun(HostLoaded(s, kind, c), steps[..k - 3]);
    } else if k == 2 {
      assert all[..k] == [LoadFirewall(c, kind), LoadWireGuard(c)];
      DoTwo(s, LoadFirewall(c, kind), LoadWireGuard(c));
    } else if k == 1 {
      assert all[..k] == [LoadFirewall(c, kind)];
      DoOne(s, LoadFirewall(c, kind));
    } else {
      assert all[..k] == [];
    }
  }

  /** A reload without a session: refused for another file than the one named, and otherwise a load of config.yaml. */
  lemma ReloadOutcome(s: State, hash: Option<Config>, env: Env)
    requires s.session == None
    ensures var r, answer := Ended(s, Reload(hash), env), Answered(s, Reload(hash), env);
            && (answer == HashMismatch <==> hash.Some? && s.cfg != hash)
            && (answer == HashMismatch ==> r == s)
            && (answer == Ok <==> (hash == None || s.cfg == hash) && s.cfg.Some? && s.cfg.value.valid && env.load == Full)
            && (answer == Ok ==> AppliedOneWay(s, r))
            && (answer !in {Ok, HashMismatch} ==> answer == LoadFailed && NothingRecorded(s, r))
  {
    LoadOutcome(s, env.load);
    var l := LoadPlan(s, OneWay, env.load);
    assert [] + l.effects == l.effects;
  }

  /** A boot without a session. Where .bak is known to be the config applied last and asks for confirmation, that is what
      loads and the records stay; where it does not ask, or is not known to be that, config.yaml loads and is recorded. */
  lemma BootOutcome(s: State, env: Env)
    requires s.session == None
    ensures var r, answer := Ended(s, BootReload, env), Answered(s, BootReload, env);
            if Known(s) && s.hist[0].value.confirm then
              && (answer == Ok <==> env.load == Full) && (answer != Ok ==> answer == LoadFailed)
              && r.hist == s.hist && r.applied == s.applied && r.cfg == s.cfg && (answer == Ok ==> r.fw == r.wg == s.hist[0])
            else
              && (answer == Ok <==> s.cfg.Some? && s.cfg.value.valid && env.load == Full)
              && (answer == Ok ==> AppliedOneWay(s, r)) && (answer != Ok ==> answer == LoadFailed && NothingRecorded(s, r))
  {
    if Known(s) && s.hist[0].value.confirm {
      var l := LoadKnown(s.hist[0].value, env.load);
      assert [] + l.effects == l.effects;
      KnownOutcome(s, s.hist[0].value, env.load);
    } else {
      LoadOutcome(s, env.load);
      var l := LoadPlan(s, OneWay, env.load);
      assert [] + l.effects == l.effects;
    }
  }

  lemma KnownOutcome(s: State, c: Config, load: Load)
    ensures var p := LoadKnown(c, load); var r := DoAll(s, p.effects);
            && (p.result == Ok <==> load == Full) && (p.result != Ok ==> p.result == LoadFailed)
            && r == s.(fw := r.fw, geo := r.geo, wg := r.wg, onTrial := r.onTrial) && (p.result == Ok ==> r.fw == r.wg == Some(c))
  {
    DoOne(s, LoadFirewall(c, OneWay));
    DoTwo(s, LoadFirewall(c, OneWay), LoadWireGuard(c));
  }

  /** At API start, a host without a record of what is applied takes config.yaml for it. */
  lemma InitOutcome(s: State, env: Env)
    ensures var r, answer := Ended(s, InitState, env), Answered(s, InitState, env);
            && r == s.(applied := if s.applied.Some? then s.applied else s.cfg)
            && (answer == Ok <==> r.applied.Some?)
  {
    if s.applied == None && s.cfg.Some? {
      DoOne(s, InitHash(s.cfg.value));
    }
  }

  // ---- Applies ----

  // An Apply of the file named by hash may begin.
  predicate MayApply(s: State, hash: Option<Config>)
  {
    && (s.session.Some? ==> s.session.value.phase == Active)
    && (hash == None || s.cfg == hash)
    && (s.session == None ==> Known(s))
  }

  predicate Loads(s: State, env: Env)
  {
    s.cfg.Some? && s.cfg.value.valid && env.load == Full
  }

  /** Which answer an Apply gives, exactly. */
  lemma ApplyAnswer(s: State, hash: Option<Config>, env: Env)
    requires Inv(s)
    ensures var answer := Answered(s, Apply(hash), env);
            && (answer == HashMismatch <==> (s.session.Some? ==> s.session.value.phase == Active) && hash.Some? && s.cfg != hash)
            && (answer == NoBaseline <==> s.session == None && (hash == None || s.cfg == hash) && !Known(s))
            && (answer == Unavailable <==> MayApply(s, hash) && !env.arm)
            && (answer == Ok <==> MayApply(s, hash) && env.arm && Loads(s, env))
            && (answer == LoadFailed <==> MayApply(s, hash) && env.arm && !Loads(s, env) && Full in env.retries)
            && (answer == RollbackFailed <==>
                  || (s.session.Some? && s.session.value.phase != Active)
                  || (MayApply(s, hash) && env.arm && !Loads(s, env) && Full !in env.retries))
  {
    var a := ArmPlan(s, hash, env);
    if a.result == Ok {
      ArmRun(s, hash, env);
      TailAnswer(Armed(s), Rearmed(s, SessionOf(s)), env);
    }
  }

  lemma TailAnswer(s: State, x: Session, env: Env)
    requires Inv(s) && s.session == Some(x) && x.phase == Active
    ensures ApplyTail(s, x, env).result == if Loads(s, env) then Ok else if Full in env.retries then LoadFailed else RollbackFailed
  {
    if !Loads(s, env) {
      LoadLeavesFiles(s, x, env.load);
      RollbackRun(DoAll(s, LoadPlan(s, Trial, env.load).effects), x, FailedApply, true, env.retries);
    }
  }

  /** An Apply that is refused changes nothing; one that finds no timer to arm leaves at most an empty session directory. */
  lemma RefusedApply(s: State, hash: Option<Config>, env: Env)
    requires Inv(s) && !(MayApply(s, hash) && env.arm)
    ensures var r := Ended(s, Apply(hash), env); r == s.(snap := r.snap) && (r.snap == s.snap || (s.session == None && r.snap == NoFiles()))
  {
    if MayApply(s, hash) && s.session == None {
      var copies := [ClearDir] + CopyOut(s.hist, 0);
      CopiesRun(s);
      DoAllConcat(s, copies, [ClearDir]);
      DoOne(WithCopies(s), ClearDir);
    }
  }

  // Effects that prepare a session: the copies and the timer.
  predicate Prepares(es: seq<Effect>)
  {
    forall i | 0 <= i < |es| :: es[i].ClearDir? || es[i].CopyBaseline? || es[i].ArmTimer?
  }

  lemma {:induction false} OnlyPrepared(s: State, es: seq<Effect>)
    requires s.session == None && Prepares(es)
    ensures var r := DoAll(s, es); r == s.(snap := r.snap, armed := r.armed, nextToken := r.nextToken)
    decreases |es|
  {
    if es != [] {
      assert es[0].ClearDir? || es[0].CopyBaseline? || es[0].ArmTimer?;
      assert Prepares(es[1..]) by { assert forall i | 0 <= i < |es[1..]| :: es[1..][i] == es[i + 1]; }
      OnlyPrepared(Do(s, es[0]), es[1..]);
    }
  }

  lemma {:induction false} CopiesPrepare(hist: Chain<Config>, i: nat)
    requires i <= SLOTS
    ensures Prepares(CopyOut(hist, i))
    decreases SLOTS - i
  {
    if i < SLOTS { CopiesPrepare(hist, i + 1); }
  }

  /** Wherever a first Apply is cut before its reload, as long as no session is on disk there is nothing of it but copies and
      a timer: in particular what an earlier revert kept is forgotten only afterwards. */
  lemma FirstApplyCut(s: State, hash: Option<Config>, env: Env, k: nat)
    requires Inv(s) && s.session == None && k <= |ArmPlan(s, hash, env).effects|
    ensures var r := DoAll(s, ArmPlan(s, hash, env).effects[..k]);
            r.session == None ==> r == s.(snap := r.snap, armed := r.armed, nextToken := r.nextToken)
  {
    var es := ArmPlan(s, hash, env).effects;
    var copies := [ClearDir] + CopyOut(s.hist, 0);
    CopiesPrepare(s.hist, 0);
    if es != [] && env.arm {
      var front, back := copies + [ArmTimer(s.nextToken)], [WriteSession(Rearmed(s, NewSession())), RemoveLastRevert, RemoveReverted];
      assert es == front + back;
      if k <= |front| {
        assert es[..k] == front[..k];
        OnlyPrepared(s, es[..k]);
      } else {
        assert es[..k] == front + back[..k - |front|];
        DoAllConcat(s, front, back[..k - |front|]);
        SessionOnceWritten(DoAll(s, front), Rearmed(s, NewSession()), k - |front|);
      }
    } else if es != [] {
      assert es == copies + [ClearDir];
      OnlyPrepared(s, es[..k]);
    }
  }

  lemma SessionOnceWritten(s: State, x: Session, k: nat)
    requires 1 <= k <= 3
    ensures DoAll(s, [WriteSession(x), RemoveLastRevert, RemoveReverted][..k]).session == Some(x)
  {
    var w := WriteSession(x);
    if k == 1 {
      assert [w, RemoveLastRevert, RemoveReverted][..k] == [w];
      DoOne(s, w);
    } else if k == 2 {
      assert [w, RemoveLastRevert, RemoveReverted][..k] == [w, RemoveLastRevert];
      DoTwo(s, w, RemoveLastRevert);
    } else {
      assert [w, RemoveLastRevert, RemoveReverted][..k] == [w, RemoveLastRevert, RemoveReverted];
      DoThree(s, w, RemoveLastRevert, RemoveReverted);
    }
  }

  // c is on trial: it is on the host and in the records, a session of this boot waits with a timer of its own, and what it
  // goes back to is what a session went back to before, or else what was applied last.
  predicate OnTrial(s: State, r: State)
  {
    && r.fw == r.wg == r.applied == r.hist[0] == r.cfg == s.cfg && r.onTrial
    && r.session.Some? && r.session.value.phase == Active && r.session.value.reason == NoReason && r.session.value.boot == s.boot
    && r.session.value.token in r.armed && r.session.value.token >= s.nextToken
    && r.snap == (if s.session.Some? then s.snap else s.hist)
    && r.reverted == (if s.session.Some? then s.reverted else None) && r.lastRevert == (if s.session.Some? then s.lastRevert else None)
  }

  /** A successful Apply puts config.yaml on trial, stops the timer it replaces, and leaves one new timer armed: the one armed
      anew after the load, when that could be armed, so that a slow load uses up none of the time to answer. */
  lemma AppliedOutcome(s: State, hash: Option<Config>, env: Env)
    requires Inv(s) && Answered(s, Apply(hash), env) == Ok
    ensures OnTrial(s, Ended(s, Apply(hash), env)) && OneTimerMore(s, Ended(s, Apply(hash), env))
    ensures Ended(s, Apply(hash), env).session.value.token == if env.rearm then s.nextToken + 1 else s.nextToken
  {
    var a := ArmPlan(s, hash, env);
    var s1, x := Armed(s), Rearmed(s, SessionOf(s));
    ApplyAnswer(s, hash, env);
    ArmRun(s, hash, env);
    TrialOutcome(s1, x, env);
    DoAllConcat(s, a.effects, ApplyTail(s1, x, env).effects);
    var l := Loaded(s1, Trial, s1.cfg.value);
    LoadedIsOnTrial(s, l);
    if env.rearm {
      RearmedIsOnTrial(s, l);
    }
  }

  ghost predicate OneTimerMore(s: State, r: State)
  {
    r.session.Some? && r.armed == s.armed - (if s.session.Some? then {s.session.value.token} else {}) + {r.session.value.token}
  }

  lemma LoadedIsOnTrial(s: State, r: State)
    requires Inv(s) && (s.session.Some? ==> s.session.value.phase == Active) && s.cfg.Some?
    requires r == Loaded(Armed(s), Trial, s.cfg.value) && r.hist[0] == s.cfg
    ensures OnTrial(s, r) && OneTimerMore(s, r) && r.nextToken == s.nextToken + 1
  {
    assert s.nextToken !in s.armed;
  }

  lemma RearmedIsOnTrial(s: State, l: State)
    requires OnTrial(s, l) && OneTimerMore(s, l) && l.nextToken > l.session.value.token && l.boot == s.boot
    requires l.session.value.token !in s.armed && forall t | t in s.armed :: t < l.nextToken
    ensures OnTrial(s, Waiting(l)) && OneTimerMore(s, Waiting(l))
  {
  }

  // The reload of an Apply and the timer armed anew after it.
  lemma TrialOutcome(s: State, x: Session, env: Env)
    requires Inv(s) && s.session == Some(x) && x.phase == Active && Loads(s, env)
    ensures var c := s.cfg.value; var l := Loaded(s, Trial, c);
            DoAll(s, ApplyTail(s, x, env).effects) == if env.rearm then Waiting(l) else l
    ensures Loaded(s, Trial, s.cfg.value).hist[0] == s.cfg
  {
    var l := LoadPlan(s, Trial, env.load);
    LoadRun(s, Trial, env.load);
    RecordWhole(s.hist, s.cfg.value);
    LoadAllowed(s, Trial, env.load);
    HoldsAfter(s, l.effects);
    var s2 := DoAll(s, l.effects);
    if env.rearm {
      RearmRun(s2, Some(x.token));
    }
    DoAllConcat(s, l.effects, if env.rearm then RearmEffects(s2, x, Some(x.token)) else []);
  }

  /** A confirmation ends a waiting session and stops its timer, and changes neither the host, config.yaml nor the records. */
  lemma ConfirmOutcome(s: State, env: Env)
    ensures var r, answer := Ended(s, Confirm, env), Answered(s, Confirm, env);
            && (answer == NoSession <==> s.session == None)
            && (answer == RollbackFailed <==> s.session.Some? && s.session.value.phase != Active)
            && (answer == Ok <==> s.session.Some? && s.session.value.phase == Active)
            && (answer != Ok ==> r == s)
            && (answer == Ok ==> r.session == None && r.snap == NoFiles() && r.armed == s.armed - {s.session.value.token} && !r.onTrial)
            && r.cfg == s.cfg && r.hist == s.hist && r.applied == s.applied && r.fw == s.fw && r.wg == s.wg && r.geo == s.geo
            && r.reverted == s.reverted && r.lastRevert == s.lastRevert
  {
    if s.session.Some? && s.session.value.phase == Active {
      DoTwo(s, DropSession(Confirmed), StopTimer(s.session.value.token, false));
    }
  }

  // ---- config.yaml ----

  /** A save replaces config.yaml by a valid config, and nothing else ever. */
  lemma SaveOutcome(s: State, c: Config, env: Env)
    ensures Ended(s, Save(c), env) == s.(cfg := if c.valid then Some(c) else s.cfg)
    ensures Answered(s, Save(c), env) == if c.valid then Ok else Invalid
  {
    DoOne(s, WriteConfig(c));
  }

  /** Discarding pending edits: config.yaml is .bak again, when there are both, they differ, and .bak is valid. */
  lemma DiscardOutcome(s: State, env: Env)
    ensures var answer := Answered(s, Discard, env);
            && Ended(s, Discard, env) == s.(cfg := if answer == Ok then s.hist[0] else s.cfg)
            && (answer == NoSnapshot <==> s.hist[0] == None || s.cfg == None)
            && (answer == NothingPending <==> s.cfg.Some? && s.cfg == s.hist[0])
            && (answer == Ok <==> s.cfg.Some? && s.hist[0].Some? && s.cfg != s.hist[0] && s.hist[0].value.valid)
            && (answer == Invalid <==> s.cfg.Some? && s.hist[0].Some? && s.cfg != s.hist[0] && !s.hist[0].value.valid)
  {
    if DiscardPlan(s).result == Ok {
      DoOne(s, WriteConfig(s.hist[0].value));
    }
  }

  // .bak.n is the newest older entry that differs from .bak.
  predicate NewestOther(s: State, n: nat)
  {
    && 1 <= n < SLOTS && s.hist[n].Some? && s.hist[n] != s.hist[0]
    && forall m | 1 <= m < n :: s.hist[m] == None || s.hist[m] == s.hist[0]
  }

  // What the search from slot from on finds, when nothing before it is found.
  lemma {:induction false} OtherFound(s: State, from: nat)
    requires 1 <= from <= SLOTS && s.hist[0].Some? && forall m | 1 <= m < from :: s.hist[m] == None || s.hist[m] == s.hist[0]
    ensures FirstOther(s.hist, from) == None <==> forall n: nat :: !NewestOther(s, n)
    ensures FirstOther(s.hist, from).Some? ==> exists n: nat :: NewestOther(s, n) && s.hist[n] == FirstOther(s.hist, from)
    decreases SLOTS - from
  {
    if from < SLOTS {
      if s.hist[from] == None || s.hist[from] == s.hist[0] {
        OtherFound(s, from + 1);
      } else {
        assert NewestOther(s, from);
      }
    }
  }

  /** Restoring the previous applied config: config.yaml becomes the newest older entry that differs from .bak. */
  lemma RestorePreviousOutcome(s: State, env: Env)
    ensures var answer := Answered(s, RestorePrevious, env);
            && (answer == NoSnapshot <==> s.hist[0] == None || forall n: nat :: !NewestOther(s, n))
            && (answer == Ok <==> s.hist[0].Some? && exists n: nat :: NewestOther(s, n) && s.hist[n].value.valid)
            && (answer == Invalid <==> s.hist[0].Some? && exists n: nat :: NewestOther(s, n) && !s.hist[n].value.valid)
            && (answer != Ok ==> Ended(s, RestorePrevious, env) == s)
            && (forall n: nat :: NewestOther(s, n) && answer == Ok ==> Ended(s, RestorePrevious, env) == s.(cfg := s.hist[n]))
  {
    if s.hist[0].Some? {
      OtherFound(s, 1);
      if n: nat :| NewestOther(s, n) {
        forall m: nat | NewestOther(s, m) ensures m == n {
          assert !(m < n) && !(n < m);
        }
      }
    }
    if RestorePreviousPlan(s).result == Ok {
      DoOne(s, WriteConfig(PreviousApplied(s.hist).value));
    }
  }

  /** Restoring a rejected config: it moves into config.yaml when no session waits and no pending edit would be lost. */
  lemma RestoreRevertedOutcome(s: State, env: Env)
    ensures var answer := Answered(s, RestoreReverted, env);
            && (answer == Ok <==> s.session == None && s.reverted.Some? && s.reverted.value.valid && s.cfg.Some? && s.cfg == s.hist[0])
            && (answer == SessionActive <==> s.session.Some?)
            && (answer == NoReverted <==> s.session == None && s.reverted == None)
            && (answer == PendingEdits ==> s.cfg.Some? && s.hist[0].Some? && s.cfg != s.hist[0])
            && Ended(s, RestoreReverted, env) == if answer == Ok then s.(cfg := s.reverted, reverted := None, lastRevert := None) else s
  {
    if RestoreRevertedPlan(s).result == Ok {
      RejectedMoves(s, s.reverted.value);
    }
  }

  lemma RejectedMoves(s: State, c: Config)
    ensures DoAll(s, [WriteConfig(c), RemoveLastRevert, RemoveReverted]) == s.(cfg := Some(c), reverted := None, lastRevert := None)
  {
    DoThree(s, WriteConfig(c), RemoveLastRevert, RemoveReverted);
  }

  /** Wherever that is cut, the rejected config is in config.yaml or still kept. */
  lemma RestoreRevertedCut(s: State, k: nat)
    requires k <= |RestoreRevertedPlan(s).effects|
    ensures var r := DoAll(s, RestoreRevertedPlan(s).effects[..k]); r.cfg == s.reverted || r.reverted == s.reverted
  {
    var es := RestoreRevertedPlan(s).effects;
    if k == 1 {
      assert es[..k] == [es[0]];
      DoOne(s, es[0]);
    } else if k == 2 {
      assert es[..k] == [es[0], es[1]];
      DoTwo(s, es[0], es[1]);
    } else if k == 3 {
      assert es[..k] == [es[0], es[1], es[2]];
      DoThree(s, es[0], es[1], es[2]);
    }
  }

  /** Dismissing forgets the last revert and the config it kept, and nothing else. */
  lemma DismissOutcome(s: State, env: Env)
    ensures Answered(s, Dismiss, env) == Ok && Ended(s, Dismiss, env) == s.(reverted := None, lastRevert := None)
  {
    DoTwo(s, RemoveLastRevert, RemoveReverted);
  }

  /** A geo update loads the sets of the config that runs: the last applied one when that is known and has confirm on, else
      config.yaml; and only with no session, geo on, and sets that load. */
  lemma GeoOutcome(s: State, env: Env)
    ensures var c := if Known(s) && s.hist[0].value.confirm then s.hist[0] else s.cfg;
            var answer := Answered(s, UpdateGeo, env);
            && (answer == SessionActive <==> s.session.Some?)
            && (answer == Ok <==> s.session == None && c.Some? && c.value.valid && c.value.geo && env.load == Full)
            && (answer == GeoOff <==> s.session == None && c.Some? && c.value.valid && !c.value.geo)
            && Ended(s, UpdateGeo, env) == s.(geo := if answer == Ok then c else s.geo)
  {
    if GeoPlan(s, env).effects != [] {
      GeoPlanLoads(s, env);
    }
  }
}

/** What confirm-or-revert promises, over every run. */
module ApplyClaims {
  import opened Common
  import opened History
  import opened ApplyState
  import opened ApplyPlans
  import opened ApplySafety
  import opened ApplyRuns
  import opened ApplyWorld

  // ---- An unconfirmed config is live only while it can be taken back ----

  /** In every state of every run, crashes and reboots included: rules nobody confirmed are loaded only while a session
      is on disk, with a valid baseline that was what the records named when the session started; and that baseline is the
      last confirmed config, unless a confirmation came before its Apply had left its record, and neither a one-way reload
      nor a confirmation after its Apply's record came since. */
  lemma UnconfirmedNeedsSession(cfg: Option<Config>, es: seq<Event>)
    requires IsRun(Start(cfg), es)
    ensures var s := AfterRun(Start(cfg), es).s;
            s.onTrial ==>
              && s.session.Some? && s.snap[0].Some? && s.snap[0].value.valid
              && s.snap == s.pre && s.snap[0] == s.preApplied
              && (s.clean ==> s.snap[0] == s.trusted)
  {
    SafeStart(cfg);
    SafeRun(Start(cfg), es);
  }

  /** The condition on a confirmation is exact: it leaves records that name what it confirmed, or nothing, if and only if
      the Apply's record was in place. */
  lemma ConfirmNeedsRecord(s: State)
    requires Inv(s) && (s.trial.Some? || s.clean) && ConfirmPlan(s).result == Ok
    ensures var r := DoAll(s, ConfirmPlan(s).effects);
            RecordInPlace(s) <==> (r.applied == r.hist[0] ==> r.hist[0] == r.trusted)
  {
    DoTwo(s, DropSession(Confirmed), StopTimer(s.session.value.token, false));
  }

  lemma LoadIsTrusted(s: State, load: Load)
    requires LoadPlan(s, OneWay, load).result == Ok
    ensures var r := DoAll(s, LoadPlan(s, OneWay, load).effects); r.clean && r.hist[0] == r.applied == r.trusted == r.cfg
  {
    LoadRun(s, OneWay, load);
    RecordWhole(s.hist, s.cfg.value);
  }

  /** Whatever came before, the records can be trusted again after a one-way reload recorded its config, and after a
      confirmation that found its Apply's record in place. */
  lemma TrustComesBack(s: State, hash: Option<Config>, env: Env)
    requires Inv(s)
    ensures ReloadPlan(s, hash, env).result == Ok ==>
              var r := DoAll(s, ReloadPlan(s, hash, env).effects); r.clean && r.hist[0] == r.applied == r.trusted == r.cfg
    ensures ConfirmPlan(s).result == Ok && s.trial.Some? && RecordInPlace(s) ==>
              var r := DoAll(s, ConfirmPlan(s).effects); r.clean && r.trusted == s.trial
  {
    if ReloadPlan(s, hash, env).result == Ok {
      var p := OneWayCheck(s, env);
      var s1 := DoAll(s, p.effects);
      LoadIsTrusted(s1, env.load);
      DoAllConcat(s, p.effects, LoadPlan(s1, OneWay, env.load).effects);
    }
    if ConfirmPlan(s).result == Ok {
      DoTwo(s, DropSession(Confirmed), StopTimer(s.session.value.token, false));
    }
  }

  // ---- A confirmation that comes too early ----

  const FULL: Env := Env(true, true, Full, [Full, Full, Full], Live)

  lemma WholeRun(s: State, op: Op, env: Env, r: State)
    requires Possible(World(s, []), Begin(op, env)) && r == DoAll(s, PlanOf(s, op, env).effects)
    ensures var es := Cut(op, env, |PlanOf(s, op, env).effects|);
            IsRun(World(s, []), es) && AfterRun(World(s, []), es) == World(r, [])
  {
    var all := PlanOf(s, op, env).effects;
    CutRun(s, op, env, |all|);
    assert all[..|all|] == all;
  }

  lemma SaveRun(s: State, c: Config)
    requires c.valid
    ensures DoAll(s, PlanOf(s, Save(c), FULL).effects) == s.(cfg := Some(c))
  {
    DoOne(s, WriteConfig(c));
  }

  lemma ReloadRun(s: State, c: Config)
    requires s.session == None && s.cfg == Some(c) && c.valid
    ensures DoAll(s, PlanOf(s, Reload(None), FULL).effects) == Loaded(s, OneWay, c)
  {
    LoadRun(s, OneWay, Full);
    var l := LoadPlan(s, OneWay, Full);
    assert [] + l.effects == l.effects;
  }

  // An Apply that dies right after it loaded the firewall.
  lemma ApplyCutRun(s: State, c: Config)
    requires Inv(s) && s.session == None && s.cfg == Some(c) && c.valid && KnownBaseline(s)
    ensures var k := |ArmPlan(s, None, FULL).effects| + 1;
            && k <= |PlanOf(s, Apply(None), FULL).effects|
            && DoAll(s, PlanOf(s, Apply(None), FULL).effects[..k]) == Do(Armed(s), LoadFirewall(c, Trial))
  {
    var a := ArmPlan(s, None, FULL).effects;
    ArmRun(s, None, FULL);
    var s1 := Armed(s);
    var t := ApplyTail(s1, Rearmed(s, SessionOf(s)), FULL).effects;
    TrialLoadsFirst(s1, Rearmed(s, SessionOf(s)), c);
    OneMore(a, t);
    DoAllConcat(s, a, [LoadFirewall(c, Trial)]);
    DoOne(s1, LoadFirewall(c, Trial));
  }

  lemma TrialLoadsFirst(s: State, x: Session, c: Config)
    requires s.cfg == Some(c) && c.valid
    ensures var t := ApplyTail(s, x, FULL).effects; t != [] && t[0] == LoadFirewall(c, Trial)
  {
    assert LoadPlan(s, Trial, Full).effects[0] == LoadFirewall(c, Trial);
  }

  lemma OneMore(a: seq<Effect>, t: seq<Effect>)
    requires t != []
    ensures (a + t)[..|a| + 1] == a + [t[0]]
  {
  }

  lemma ApplyWholeRun(s: State, c: Config)
    requires Inv(s) && s.session == None && s.cfg == Some(c) && c.valid && KnownBaseline(s)
    ensures var r := DoAll(s, PlanOf(s, Apply(None), FULL).effects);
            && r.onTrial && r.fw == Some(c) && r.session.Some? && r.snap == s.hist && r.trusted == s.trusted
            && r.session.value.phase == Active && r.cfg == s.cfg
  {
    var a := ArmPlan(s, None, FULL).effects;
    ArmRun(s, None, FULL);
    TrialRun(Armed(s), Rearmed(s, SessionOf(s)), c);
    DoAllConcat(s, a, ApplyTail(Armed(s), Rearmed(s, SessionOf(s)), FULL).effects);
  }

  lemma TrialRun(s: State, x: Session, c: Config)
    requires Inv(s) && s.session == Some(x) && x.phase == Active && s.cfg == Some(c) && c.valid
    ensures DoAll(s, ApplyTail(s, x, FULL).effects) == Waiting(Loaded(s, Trial, c))
  {
    var l := LoadPlan(s, Trial, Full);
    LoadRun(s, Trial, Full);
    LoadAllowed(s, Trial, Full);
    HoldsAfter(s, l.effects);
    var s2 := Loaded(s, Trial, c);
    RearmRun(s2, Some(x.token));
    DoAllConcat(s, l.effects, RearmEffects(s2, x, Some(x.token)));
  }

  // The state after a first one-way reload of c, then an edit to d.
  lemma FirstReload(c: Config, d: Config) returns (s: State, es: seq<Event>)
    requires c.valid && d.valid && c != d
    ensures IsRun(Start(Some(c)), es) && AfterRun(Start(Some(c)), es) == World(s, [])
    ensures s.session == None && s.cfg == Some(d) && s.hist[0] == s.applied == s.trusted == Some(c) && s.clean
  {
    var s0 := Fresh(Some(c));
    ReloadRun(s0, c);
    RecordWhole(s0.hist, c);
    var s1 := Loaded(s0, OneWay, c);
    WholeRun(s0, Reload(None), FULL, s1);
    s := s1.(cfg := Some(d));
    SaveRun(s1, d);
    WholeRun(s1, Save(d), FULL, s);
    var e1 := Cut(Reload(None), FULL, |PlanOf(s0, Reload(None), FULL).effects|);
    var e2 := Cut(Save(d), FULL, |PlanOf(s1, Save(d), FULL).effects|);
    es := e1 + e2;
    RunConcat(Start(Some(c)), e1, e2);
  }

  lemma ConfirmRun(s: State, c: Config)
    requires s.session.Some? && s.session.value.phase == Active && s.trial == Some(c)
    ensures var r := DoAll(s, PlanOf(s, Confirm, FULL).effects);
            r.session == None && r.trusted == Some(c) && r.hist == s.hist && r.applied == s.applied
  {
    DoTwo(s, DropSession(Confirmed), StopTimer(s.session.value.token, false));
  }

  // The Apply of d dies after the first reload of c, with its firewall loaded and nothing recorded.
  lemma OnTrialUnrecorded(c: Config, d: Config) returns (s: State, es: seq<Event>)
    requires c.valid && d.valid && c != d
    ensures IsRun(Start(Some(c)), es) && AfterRun(Start(Some(c)), es) == World(s, [])
    ensures s.session.Some? && s.session.value.phase == Active && s.trial == Some(d) && KnownBaseline(s) && s.hist[0] == Some(c)
  {
    var w := Start(Some(c));
    var s1, e1 := FirstReload(c, d);
    SafeStart(Some(c));
    SafeRun(w, e1);
    ApplyCutRun(s1, d);
    var k := |ArmPlan(s1, None, FULL).effects| + 1;
    es := e1 + Cut(Apply(None), FULL, k);
    CutRun(s1, Apply(None), FULL, k);
    s := OnTrial(s1, d);
    RunConcat(w, e1, Cut(Apply(None), FULL, k));
  }

  // An Apply's state with the firewall of d loaded.
  lemma OnTrial(s: State, d: Config) returns (r: State)
    requires Inv(s) && s.session == None && KnownBaseline(s)
    ensures r == Do(Armed(s), LoadFirewall(d, Trial)) && r.session.Some? && r.session.value.phase == Active
    ensures r.trial == Some(d) && r.hist == s.hist && r.applied == s.applied
  {
    r := Do(Armed(s), LoadFirewall(d, Trial));
  }

  // The same, confirmed.
  lemma ConfirmedUnrecorded(c: Config, d: Config) returns (s: State, es: seq<Event>)
    requires c.valid && d.valid && c != d
    ensures IsRun(Start(Some(c)), es) && AfterRun(Start(Some(c)), es) == World(s, []) && Inv(s)
    ensures s.session == None && KnownBaseline(s) && s.hist[0] == Some(c) && s.trusted == Some(d)
  {
    var w := Start(Some(c));
    var s1, e1 := OnTrialUnrecorded(c, d);
    ConfirmRun(s1, d);
    s := DoAll(s1, PlanOf(s1, Confirm, FULL).effects);
    WholeRun(s1, Confirm, FULL, s);
    var e2 := Cut(Confirm, FULL, |PlanOf(s1, Confirm, FULL).effects|);
    RunConcat(w, e1, e2);
    es := e1 + e2;
    SafeStart(Some(c));
    SafeRun(w, es);
  }

  /** A run that shows the condition is needed: an Apply dies between loading the firewall and recording the hash, it is
      confirmed, and the next Apply's session would go back to the config before both. */
  lemma ConfirmedTooEarly(c: Config, d: Config, f: Config) returns (es: seq<Event>)
    requires c.valid && d.valid && f.valid && c != d
    ensures IsRun(Start(Some(c)), es)
    ensures var s := AfterRun(Start(Some(c)), es).s;
            s.onTrial && s.fw == Some(f) && s.session.Some? && s.snap[0] == Some(c) && s.trusted == Some(d)
  {
    var w := Start(Some(c));
    var s1, e1 := ConfirmedUnrecorded(c, d);
    SaveRun(s1, f);
    var s2 := s1.(cfg := Some(f));
    WholeRun(s1, Save(f), FULL, s2);
    var e2 := Cut(Save(f), FULL, |PlanOf(s1, Save(f), FULL).effects|);
    RunConcat(w, e1, e2);
    SafeStart(Some(c));
    SafeRun(w, e1 + e2);
    ApplyWholeRun(s2, f);
    var s3 := DoAll(s2, PlanOf(s2, Apply(None), FULL).effects);
    WholeRun(s2, Apply(None), FULL, s3);
    var e3 := Cut(Apply(None), FULL, |PlanOf(s2, Apply(None), FULL).effects|);
    RunConcat(w, e1 + e2, e3);
    es := e1 + e2 + e3;
  }

  // ---- Timers ----

  /** In every state of every run, a session of this boot has its own timer armed or gone off, until a rollback of it
      stopped that timer. */
  lemma TimerCoverage(cfg: Option<Config>, es: seq<Event>)
    requires IsRun(Start(cfg), es)
    ensures var s := AfterRun(Start(cfg), es).s;
            s.session.Some? && s.session.value.phase == Active && s.session.value.boot == s.boot ==>
              s.session.value.token in s.armed + s.fired + s.began
  {
    SafeStart(cfg);
    SafeRun(Start(cfg), es);
  }

  /** Sessions end one after another, each once, as confirmed or as reverted; only the one on disk has not ended. */
  lemma EachSessionEndsOnce(cfg: Option<Config>, es: seq<Event>)
    requires IsRun(Start(cfg), es)
    ensures var s := AfterRun(Start(cfg), es).s;
            && (s.session.Some? ==> |s.ends| == s.started - 1 && forall i | 0 <= i < |s.ends| :: s.ends[i].session != s.started)
            && (s.session == None ==> |s.ends| == s.started)
            && (forall i, j | 0 <= i < |s.ends| && 0 <= j < |s.ends| && s.ends[i].session == s.ends[j].session :: i == j)
            && (forall i | 0 <= i < |s.ends| :: 1 <= s.ends[i].session <= s.started)
  {
    SafeStart(cfg);
    SafeRun(Start(cfg), es);
  }

  // A waiting session goes only when it ends, and until then its start stands.
  predicate StartStands(s: State, r: State)
  {
    if r.session.Some? then r.started == s.started && r.pre == s.pre && r.ends == s.ends else |r.ends| > |s.ends|
  }

  lemma EndsEffect(s: State, e: Effect)
    requires Allowed(s, e)
    ensures s.ends <= Do(s, e).ends
    ensures s.session.Some? ==> StartStands(s, Do(s, e))
  {
  }

  lemma EndsStep(w: World, e: Event)
    requires Safe(w) && Possible(w, e)
    ensures w.s.ends <= After(w, e).s.ends
    ensures w.s.session.Some? ==> StartStands(w.s, After(w, e).s)
  {
    if e == Tick {
      EndsEffect(w.s, w.todo[0]);
    }
  }

  /** How a session ended never changes: whoever got the lock first decided it. */
  lemma {:induction false} EndingsStand(w: World, es: seq<Event>)
    requires Safe(w) && IsRun(w, es)
    ensures w.s.ends <= AfterRun(w, es).s.ends
    decreases |es|
  {
    if es != [] {
      EndsStep(w, es[0]);
      SafeStep(w, es[0]);
      EndingsStand(After(w, es[0]), es[1..]);
    }
  }

  // ---- Recovery ----

  // The operation takes the waiting session back when it gets the lock.
  predicate TakesBack(s: State, op: Op, env: Env)
    requires s.session.Some?
  {
    var x := s.session.value;
    match op
    case Revert => true
    case TimerRevert(t) => t == x.token
    case Recover => x.phase != Active || TimerState(s, x, env.answer) == Dead
    case Reload(_) => x.phase != Active || TimerState(s, x, env.answer) == Dead
    case BootReload => x.phase != Active || TimerState(s, x, env.answer) == Dead
    case _ => false
  }

  lemma BaselineAgain(s: State, c: Config, load: Load)
    requires s.cfg == s.hist[0] == s.applied == s.fw == s.wg == Some(c)
    ensures var r := DoAll(s, LoadPlan(s, OneWay, load).effects);
            r.session == s.session && r.cfg == s.cfg && r.hist == s.hist && r.applied == s.applied && r.fw == s.fw && r.wg == s.wg
    ensures var r := DoAll(s, LoadKnown(c, load).effects);
            r.session == s.session && r.cfg == s.cfg && r.hist == s.hist && r.applied == s.applied && r.fw == s.fw && r.wg == s.wg
  {
    LoadRun(s, OneWay, load);
    assert RecordSteps(s.hist, c) == [];
    KnownAgain(s, c, load);
  }

  lemma KnownAgain(s: State, c: Config, load: Load)
    requires s.fw == s.wg == Some(c)
    ensures var r := DoAll(s, LoadKnown(c, load).effects); r == s.(geo := r.geo, onTrial := r.onTrial)
  {
    DoOne(s, LoadFirewall(c, OneWay));
    DoTwo(s, LoadFirewall(c, OneWay), LoadWireGuard(c));
  }

  // The host and the records are the session's baseline, and there is no session.
  predicate BackTo(s: State, hist: Chain<Config>, r: State)
  {
    r.session == None && !r.onTrial && r.hist == hist && r.applied == r.fw == r.wg == hist[0]
  }

  /** Whatever state a session is in, one recovery that gets a reload through ends it at the baseline, with the history
      and the hash as they were before the session, also when the reload that follows it fails. */
  lemma RecoveryReachesBaseline(s: State, op: Op, env: Env)
    requires Inv(s) && s.session.Some? && TakesBack(s, op, env) && Full in env.retries
    ensures var r := DoAll(s, PlanOf(s, op, env).effects);
            BackTo(s, s.pre, r) && s.preApplied == s.pre[0]
  {
    var x := s.session.value;
    match op
    case Revert => RollbackOutcome(s, x, Manual, true, env.retries);
    case TimerRevert(t) => RollbackOutcome(s, x, Timeout, true, env.retries);
    case Recover => RollbackOutcome(s, x, Interrupted, false, env.retries);
    case Reload(hash) => OneWayRecovery(s, op, env);
    case BootReload => OneWayRecovery(s, op, env);
    case _ =>
  }

  lemma OneWayRecovery(s: State, op: Op, env: Env)
    requires Inv(s) && s.session.Some? && TakesBack(s, op, env) && Full in env.retries
    requires op.Reload? || op.BootReload?
    ensures BackTo(s, s.pre, DoAll(s, PlanOf(s, op, env).effects))
  {
    var p := OneWayCheck(s, env);
    OneWayCheckRun(s, env);
    RollbackOutcome(s, s.session.value, Interrupted, false, env.retries);
    var s1 := DoAll(s, p.effects);
    OpAllowed(s, op, env);
    HoldsAfter(s, PlanOf(s, op, env).effects);
    BaselineAgain(s1, s.snap[0].value, env.load);
    DoAllConcat(s, p.effects, LoadPlan(s1, OneWay, env.load).effects);
    DoAllConcat(s, p.effects, LoadKnown(s.snap[0].value, env.load).effects);
  }

  /** While the same session waits, what it started from stays recorded as it was. */
  lemma {:induction false} SessionKeepsStart(w: World, es: seq<Event>)
    requires Safe(w) && IsRun(w, es) && w.s.session.Some?
    ensures var s := AfterRun(w, es).s;
            s.ends == w.s.ends ==> s.session.Some? && s.started == w.s.started && s.snap == w.s.pre && s.pre == w.s.pre
    decreases |es|
  {
    if es != [] {
      var w1 := After(w, es[0]);
      SafeStep(w, es[0]);
      EndsStep(w, es[0]);
      if w1.s.session.Some? {
        SessionKeepsStart(w1, es[1..]);
      } else {
        EndingsStand(w1, es[1..]);
      }
    }
  }

  // ---- Nothing is lost ----

  /** What config.yaml held survives a finished revert, in config.yaml or in config.yaml.reverted. */
  lemma RevertLosesNothing(s: State, reason: Reason, restoreEdits: bool, tries: seq<Load>)
    requires Inv(s) && s.session.Some? && reason != NoReason && Full in tries
    requires s.cfg.Some? && s.cfg != s.snap[0]
    ensures var r := DoAll(s, RollbackPlan(s, s.session.value, reason, restoreEdits, tries).effects);
            r.cfg == s.cfg || r.reverted == s.cfg
  {
    RollbackOutcome(s, s.session.value, reason, restoreEdits, tries);
  }

  /** An Apply that failed and was taken back leaves config.yaml as it was, if and only if there was one and, on a repeat
      Apply of the baseline itself, no older rejected config lies in config.yaml.reverted. */
  lemma FailedApplyLeavesConfig(s: State, hash: Option<Config>, env: Env)
    requires Inv(s) && ApplyPlan(s, hash, env).result == LoadFailed
    ensures var r := DoAll(s, ApplyPlan(s, hash, env).effects);
            r.cfg == s.cfg <==>
            s.cfg.Some? && (s.session == None || s.cfg != s.snap[0] || s.reverted == None || s.reverted == s.cfg)
  {
    var a := ArmPlan(s, hash, env);
    ArmRun(s, hash, env);
    var s1, x := Armed(s), Rearmed(s, SessionOf(s));
    FailedTail(s1, x, env);
    DoAllConcat(s, a.effects, ApplyTail(s1, x, env).effects);
  }

  lemma FailedTail(s: State, x: Session, env: Env)
    requires Inv(s) && s.session == Some(x) && x.phase == Active && ApplyTail(s, x, env).result == LoadFailed
    ensures DoAll(s, ApplyTail(s, x, env).effects).cfg == if Kept(s).Some? then Kept(s) else s.snap[0]
  {
    var l := LoadPlan(s, Trial, env.load);
    var s2 := DoAll(s, l.effects);
    LoadLeavesFiles(s, x, env.load);
    RollbackRun(s2, x, FailedApply, true, env.retries);
    RollbackOutcome(s2, x, FailedApply, true, env.retries);
    DoAllConcat(s, l.effects, RollbackPlan(s2, x, FailedApply, true, env.retries).effects);
  }

  lemma LoadLeavesFiles(s: State, x: Session, load: Load)
    requires Inv(s) && s.session == Some(x) && x.phase == Active
    ensures var r := DoAll(s, LoadPlan(s, Trial, load).effects); Inv(r) && Kept(r) == Kept(s) && r.snap == s.snap && r.session == Some(x)
  {
    LoadAllowed(s, Trial, load);
    HoldsAfter(s, LoadPlan(s, Trial, load).effects);
    LoadRun(s, Trial, load);
  }

  // ---- Reloads nobody confirms ----

  // Every load among es is of c.
  ghost predicate LoadsOnly(es: seq<Effect>, c: Option<Config>)
  {
    forall e | e in es && e.LoadFirewall? :: Some(e.content) == c
  }

  lemma {:induction false} RotationsLoadNothing(steps: seq<Step<Config>>, c: Option<Config>)
    ensures LoadsOnly(Rotations(steps), c)
  {
  }

  lemma LoadPlanLoads(s: State, kind: LoadKind, load: Load)
    ensures LoadsOnly(LoadPlan(s, kind, load).effects, s.cfg)
  {
    if s.cfg.Some? {
      RotationsLoadNothing(RecordSteps(s.hist, s.cfg.value), s.cfg);
    }
  }

  lemma {:induction false} RetryLoads(s: State, tries: seq<Load>)
    ensures LoadsOnly(RetryPlan(s, tries).effects, s.cfg)
    decreases |tries|
  {
    if tries != [] {
      var p := LoadPlan(s, Back, tries[0]);
      LoadPlanLoads(s, Back, tries[0]);
      LoadRun(s, Back, tries[0]);
      if p.result != Ok {
        RetryLoads(DoAll(s, p.effects), tries[1..]);
      }
    }
  }

  lemma {:induction false} CopyBackLoads(snap: Chain<Config>, i: nat)
    requires i <= SLOTS
    ensures forall e | e in CopyBack(snap, i) :: e.Rotate?
    decreases SLOTS - i
  {
    if i < SLOTS {
      CopyBackLoads(snap, i + 1);
    }
  }

  lemma RollbackLoads(s: State, x: Session, reason: Reason, restoreEdits: bool, tries: seq<Load>)
    requires Inv(s) && s.session == Some(x) && reason != NoReason
    ensures LoadsOnly(RollbackPlan(s, x, reason, restoreEdits, tries).effects, s.snap[0])
  {
    RollbackStartRun(s, x, reason);
    RetryLoads(Restored(s, x, reason), tries);
    CopyBackLoads(s.snap, 0);
    var start, retry := RollbackStart(s, x, reason), RetryPlan(Restored(s, x, reason), tries);
    assert LoadsOnly(start, s.snap[0]) by {
      assert start == [StopTimer(x.token, true), WriteSession(Begun(x, reason))] + RestorePlan(s).effects;
    }
    assert LoadsOnly(start + retry.effects, s.snap[0]);
  }

  /** A one-way reload or a boot reload that finds a session loads nothing but its baseline. */
  lemma SessionReloadsOnlyBaseline(s: State, op: Op, env: Env)
    requires Inv(s) && s.session.Some? && (op.Reload? || op.BootReload?)
    ensures LoadsOnly(PlanOf(s, op, env).effects, s.snap[0])
  {
    var p := OneWayCheck(s, env);
    OneWayCheckRun(s, env);
    if p.effects != [] {
      RollbackLoads(s, s.session.value, Interrupted, false, env.retries);
    }
    LoadPlanLoads(DoAll(s, p.effects), OneWay, env.load);
  }

  lemma LoadKnownRun(s: State, c: Config, load: Load)
    ensures LoadsOnly(LoadKnown(c, load).effects, Some(c))
    ensures var p := LoadKnown(c, load); var r := DoAll(s, p.effects);
            p.result == Ok ==> r.fw == r.wg == Some(c) && r.cfg == s.cfg
  {
    DoTwo(s, LoadFirewall(c, OneWay), LoadWireGuard(c));
  }

  /** A reload that carries a hash loads the bytes with that hash, the baseline of a session it takes back first, or
      nothing; it succeeds only with exactly those bytes on the host. */
  lemma HashedReloadIsExact(s: State, hash: Config, env: Env)
    requires Inv(s)
    ensures var p := ReloadPlan(s, Some(hash), env); var r := DoAll(s, p.effects);
            && (s.session == None ==> LoadsOnly(p.effects, Some(hash)))
            && (s.session == None && s.cfg != Some(hash) ==> p.effects == [])
            && (p.result == Ok ==> r.fw == r.wg == r.applied == r.cfg == Some(hash) == r.hist[0])
  {
    var p := OneWayCheck(s, env);
    OneWayCheckRun(s, env);
    var s1 := DoAll(s, p.effects);
    if p.result == Ok && s1.cfg == Some(hash) {
      var l := LoadPlan(s1, OneWay, env.load);
      LoadPlanLoads(s1, OneWay, env.load);
      LoadRun(s1, OneWay, env.load);
      DoAllConcat(s, p.effects, l.effects);
      RecordWhole(s1.hist, hash);
      assert [] + l.effects == l.effects;
    }
  }

  /** An Apply that carries a hash puts nothing but the bytes with that hash on trial, and does nothing at all when
      config.yaml holds anything else. */
  lemma HashedApplyIsExact(s: State, hash: Config, env: Env)
    requires Inv(s)
    ensures var p := ApplyPlan(s, Some(hash), env);
            && (forall e | e in p.effects && e.LoadFirewall? && e.kind == Trial :: e.content == hash)
            && (s.cfg != Some(hash) ==> p.effects == [])
            && (p.result == Ok ==> var r := DoAll(s, p.effects); r.fw == r.wg == r.applied == Some(hash) == r.hist[0])
  {
    var a := ArmPlan(s, Some(hash), env);
    ArmRun(s, Some(hash), env);
    if a.result == Ok {
      ArmLoadsNothing(s, Some(hash), env);
      ApplyTailExact(Armed(s), Rearmed(s, SessionOf(s)), hash, env);
      DoAllConcat(s, a.effects, ApplyTail(Armed(s), Rearmed(s, SessionOf(s)), env).effects);
    } else {
      ArmLoadsNothing(s, Some(hash), env);
    }
  }

  lemma {:induction false} CopyOutLoadsNothing(hist: Chain<Config>, i: nat)
    requires i <= SLOTS
    ensures forall e | e in CopyOut(hist, i) :: e.CopyBaseline?
    decreases SLOTS - i
  {
    if i < SLOTS {
      CopyOutLoadsNothing(hist, i + 1);
    }
  }

  lemma ArmLoadsNothing(s: State, hash: Option<Config>, env: Env)
    ensures forall e | e in ArmPlan(s, hash, env).effects :: !e.LoadFirewall?
  {
    CopyOutLoadsNothing(s.hist, 0);
  }

  lemma TrialApplied(s: State, x: Session, hash: Config, env: Env)
    requires Inv(s) && s.session == Some(x) && x.phase == Active && s.cfg == Some(hash) && LoadPlan(s, Trial, env.load).result == Ok
    ensures var r := DoAll(s, ApplyTail(s, x, env).effects); r.fw == r.wg == r.applied == Some(hash) == r.hist[0]
  {
    var l := LoadPlan(s, Trial, env.load);
    LoadAllowed(s, Trial, env.load);
    HoldsAfter(s, l.effects);
    LoadRun(s, Trial, env.load);
    RecordWhole(s.hist, hash);
    var s2 := DoAll(s, l.effects);
    if env.rearm {
      RearmRun(s2, Some(x.token));
    }
    DoAllConcat(s, l.effects, if env.rearm then RearmEffects(s2, x, Some(x.token)) else []);
  }

  lemma ApplyTailExact(s: State, x: Session, hash: Config, env: Env)
    requires Inv(s) && s.session == Some(x) && x.phase == Active && s.cfg == Some(hash)
    ensures var p := ApplyTail(s, x, env);
            && (forall e | e in p.effects && e.LoadFirewall? && e.kind == Trial :: e.content == hash)
            && (p.result == Ok ==> var r := DoAll(s, p.effects); r.fw == r.wg == r.applied == Some(hash) == r.hist[0])
  {
    LoadPlanLoads(s, Trial, env.load);
    if LoadPlan(s, Trial, env.load).result == Ok {
      TrialApplied(s, x, hash, env);
    } else {
      TrialFailed(s, x, hash, env);
    }
  }

  lemma TrialFailed(s: State, x: Session, hash: Config, env: Env)
    requires Inv(s) && s.session == Some(x) && x.phase == Active && s.cfg == Some(hash) && LoadPlan(s, Trial, env.load).result != Ok
    ensures ApplyTail(s, x, env).result != Ok
    ensures forall e | e in ApplyTail(s, x, env).effects && e.LoadFirewall? && e.kind == Trial :: e.content == hash
  {
    var l := LoadPlan(s, Trial, env.load);
    LoadPlanLoads(s, Trial, env.load);
    LoadAllowed(s, Trial, env.load);
    HoldsAfter(s, l.effects);
    LoadRun(s, Trial, env.load);
    RollbackKinds(DoAll(s, l.effects), x, FailedApply, true, env.retries);
  }

  lemma {:induction false} RetryKinds(s: State, tries: seq<Load>)
    ensures forall e | e in RetryPlan(s, tries).effects && e.LoadFirewall? :: e.kind == Back
    decreases |tries|
  {
    if tries != [] {
      var p := LoadPlan(s, Back, tries[0]);
      if p.result != Ok {
        RetryKinds(DoAll(s, p.effects), tries[1..]);
      }
    }
  }

  lemma RollbackKinds(s: State, x: Session, reason: Reason, restoreEdits: bool, tries: seq<Load>)
    requires Inv(s) && s.session == Some(x) && reason != NoReason
    ensures forall e | e in RollbackPlan(s, x, reason, restoreEdits, tries).effects && e.LoadFirewall? :: e.kind == Back
  {
    RollbackStartRun(s, x, reason);
    RetryKinds(Restored(s, x, reason), tries);
    CopyBackLoads(s.snap, 0);
    var start := RollbackStart(s, x, reason);
    forall e | e in start ensures !e.LoadFirewall? {
      assert e in [StopTimer(x.token, true), WriteSession(Begun(x, reason))] || e in RestorePlan(s).effects;
    }
  }

  /** A geo update touches only the geo sets, refuses while a session is on disk, and with confirm on uses the last
      applied config. */
  lemma GeoUpdateIsHeldBack(s: State, env: Env)
    requires Inv(s)
    ensures var p := GeoPlan(s, env); var r := DoAll(s, p.effects);
            && r == s.(geo := r.geo)
            && (s.session.Some? ==> r == s)
            && (p.result == Ok && PreferBaseline(s) ==> r.geo == s.hist[0] && (s.clean ==> r.geo == s.trusted))
  {
    if GeoPlan(s, env).effects != [] {
      GeoPlanLoads(s, env);
    }
  }

  lemma GeoPlanLoads(s: State, env: Env)
    requires GeoPlan(s, env).effects != []
    ensures var c := if PreferBaseline(s) then s.hist[0] else s.cfg;
            s.session == None && c.Some? && DoAll(s, GeoPlan(s, env).effects) == s.(geo := c)
  {
    var c := if PreferBaseline(s) then s.hist[0].value else s.cfg.value;
    assert GeoPlan(s, env).effects == [LoadGeo(c)];
    DoOne(s, LoadGeo(c));
  }
}

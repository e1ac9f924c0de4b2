/** Timers that no longer count: whatever a run does, they never revert anything. */
module ApplyTimers {
  import opened Common
  import opened History
  import opened ApplyState
  import opened ApplyPlans
  import opened ApplySafety
  import opened ApplyRuns
  import opened ApplyWorld

  // ---- Which tokens an operation records ----

  // The sessions among es carry the token own, or one from n on.
  ghost predicate Records(es: seq<Effect>, n: Token, own: Option<Token>)
  {
    forall e | e in es && e.WriteSession? :: e.session.token >= n || own == Some(e.session.token)
  }

  lemma {:induction false} TokensGrow(s: State, es: seq<Effect>)
    ensures s.nextToken <= DoAll(s, es).nextToken
    decreases |es|
  {
    if es != [] { TokensGrow(Do(s, es[0]), es[1..]); }
  }

  lemma LoadRecords(s: State, kind: LoadKind, load: Load)
    ensures forall e | e in LoadPlan(s, kind, load).effects :: !e.WriteSession?
  {
  }

  lemma {:induction false} RetryRecords(s: State, tries: seq<Load>)
    ensures forall e | e in RetryPlan(s, tries).effects :: !e.WriteSession?
    decreases |tries|
  {
    if tries != [] {
      LoadRecords(s, Back, tries[0]);
      RetryRecords(DoAll(s, LoadPlan(s, Back, tries[0]).effects), tries[1..]);
    }
  }

  lemma {:induction false} CopyBackRecords(snap: Chain<Config>, i: nat)
    requires i <= SLOTS
    ensures forall e | e in CopyBack(snap, i) :: !e.WriteSession?
    decreases SLOTS - i
  {
    if i < SLOTS { CopyBackRecords(snap, i + 1); }
  }

  lemma {:induction false} CopyOutRecords(hist: Chain<Config>, i: nat)
    requires i <= SLOTS
    ensures forall e | e in CopyOut(hist, i) :: !e.WriteSession?
    decreases SLOTS - i
  {
    if i < SLOTS { CopyOutRecords(hist, i + 1); }
  }

  lemma RestoreRecords(s: State)
    ensures forall e | e in RestorePlan(s).effects :: !e.WriteSession?
  {
    CopyBackRecords(s.snap, 0);
  }

  // A rollback records nothing but the session it reverts.
  lemma RollbackRecords(s: State, x: Session, reason: Reason, restoreEdits: bool, tries: seq<Load>, n: Token)
    ensures Records(RollbackPlan(s, x, reason, restoreEdits, tries).effects, n, Some(x.token))
  {
    RestoreRecords(s);
    RetryRecords(DoAll(s, RollbackStart(s, x, reason)), tries);
  }

  lemma TailRecords(s: State, x: Session, env: Env, n: Token, own: Option<Token>)
    requires n <= s.nextToken && (x.token >= n || own == Some(x.token))
    ensures Records(ApplyTail(s, x, env).effects, n, own)
  {
    var l := LoadPlan(s, Trial, env.load);
    var s2 := DoAll(s, l.effects);
    LoadRecords(s, Trial, env.load);
    TokensGrow(s, l.effects);
    RollbackRecords(s2, x, FailedApply, true, env.retries, n);
  }

  lemma ArmRecords(s: State, hash: Option<Config>, env: Env, own: Option<Token>)
    ensures Records(ArmPlan(s, hash, env).effects, s.nextToken, own)
  {
    CopyOutRecords(s.hist, 0);
  }

  lemma ApplyRecords(s: State, hash: Option<Config>, env: Env, own: Option<Token>)
    ensures Records(ApplyPlan(s, hash, env).effects, s.nextToken, own)
  {
    var a := ArmPlan(s, hash, env);
    ArmRecords(s, hash, env, own);
    if a.result == Ok {
      TokensGrow(s, a.effects);
      TailRecords(DoAll(s, a.effects), Rearmed(s, SessionOf(s)), env, s.nextToken, own);
    }
  }

  function Own(s: State): Option<Token>
  {
    if s.session.Some? then Some(s.session.value.token) else None
  }

  lemma OneWayRecords(s: State, env: Env)
    ensures Records(OneWayCheck(s, env).effects, s.nextToken, Own(s))
  {
    if s.session.Some? {
      RollbackRecords(s, s.session.value, Interrupted, false, env.retries, s.nextToken);
    }
  }

  /** Every operation records the session's own token or one that was never drawn before. */
  lemma OpRecords(s: State, op: Op, env: Env)
    ensures Records(PlanOf(s, op, env).effects, s.nextToken, Own(s))
  {
    match op
    case Apply(hash) => ApplyRecords(s, hash, env, Own(s));
    case Reload(hash) => ReloadRecords(s, hash, env);
    case BootReload => BootRecords(s, env);
    case Recover => OneWayRecords(s, env);
    case Revert => RevertRecords(s, None, env);
    case TimerRevert(t) => RevertRecords(s, Some(t), env);
    case _ =>
  }

  lemma ReloadRecords(s: State, hash: Option<Config>, env: Env)
    ensures Records(ReloadPlan(s, hash, env).effects, s.nextToken, Own(s))
  {
    OneWayRecords(s, env);
    LoadRecords(DoAll(s, OneWayCheck(s, env).effects), OneWay, env.load);
  }

  lemma BootRecords(s: State, env: Env)
    ensures Records(BootPlan(s, env).effects, s.nextToken, Own(s))
  {
    OneWayRecords(s, env);
    LoadRecords(DoAll(s, OneWayCheck(s, env).effects), OneWay, env.load);
  }

  lemma RevertRecords(s: State, token: Option<Token>, env: Env)
    ensures Records(RevertPlan(s, token, env).effects, s.nextToken, Own(s))
  {
    if s.session.Some? {
      RollbackRecords(s, s.session.value, if token.Some? then Timeout else Manual, true, env.retries, s.nextToken);
    }
  }

  // ---- Spent ----

  /** t was drawn, is not the token of the session on disk, and nothing the running operation has still to do records it. */
  ghost predicate Spent(w: World, t: Token)
  {
    && t < w.s.nextToken
    && Own(w.s) != Some(t)
    && forall e | e in w.todo && e.WriteSession? :: e.session.token != t
  }

  lemma SpentStep(w: World, e: Event, t: Token)
    requires Possible(w, e) && Spent(w, t)
    ensures Spent(After(w, e), t)
  {
    match e
    case Begin(op, env) => OpRecords(w.s, op, env);
    case Tick =>
      assert w.todo[0] in w.todo;
      SpentEffect(w.s, w.todo[0], t);
    case _ =>
  }

  lemma SpentEffect(s: State, e: Effect, t: Token)
    requires t < s.nextToken && Own(s) != Some(t) && (e.WriteSession? ==> e.session.token != t)
    ensures t < Do(s, e).nextToken && Own(Do(s, e)) != Some(t)
  {
  }

  /** Over every run: a spent token stays spent, and the process of its timer does nothing. Spent is every token whose
      session ended or was re-armed, and every token of an Apply that died before it recorded it. */
  lemma {:induction false} SpentTimerNeverActs(w: World, es: seq<Event>, t: Token, env: Env)
    requires IsRun(w, es) && Spent(w, t)
    ensures var r := AfterRun(w, es); Spent(r, t) && PlanOf(r.s, TimerRevert(t), env).effects == []
    decreases |es|
  {
    if es != [] {
      SpentStep(w, es[0], t);
      SpentTimerNeverActs(After(w, es[0]), es[1..], t, env);
    }
  }

  /** With the lock free, every timer armed or gone off is the session's own or spent. */
  lemma TimersAreOwnOrSpent(cfg: Option<Config>, es: seq<Event>, t: Token)
    requires IsRun(Start(cfg), es)
    ensures var w := AfterRun(Start(cfg), es);
            w.todo == [] && t in w.s.armed + w.s.fired ==> (Own(w.s) == Some(t) || Spent(w, t))
  {
    SafeStart(cfg);
    SafeRun(Start(cfg), es);
  }

  /** A re-Apply that dies between arming its timer and recording it leaves an armed timer that no session ever had: it is
      spent at once, though it goes off while the session waits. */
  lemma UnrecordedTimerIsSpent(s: State, env: Env)
    requires Inv(s) && s.session.Some? && s.session.value.phase == Active && env.arm && Honest(s, env)
    ensures var w := AfterRun(World(s, []), Cut(Apply(None), env, 1));
            && IsRun(World(s, []), Cut(Apply(None), env, 1))
            && w.s.session == s.session && s.nextToken in w.s.armed && s.nextToken !in w.s.owner && Spent(w, s.nextToken)
  {
    var p := ApplyPlan(s, None, env);
    assert p.effects[..1] == [ArmTimer(s.nextToken)];
    DoOne(s, ArmTimer(s.nextToken));
    CutRun(s, Apply(None), env, 1);
  }
}

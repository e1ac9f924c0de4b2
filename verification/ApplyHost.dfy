/** The operations as the program runs them: fields changed in place, files copied and rotated in loops. Each is
    shown to have exactly the effects of its plan, in that order, so what is proved of every cut of a plan is
    proved of every point these methods can stop at. */
module ApplyHost {
  import opened Common
  import opened History
  import opened ApplyState
  import opened ApplyPlans
  import opened ApplySafety
  import opened ApplyRuns

  // Effects es lead from a to b. Said of any t that is es, so that DoAll stays folded.
  ghost predicate Leads(a: State, es: seq<Effect>, b: State)
  {
    forall t | t == es :: DoAll(a, t) == b
  }

  lemma OneMore(a: State, es: seq<Effect>, b: State, e: Effect)
    requires Leads(a, es, b)
    ensures Leads(a, es + [e], Do(b, e))
  {
    DoAllConcat(a, es, [e]);
    DoOne(b, e);
  }

  function After(es: seq<Effect>, p: Plan): Plan
  {
    Plan(es + p.effects, p.result)
  }

  // After effects es, what is left of all is retrying with tries from s. Said of any t that is tries, so that
  // RetryPlan stays folded.
  ghost predicate Remain(all: Plan, es: seq<Effect>, s: State, tries: seq<Load>)
  {
    forall t | t == tries :: all == After(es, RetryPlan(s, t))
  }

  lemma AllRemain(s: State, tries: seq<Load>)
    ensures Remain(RetryPlan(s, tries), [], s, tries)
  {
    assert [] + RetryPlan(s, tries).effects == RetryPlan(s, tries).effects;
  }

  lemma NoneRemains(all: Plan, es: seq<Effect>, s: State, tries: seq<Load>)
    requires tries == [] && Remain(all, es, s, tries)
    ensures all == Plan(es, RollbackFailed)
  {
    assert all == After(es, RetryPlan(s, tries));
  }

  // One more attempt, from s to r.
  lemma RetryStep(all: Plan, es: seq<Effect>, s: State, tries: seq<Load>, p: Plan, r: State)
    requires tries != [] && Remain(all, es, s, tries) && p == LoadPlan(s, Back, tries[0]) && Leads(s, p.effects, r)
    ensures if p.result == Ok then all == Plan(es + p.effects, Ok) else Remain(all, es + p.effects, r, tries[1..])
  {
    assert all == After(es, RetryPlan(s, tries));
    assert DoAll(s, p.effects) == r;
    assert es + (p.effects + RetryPlan(r, tries[1..]).effects) == (es + p.effects) + RetryPlan(r, tries[1..]).effects;
  }

  function RollbackLast(y: Session, restoreEdits: bool, loaded: bool): seq<Effect>
  {
    if loaded then RollbackEnd(y.reason, restoreEdits) else [WriteSession(y.(phase := Failed))]
  }

  // A rollback whose files are back at mid and whose attempts to reload are retry.
  lemma RollbackShape(s: State, x: Session, reason: Reason, restoreEdits: bool, tries: seq<Load>, mid: State, retry: Plan)
    requires Leads(s, RollbackStart(s, x, reason), mid)
    requires if RestorePlan(s).result == Ok then Remain(retry, [], mid, tries) else retry == Plan([], RollbackFailed)
    ensures RollbackPlan(s, x, reason, restoreEdits, tries) ==
            Plan(RollbackStart(s, x, reason) + retry.effects + RollbackLast(Begun(x, reason), restoreEdits, retry.result == Ok),
                 if retry.result == Ok then Ok else RollbackFailed)
  {
    var start := RollbackStart(s, x, reason);
    assert DoAll(s, start) == mid;
    if RestorePlan(s).result == Ok {
      assert retry == After([], RetryPlan(mid, tries));
      assert [] + RetryPlan(mid, tries).effects == RetryPlan(mid, tries).effects;
    }
  }

  function TailRest(s: State, x: Session, env: Env, loaded: Result): Plan
  {
    if loaded == Ok then Plan(if env.rearm then RearmEffects(s, x, Some(x.token)) else [], Ok)
    else
      var back := RollbackPlan(s, x, FailedApply, true, env.retries);
      Plan(back.effects, if back.result == Ok then LoadFailed else RollbackFailed)
  }

  lemma TailShape(s: State, x: Session, env: Env, mid: State)
    requires Leads(s, LoadPlan(s, Trial, env.load).effects, mid)
    ensures var l := LoadPlan(s, Trial, env.load); ApplyTail(s, x, env) == After(l.effects, TailRest(mid, x, env, l.result))
  {
    assert DoAll(s, LoadPlan(s, Trial, env.load).effects) == mid;
  }

  lemma ApplyShape(s: State, hash: Option<Config>, env: Env, mid: State)
    requires Leads(s, ArmPlan(s, hash, env).effects, mid)
    ensures var a := ArmPlan(s, hash, env);
            ApplyPlan(s, hash, env) == if a.result == Ok then After(a.effects, ApplyTail(mid, Rearmed(s, SessionOf(s)), env)) else a
  {
    assert DoAll(s, ArmPlan(s, hash, env).effects) == mid;
  }

  lemma ReloadShape(s: State, hash: Option<Config>, env: Env, mid: State)
    requires Leads(s, OneWayCheck(s, env).effects, mid)
    ensures var p := OneWayCheck(s, env);
            ReloadPlan(s, hash, env) ==
            if p.result != Ok then p
            else if hash.Some? && mid.cfg != hash then Plan(p.effects, HashMismatch)
            else After(p.effects, LoadPlan(mid, OneWay, env.load))
  {
    assert DoAll(s, OneWayCheck(s, env).effects) == mid;
  }

  function BootLoad(s: State, load: Load): Plan
  {
    if PreferBaseline(s) then LoadKnown(s.hist[0].value, load) else LoadPlan(s, OneWay, load)
  }

  lemma BootShape(s: State, env: Env, mid: State)
    requires Leads(s, OneWayCheck(s, env).effects, mid)
    ensures var p := OneWayCheck(s, env);
            BootPlan(s, env) == if p.result == Ok then After(p.effects, BootLoad(mid, env.load)) else p
  {
    assert DoAll(s, OneWayCheck(s, env).effects) == mid;
  }

  lemma NextShift(h: Chain<Config>, steps: seq<Step<Config>>, i: nat)
    requires 1 <= i < SLOTS
    ensures steps + ShiftSteps(h, i) == (if h[i] != None then steps + [Shift(i)] else steps) + ShiftSteps(h, i - 1)
  {
    if h[i] != None {
      assert ShiftSteps(h, i) == [Shift(i)] + ShiftSteps(h, i - 1);
    } else {
      assert ShiftSteps(h, i) == ShiftSteps(h, i - 1);
    }
  }

  lemma NextCopyOut(h: Chain<Config>, es: seq<Effect>, i: nat)
    requires i < SLOTS
    ensures es + CopyOut(h, i) == (if h[i].Some? then es + [CopyBaseline(i, h[i].value)] else es) + CopyOut(h, i + 1)
  {
    if h[i].Some? {
      assert CopyOut(h, i) == [CopyBaseline(i, h[i].value)] + CopyOut(h, i + 1);
    } else {
      assert CopyOut(h, i) == CopyOut(h, i + 1);
    }
  }

  lemma NextCopyBack(snap: Chain<Config>, es: seq<Effect>, i: nat)
    requires i < SLOTS
    ensures var all := CopyBack(snap, i);
            var first := Rotate(if snap[i].Some? then Put(i, snap[i].value) else Drop(i));
            es + all == es + [first] + CopyBack(snap, i + 1)
  {
  }

  lemma Joined(before: seq<Effect>, a: seq<Effect>, b: seq<Effect>, c: seq<Effect>)
    ensures before + a + b + c == before + (a + b + c)
  {
  }

  lemma Appended(before: seq<Effect>, a: seq<Effect>, b: seq<Effect>)
    ensures before + a + b == before + (a + b)
  {
  }

  function KeptAndWritten(s: State, baseline: Config): seq<Effect>
  {
    (if s.cfg.Some? && s.cfg.value != baseline then [KeepRejected(s.cfg.value)] else []) + [WriteConfig(baseline)]
  }

  lemma RestoreParts(s: State, baseline: Config, files: seq<Effect>)
    requires s.snap[0] == Some(baseline) && files == KeptAndWritten(s, baseline)
    ensures RestorePlan(s) == Plan(files + CopyBack(s.snap, 0), Ok)
  {
  }

  // What RestorePlan looks at.
  lemma RestoreLooksAt(a: State, b: State)
    requires a.cfg == b.cfg && a.snap == b.snap
    ensures RestorePlan(a) == RestorePlan(b)
  {
  }

  // What the machine has of s but for the session directory, or but for the records.
  predicate SameRest(s: State, r: State)
  {
    && r.cfg == s.cfg && r.reverted == s.reverted && r.lastRevert == s.lastRevert && r.armed == s.armed && r.fired == s.fired
    && r.nextToken == s.nextToken && r.boot == s.boot && r.fw == s.fw && r.geo == s.geo && r.wg == s.wg
  }

  lemma SessionFields(s: State, e: Effect)
    requires e.WriteSession? || e.DropSession?
    ensures var r := Do(s, e);
            && SameRest(s, r) && r.hist == s.hist && r.applied == s.applied
            && (if e.WriteSession? then r.session == Some(e.session) && r.snap == s.snap else r.session == None && r.snap == NoFiles())
  {
  }

  lemma HostFields(s: State, e: Effect)
    requires e.LoadFirewall? || e.LoadWireGuard? || e.LoadGeo?
    ensures var r := Do(s, e);
            && r == s.(fw := r.fw, geo := r.geo, wg := r.wg, onTrial := r.onTrial, trial := r.trial)
            && r.fw == (if e.LoadFirewall? then Some(e.content) else s.fw)
            && r.geo == (if e.LoadFirewall? then GeoSets(e.content) else if e.LoadGeo? then Some(e.content) else s.geo)
            && r.wg == (if e.LoadWireGuard? then Some(e.content) else s.wg)
  {
  }

  lemma ConfigFields(s: State, e: Effect)
    requires e.WriteConfig? || e.KeepRejected? || e.RestoreEdits? || e.RemoveReverted? || e.WriteLastRevert? || e.RemoveLastRevert?
    ensures var r := Do(s, e);
            && r == s.(cfg := r.cfg, reverted := r.reverted, lastRevert := r.lastRevert)
            && r.cfg == (if e.WriteConfig? then Some(e.content) else if e.RestoreEdits? && s.reverted.Some? then s.reverted else s.cfg)
            && r.reverted == (if e.KeepRejected? then Some(e.content) else if e.RestoreEdits? || e.RemoveReverted? then None else s.reverted)
            && r.lastRevert == (if e.WriteLastRevert? then Some(e.reason) else if e.RemoveLastRevert? then None else s.lastRevert)
  {
  }

  lemma RecordFields(s: State, e: Effect)
    requires e.Rotate? || e.RecordHash?
    ensures var r := Do(s, e);
            && SameRest(s, r) && r.session == s.session && r.snap == s.snap
            && (if e.Rotate? then r.hist == Take(s.hist, e.step) && r.applied == s.applied else r.hist == s.hist && r.applied == Some(e.content))
  {
  }

  lemma KnownLoaded(s: State, c: Config, load: Load)
    ensures var p := LoadKnown(c, load); var r := DoAll(s, p.effects);
            r.hist == s.hist && r.applied == s.applied && (p.result == Ok ==> r.fw == r.wg == Some(c))
  {
    DoOne(s, LoadFirewall(c, OneWay));
    DoTwo(s, LoadFirewall(c, OneWay), LoadWireGuard(c));
  }

  lemma OneWayLoaded(s: State, load: Load)
    ensures var p := LoadPlan(s, OneWay, load);
            p.result == Ok ==> var r := DoAll(s, p.effects); r.fw == r.wg == r.applied == r.hist[0] == r.cfg == s.cfg
  {
    if LoadPlan(s, OneWay, load).result == Ok {
      LoadRun(s, OneWay, load);
      RecordWhole(s.hist, s.cfg.value);
    }
  }

  lemma BootLoaded(s: State, load: Load, r: State)
    requires Leads(s, BootLoad(s, load).effects, r)
    ensures PreferBaseline(s) ==> r.hist == s.hist && r.applied == s.applied
    ensures BootLoad(s, load).result == Ok ==> if PreferBaseline(s) then r.fw == r.wg == s.hist[0] else r.fw == r.wg == r.applied == r.hist[0] == s.cfg
  {
    assert DoAll(s, BootLoad(s, load).effects) == r;
    if PreferBaseline(s) {
      KnownLoaded(s, s.hist[0].value, load);
    } else {
      OneWayLoaded(s, load);
    }
  }

  // A rollback that got the baseline loaded.
  predicate BackAtBaseline(s: State, r: State)
  {
    r.session == None && r.hist == s.snap && r.cfg == r.applied == r.fw == r.wg == s.snap[0]
  }

  lemma Recovered(s: State, x: Session, tries: seq<Load>)
    requires Inv(s) && s.session == Some(x)
    ensures var p := RollbackPlan(s, x, Interrupted, false, tries); var r := DoAll(s, p.effects);
            && (p.result == Ok <==> Full in tries)
            && if p.result == Ok then BackAtBaseline(s, r) else r.session.Some? && r.session.value.phase == Failed
  {
    RollbackRun(s, x, Interrupted, false, tries);
    if Full in tries {
      RollbackOutcome(s, x, Interrupted, false, tries);
    }
  }

  class Host {
    var cfg: Option<Config>
    var hist: Chain<Config>
    var applied: Option<Config>
    var session: Option<Session>
    var snap: Chain<Config>
    var reverted: Option<Config>
    var lastRevert: Option<Reason>
    var armed: set<Token>
    var fired: set<Token>
    var nextToken: Token
    var boot: nat
    var fw: Option<Config>
    var geo: Option<Config>
    var wg: Option<Config>

    // What the fields stand for, with the bookkeeping; the state it began as; and every effect since.
    ghost var view: State
    ghost const origin: State
    ghost var log: seq<Effect>

    ghost predicate Valid()
      reads this
    {
      && Leads(origin, log, view)
      && view.cfg == cfg && view.hist == hist && view.applied == applied && view.session == session && view.snap == snap
      && view.reverted == reverted && view.lastRevert == lastRevert && view.armed == armed && view.fired == fired
      && view.nextToken == nextToken && view.boot == boot && view.fw == fw && view.geo == geo && view.wg == wg
    }

    // Exactly these effects happened, in this order.
    twostate predicate Did(es: seq<Effect>)
      reads this
    {
      log == old(log) + es
    }

    /** So they are what leads from the old state to this one. */
    twostate lemma Collected(es: seq<Effect>)
      requires old(Valid()) && Valid() && Did(es)
      ensures Leads(old(view), es, view)
    {
      DoAllConcat(origin, old(log), es);
      assert DoAll(origin, old(log)) == old(view);
    }

    constructor (cfg: Option<Config>)
      ensures Valid() && view == Fresh(cfg) && log == []
    {
      this.cfg, hist, applied, session, snap := cfg, NoFiles(), None, None, NoFiles();
      reverted, lastRevert := None, None;
      armed, fired, nextToken, boot := {}, {}, 0, 0;
      fw, geo, wg := None, None, None;
      view, origin, log := Fresh(cfg), Fresh(cfg), [];
    }

    // ---- One file operation or command ----

    method OnTimers(e: Effect)
      requires Valid()
      requires e.ArmTimer? || e.StopTimer?
      modifies `armed, `nextToken, `view, `log
      ensures Valid() && log == old(log) + [e] && view == Do(old(view), e)
    {
      OneMore(origin, log, view, e);
      match e {
        case ArmTimer(t) => armed, nextToken := armed + {t}, if t < nextToken then nextToken else t + 1;
        case StopTimer(t, _) => armed := armed - {t};
      }
      view, log := Do(view, e), log + [e];
    }

    method OnSession(e: Effect)
      requires Valid()
      requires e.WriteSession? || e.DropSession?
      modifies `session, `snap, `view, `log
      ensures Valid() && log == old(log) + [e] && view == Do(old(view), e)
    {
      SessionFields(view, e);
      OneMore(origin, log, view, e);
      if e.WriteSession? {
        session := Some(e.session);
      } else {
        session, snap := None, NoFiles();
      }
      view, log := Do(view, e), log + [e];
    }

    method OnCopies(e: Effect)
      requires Valid()
      requires e.ClearDir? || e.CopyBaseline?
      modifies `session, `snap, `view, `log
      ensures Valid() && log == old(log) + [e] && view == Do(old(view), e)
    {
      OneMore(origin, log, view, e);
      match e {
        case ClearDir => session, snap := None, NoFiles();
        case CopyBaseline(i, c) => snap := Take(snap, Put(i, c));
      }
      view, log := Do(view, e), log + [e];
    }

    method OnConfig(e: Effect)
      requires Valid()
      requires e.WriteConfig? || e.KeepRejected? || e.RestoreEdits? || e.RemoveReverted? || e.WriteLastRevert? || e.RemoveLastRevert?
      modifies `cfg, `reverted, `lastRevert, `view, `log
      ensures Valid() && log == old(log) + [e] && view == Do(old(view), e)
    {
      ConfigFields(view, e);
      OneMore(origin, log, view, e);
      match e {
        case WriteConfig(c) => cfg := Some(c);
        case KeepRejected(c) => reverted := Some(c);
        case RestoreEdits => if reverted != None { cfg, reverted := reverted, None; }
        case RemoveReverted => reverted := None;
        case WriteLastRevert(reason) => lastRevert := Some(reason);
        case RemoveLastRevert => lastRevert := None;
      }
      view, log := Do(view, e), log + [e];
    }

    method OnRecords(e: Effect)
      requires Valid()
      requires e.Rotate? || e.RecordHash?
      modifies `hist, `applied, `view, `log
      ensures Valid() && log == old(log) + [e] && view == Do(old(view), e)
    {
      RecordFields(view, e);
      OneMore(origin, log, view, e);
      if e.Rotate? {
        hist := Take(hist, e.step);
      } else {
        applied := Some(e.content);
      }
      view, log := Do(view, e), log + [e];
    }

    method OnHost(e: Effect)
      requires Valid()
      requires e.LoadFirewall? || e.LoadWireGuard? || e.LoadGeo?
      modifies `fw, `geo, `wg, `view, `log
      ensures Valid() && log == old(log) + [e] && view == Do(old(view), e)
    {
      HostFields(view, e);
      OneMore(origin, log, view, e);
      match e {
        case LoadFirewall(c, _) => fw, geo := Some(c), GeoSets(c);
        case LoadWireGuard(c) => wg := Some(c);
        case LoadGeo(c) => geo := Some(c);
      }
      view, log := Do(view, e), log + [e];
    }

    // ---- Files copied and rotated ----

    // One file operation on the history, after the operations steps since before.
    method Rotated(step: Step<Config>, ghost before: seq<Effect>, ghost steps: seq<Step<Config>>)
      requires Valid() && log == before + Rotations(steps)
      modifies `hist, `applied, `view, `log
      ensures Valid() && log == before + Rotations(steps + [step]) && hist == Take(old(hist), step)
    {
      assert Rotations(steps + [step]) == Rotations(steps) + [Rotate(step)];
      OnRecords(Rotate(step));
    }

    /** RecordAppliedConfigSnapshot. */
    method RecordSnapshot(cur: Config)
      requires Valid()
      modifies `hist, `applied, `view, `log
      ensures Valid() && Did(Rotations(RecordSteps(old(hist), cur)))
    {
      ghost var h, before, steps := hist, log, [];
      assert Rotations([]) == [];
      if hist[0] == None {
        Rotated(Put(0, cur), before, []);
        return;
      }
      if hist[0] == Some(cur) {
        return;
      }
      Rotated(Drop(5), before, []);
      steps := [Drop(5)];
      steps := MoveDown(h, before, steps);
      Rotated(Shift(0), before, steps);
      steps := steps + [Shift(0)];
      Rotated(Put(0, cur), before, steps);
      assert steps + [Put(0, cur)] == RecordSteps(h, cur);
    }

    // The renames of .bak.4 ... .bak.1, each one file down.
    method MoveDown(ghost h: Chain<Config>, ghost before: seq<Effect>, ghost first: seq<Step<Config>>) returns (ghost steps: seq<Step<Config>>)
      requires Valid() && log == before + Rotations(first) && hist[..5] == h[..5]
      modifies `hist, `applied, `view, `log
      ensures Valid() && log == before + Rotations(steps) && steps == first + ShiftSteps(h, 4)
    {
      steps := first;
      ghost var all := first + ShiftSteps(h, 4);
      var i := 4;
      while i >= 1
        invariant 0 <= i <= 4 && Valid() && hist[..i + 1] == h[..i + 1]
        invariant log == before + Rotations(steps) && steps + ShiftSteps(h, i) == all
      {
        assert hist[i] == h[i] && hist[..i] == h[..i];
        NextShift(h, steps, i);
        if hist[i] != None {
          ghost var was := hist;
          Rotated(Shift(i), before, steps);
          assert hist[..i] == was[..i];
          steps := steps + [Shift(i)];
        }
        i := i - 1;
      }
    }

    /** snapshotConfirmBaseline. */
    method SnapshotBaseline()
      requires Valid()
      modifies `session, `snap, `view, `log
      ensures Valid() && Did([ClearDir] + CopyOut(hist, 0))
    {
      ghost var before, es, all := log, [ClearDir], [ClearDir] + CopyOut(hist, 0);
      OnCopies(ClearDir);
      for i := 0 to SLOTS
        invariant Valid() && log == before + es && es + CopyOut(hist, i) == all
      {
        NextCopyOut(hist, es, i);
        if hist[i].Some? {
          OnCopies(CopyBaseline(i, hist[i].value));
          Appended(before, es, [CopyBaseline(i, hist[i].value)]);
          es := es + [CopyBaseline(i, hist[i].value)];
        }
      }
      assert CopyOut(hist, SLOTS) == [];
    }

    // The copies of the history back over it.
    method CopyHistoryBack()
      requires Valid()
      modifies `hist, `applied, `view, `log
      ensures Valid() && Did(CopyBack(snap, 0))
    {
      ghost var before, es, all := log, [], CopyBack(snap, 0);
      for i := 0 to SLOTS
        invariant Valid() && log == before + es && es + CopyBack(snap, i) == all
      {
        NextCopyBack(snap, es, i);
        var step := if snap[i].Some? then Put(i, snap[i].value) else Drop(i);
        OnRecords(Rotate(step));
        Appended(before, es, [Rotate(step)]);
        es := es + [Rotate(step)];
      }
      assert CopyBack(snap, SLOTS) == [];
    }

    // Keeps what config.yaml holds, if it is not the baseline, and writes the baseline there.
    method KeepAndWrite(baseline: Config) returns (ghost es: seq<Effect>)
      requires Valid()
      modifies `cfg, `reverted, `lastRevert, `view, `log
      ensures Valid() && Did(es) && es == KeptAndWritten(old(view), baseline)
    {
      es := [];
      if cfg.Some? && cfg.value != baseline {
        es := [KeepRejected(cfg.value)];
        OnConfig(KeepRejected(cfg.value));
      }
      OnConfig(WriteConfig(baseline));
      es := es + [WriteConfig(baseline)];
    }

    /** restoreConfirmBaseline. */
    method RestoreBaseline() returns (r: Result)
      requires Valid()
      modifies `cfg, `reverted, `lastRevert, `hist, `applied, `view, `log
      ensures Valid() && Did(RestorePlan(old(view)).effects) && r == RestorePlan(old(view)).result
    {
      if snap[0] == None {
        return RollbackFailed;
      }
      var baseline := snap[0].value;
      ghost var before, back := log, CopyBack(snap, 0);
      ghost var files := KeepAndWrite(baseline);
      RestoreParts(old(view), baseline, files);
      CopyHistoryBack();
      Appended(before, files, back);
      return Ok;
    }

    // ---- Reload and rollback ----

    // The host onto c, then the hash.
    method LoadHost(kind: LoadKind, c: Config)
      requires Valid()
      modifies `fw, `geo, `wg, `hist, `applied, `view, `log
      ensures Valid() && Did(HostEffects(kind, c)) && hist == old(hist)
    {
      OnHost(LoadFirewall(c, kind));
      OnHost(LoadWireGuard(c));
      OnRecords(RecordHash(c, kind));
    }

    /** reload. */
    method Reload(kind: LoadKind, load: Load) returns (r: Result)
      requires Valid()
      modifies `fw, `geo, `wg, `hist, `applied, `view, `log
      ensures Valid() && Did(LoadPlan(old(view), kind, load).effects) && r == LoadPlan(old(view), kind, load).result
    {
      if cfg == None || !cfg.value.valid || load == Refused {
        return LoadFailed;
      }
      var c := cfg.value;
      if load == FirewallOnly {
        OnHost(LoadFirewall(c, kind));
        return LoadFailed;
      }
      ghost var before := log;
      LoadHost(kind, c);
      RecordSnapshot(c);
      Appended(before, HostEffects(kind, c), Rotations(RecordSteps(old(hist), c)));
      return Ok;
    }

    // The attempts of a rollback to put the baseline on the host.
    method RetryReload(tries: seq<Load>) returns (r: Result, ghost all: Plan)
      requires Valid()
      modifies `fw, `geo, `wg, `hist, `applied, `view, `log
      ensures Valid() && Remain(all, [], old(view), tries) && Did(all.effects) && r == all.result
    {
      all := RetryPlan(view, tries);
      ghost var before, es, rest := log, [], tries;
      var attempt := 0;
      r := RollbackFailed;
      AllRemain(view, tries);
      while attempt < |tries| && r != Ok
        invariant 0 <= attempt <= |tries| && rest == tries[attempt..] && Valid() && log == before + es
        invariant r == Ok || r == RollbackFailed
        invariant if r == Ok then all == Plan(es, Ok) else Remain(all, es, view, rest)
      {
        r, es := Attempt(tries[attempt], all, before, es, rest);
        rest := rest[1..];
        attempt := attempt + 1;
      }
      if r != Ok {
        NoneRemains(all, es, view, rest);
      }
    }

    // The next of the attempts that remain, after effects es since before.
    method Attempt(load: Load, ghost all: Plan, ghost before: seq<Effect>, ghost es: seq<Effect>, ghost rest: seq<Load>)
      returns (r: Result, ghost now: seq<Effect>)
      requires Valid() && log == before + es && rest != [] && rest[0] == load && Remain(all, es, view, rest)
      modifies `fw, `geo, `wg, `hist, `applied, `view, `log
      ensures Valid() && log == before + now
      ensures r == Ok || r == RollbackFailed
      ensures if r == Ok then all == Plan(now, Ok) else Remain(all, now, view, rest[1..])
    {
      ghost var p := LoadPlan(view, Back, load);
      r := Reload(Back, load);
      Collected(p.effects);
      RetryStep(all, es, old(view), rest, p, view);
      now := es + p.effects;
      if r != Ok {
        r := RollbackFailed;
      }
    }

    // Stops the timer, marks the session, and brings the files back.
    method BeginRollback(x: Session, reason: Reason) returns (r: Result)
      requires Valid()
      modifies this
      ensures Valid() && Did(RollbackStart(old(view), x, reason)) && r == RestorePlan(old(view)).result
    {
      ghost var before, restore := log, RestorePlan(view);
      OnTimers(StopTimer(x.token, true));
      OnSession(WriteSession(x.(phase := RollingBack, reason := if x.reason == NoReason then reason else x.reason)));
      RestoreLooksAt(view, old(view));
      assert log == before + [StopTimer(x.token, true), WriteSession(Begun(x, reason))];
      r := RestoreBaseline();
      Appended(before, [StopTimer(x.token, true), WriteSession(Begun(x, reason))], restore.effects);
    }

    // Ends the session when the baseline is loaded, and otherwise leaves it to be retried.
    method EndRollback(y: Session, restoreEdits: bool, loaded: bool)
      requires Valid()
      modifies this
      ensures Valid() && Did(RollbackLast(y, restoreEdits, loaded))
    {
      if !loaded {
        OnSession(WriteSession(y.(phase := Failed)));
        return;
      }
      if y.reason == FailedApply && restoreEdits {
        OnConfig(RestoreEdits);
      } else {
        OnConfig(WriteLastRevert(y.reason));
      }
      OnSession(DropSession(Reverted));
    }

    /** rollbackLocked. */
    method RollbackLocked(x: Session, reason: Reason, restoreEdits: bool, tries: seq<Load>) returns (r: Result)
      requires Valid()
      modifies this
      ensures Valid() && Did(RollbackPlan(old(view), x, reason, restoreEdits, tries).effects)
      ensures r == RollbackPlan(old(view), x, reason, restoreEdits, tries).result
    {
      ghost var before, start, retry := log, RollbackStart(view, x, reason), Plan([], RollbackFailed);
      r := BeginRollback(x, reason);
      Collected(start);
      ghost var mid := view;
      if r == Ok {
        r, retry := RetryReload(tries);
      }
      RollbackShape(old(view), x, reason, restoreEdits, tries, mid, retry);
      EndRollback(Begun(x, reason), restoreEdits, r == Ok);
      if r != Ok {
        r := RollbackFailed;
      }
      Joined(before, start, retry.effects, RollbackLast(Begun(x, reason), restoreEdits, retry.result == Ok));
    }

    // ---- Applying with confirm ----

    /** rearmConfirmSession. */
    method RearmSession(x: Session, replaced: Option<Token>) returns (next: Session)
      requires Valid()
      modifies `armed, `nextToken, `session, `snap, `view, `log
      ensures Valid() && Did(RearmEffects(old(view), x, replaced)) && next == Rearmed(old(view), x)
    {
      var token := nextToken;
      OnTimers(ArmTimer(token));
      next := x.(token := token, boot := boot);
      OnSession(WriteSession(next));
      if replaced.Some? {
        OnTimers(StopTimer(replaced.value, false));
      }
    }

    method BaselineKnown() returns (known: bool)
      requires Valid()
      ensures known == KnownBaseline(view)
    {
      known := hist[0].Some? && applied == hist[0] && hist[0].value.valid;
    }

    method ForgetLastRevert()
      requires Valid()
      modifies `cfg, `reverted, `lastRevert, `view, `log
      ensures Valid() && Did([RemoveLastRevert, RemoveReverted])
      ensures cfg == old(cfg) && reverted == None && lastRevert == None
    {
      OnConfig(RemoveLastRevert);
      OnConfig(RemoveReverted);
    }

    // The copies, then the timer and the session.
    method StartSession(arm: bool) returns (r: Result, x: Session)
      requires Valid() && session == None && KnownBaseline(view)
      modifies this
      ensures Valid() && Did(ArmPlan(old(view), None, Env(arm, false, Refused, [], Unclear)).effects)
      ensures r == if arm then Ok else Unavailable
      ensures arm ==> x == Rearmed(old(view), NewSession())
    {
      SnapshotBaseline();
      if !arm {
        OnCopies(ClearDir);
        return Unavailable, NewSession();
      }
      x := RearmSession(NewSession(), None);
      ForgetLastRevert();
      r := Ok;
    }

    // ReloadWithConfirmIfMatch up to its reload.
    method ArmSession(hash: Option<Config>, env: Env) returns (r: Result, x: Session)
      requires Valid()
      modifies this
      ensures Valid() && Did(ArmPlan(old(view), hash, env).effects) && r == ArmPlan(old(view), hash, env).result
      ensures r == Ok ==> x == Rearmed(old(view), SessionOf(old(view)))
    {
      x := NewSession();
      if session.Some? && session.value.phase != Active {
        return RollbackFailed, x;
      }
      if hash.Some? && cfg != hash {
        return HashMismatch, x;
      }
      if session.Some? {
        if !env.arm {
          return Unavailable, x;
        }
        x := RearmSession(session.value, Some(session.value.token));
        return Ok, x;
      }
      var known := BaselineKnown();
      if !known {
        return NoBaseline, x;
      }
      r, x := StartSession(env.arm);
    }

    // What follows the reload of an Apply that ended with loaded.
    method AfterTrial(x: Session, env: Env, loaded: Result) returns (r: Result)
      requires Valid()
      modifies this
      ensures Valid() && Did(TailRest(old(view), x, env, loaded).effects) && r == TailRest(old(view), x, env, loaded).result
    {
      if loaded != Ok {
        r := RollbackLocked(x, FailedApply, true, env.retries);
        return if r == Ok then LoadFailed else RollbackFailed;
      }
      if env.rearm {
        var _ := RearmSession(x, Some(x.token));
      }
      r := Ok;
    }

    // The reload of an Apply and what follows it, for session x.
    method LoadOnTrial(x: Session, env: Env) returns (r: Result)
      requires Valid()
      modifies this
      ensures Valid() && Did(ApplyTail(old(view), x, env).effects) && r == ApplyTail(old(view), x, env).result
    {
      ghost var before, l := log, LoadPlan(view, Trial, env.load);
      r := Reload(Trial, env.load);
      Collected(l.effects);
      ghost var mid := view;
      r := AfterTrial(x, env, r);
      TailShape(old(view), x, env, mid);
      Appended(before, l.effects, TailRest(mid, x, env, l.result).effects);
    }

    /** ReloadWithConfirmIfMatch. */
    method ReloadWithConfirm(hash: Option<Config>, env: Env) returns (r: Result)
      requires Valid()
      modifies this
      ensures Valid() && Did(ApplyPlan(old(view), hash, env).effects) && r == ApplyPlan(old(view), hash, env).result
    {
      ghost var before, a := log, ArmPlan(view, hash, env);
      var x;
      r, x := ArmSession(hash, env);
      Collected(a.effects);
      ghost var mid := view;
      ApplyShape(old(view), hash, env, mid);
      if r != Ok {
        return;
      }
      r := LoadOnTrial(x, env);
      Appended(before, a.effects, ApplyTail(mid, x, env).effects);
    }

    // ---- Reloads nobody confirms ----

    // sessionTimerState, given systemctl's answer.
    method TimerAnswer(x: Session, answer: Answer) returns (r: Answer)
      requires Valid()
      ensures r == TimerState(view, x, answer)
    {
      r := if boot != x.boot then Dead else answer;
    }

    /** checkOneWayReload. */
    method CheckOneWayReload(env: Env) returns (r: Result)
      requires Valid()
      modifies this
      ensures Valid() && Did(OneWayCheck(old(view), env).effects) && r == OneWayCheck(old(view), env).result
      ensures old(session).Some? && old(session).value.phase == Active && old(boot) == old(session).value.boot && env.answer != Dead ==>
                r == SessionActive && view == old(view)
    {
      if session == None {
        return Ok;
      }
      var x := session.value;
      var answer := TimerAnswer(x, env.answer);
      if x.phase == Active && answer != Dead {
        return SessionActive;
      }
      r := RollbackLocked(x, Interrupted, false, env.retries);
    }

    /** ReloadIfMatch. */
    method ReloadIfMatch(hash: Option<Config>, env: Env) returns (r: Result)
      requires Valid()
      modifies this
      ensures Valid() && Did(ReloadPlan(old(view), hash, env).effects) && r == ReloadPlan(old(view), hash, env).result
    {
      ghost var before, check := log, OneWayCheck(view, env);
      r := CheckOneWayReload(env);
      Collected(check.effects);
      ghost var mid := view;
      ReloadShape(old(view), hash, env, mid);
      if r != Ok {
        return;
      }
      if hash.Some? && cfg != hash {
        return HashMismatch;
      }
      r := Reload(OneWay, env.load);
      Appended(before, check.effects, LoadPlan(mid, OneWay, env.load).effects);
    }

    // applyToHost with the last applied config.
    method LoadBaseline(load: Load) returns (r: Result)
      requires Valid() && hist[0].Some?
      modifies `fw, `geo, `wg, `view, `log
      ensures Valid() && Did(LoadKnown(old(hist[0].value), load).effects) && r == LoadKnown(old(hist[0].value), load).result
    {
      var c := hist[0].value;
      if load == Refused {
        return LoadFailed;
      }
      OnHost(LoadFirewall(c, OneWay));
      if load == FirewallOnly {
        return LoadFailed;
      }
      OnHost(LoadWireGuard(c));
      return Ok;
    }

    /** ReloadAtBoot. */
    method ReloadAtBoot(env: Env) returns (r: Result)
      requires Valid()
      modifies this
      ensures Valid() && Did(BootPlan(old(view), env).effects) && r == BootPlan(old(view), env).result
    {
      ghost var before, check := log, OneWayCheck(view, env);
      r := CheckOneWayReload(env);
      if r != Ok {
        return;
      }
      Collected(check.effects);
      ghost var mid := view;
      r := LoadAtBoot(env.load);
      BootShape(old(view), env, mid);
      Appended(before, check.effects, BootLoad(mid, env.load).effects);
    }

    // The load of ReloadAtBoot: the last applied config, if it can be and asks for confirmation, without touching the
    // records; else config.yaml, recorded like any reload.
    method LoadAtBoot(load: Load) returns (r: Result)
      requires Valid()
      modifies `fw, `geo, `wg, `hist, `applied, `view, `log
      ensures Valid() && Did(BootLoad(old(view), load).effects) && r == BootLoad(old(view), load).result
      ensures PreferBaseline(old(view)) ==> hist == old(hist) && applied == old(applied) && (r == Ok ==> fw == wg == hist[0])
      ensures !PreferBaseline(old(view)) && r == Ok ==> fw == wg == applied == hist[0] == cfg
    {
      var known := BaselineKnown();
      if known && hist[0].value.confirm {
        r := LoadBaseline(load);
      } else {
        r := Reload(OneWay, load);
      }
      Collected(BootLoad(old(view), load).effects);
      BootLoaded(old(view), load, view);
    }

    /** RecoverConfirmSession: a session with a live timer stays as it is; any other is taken back, or stays, failed. */
    method RecoverSession(env: Env) returns (r: Result)
      requires Valid()
      modifies this
      ensures Valid() && Did(RecoverPlan(old(view), env).effects) && r == RecoverPlan(old(view), env).result
      ensures old(session) == None || (old(session).value.phase == Active && TimerState(old(view), old(session).value, env.answer) != Dead) ==>
                r == Ok && view == old(view)
      ensures Inv(old(view)) && old(session).Some? && (old(session).value.phase != Active || TimerState(old(view), old(session).value, env.answer) == Dead) ==>
                && (r == Ok <==> Full in env.retries)
                && if r == Ok then BackAtBaseline(old(view), view) else session.Some? && session.value.phase == Failed
    {
      if session == None {
        return Ok;
      }
      var x := session.value;
      var answer := TimerAnswer(x, env.answer);
      if x.phase == Active && answer != Dead {
        return Ok;
      }
      r := RollbackLocked(x, Interrupted, false, env.retries);
      Collected(RecoverPlan(old(view), env).effects);
      if Inv(old(view)) {
        Recovered(old(view), x, env.retries);
      }
    }

    // ---- Ending a session ----

    /** ConfirmApply: a waiting session and its copies go, and its timer; config.yaml, the records and the host stay. */
    method ConfirmApply() returns (r: Result)
      requires Valid()
      modifies `session, `snap, `armed, `nextToken, `view, `log
      ensures Valid() && Did(ConfirmPlan(old(view)).effects) && r == ConfirmPlan(old(view)).result
      ensures r == Ok <==> old(session).Some? && old(session).value.phase == Active
      ensures r == Ok ==> session == None && snap == NoFiles() && armed == old(armed) - {old(session).value.token}
      ensures r != Ok ==> session == old(session) && snap == old(snap) && armed == old(armed)
    {
      if session == None {
        return NoSession;
      }
      if session.value.phase != Active {
        return RollbackFailed;
      }
      var token := session.value.token;
      OnSession(DropSession(Confirmed));
      OnTimers(StopTimer(token, false));
      r := Ok;
    }

    /** RevertApply. */
    method RevertApply(token: Option<Token>, env: Env) returns (r: Result)
      requires Valid()
      modifies this
      ensures Valid() && Did(RevertPlan(old(view), token, env).effects) && r == RevertPlan(old(view), token, env).result
    {
      if session == None || (token.Some? && token.value != session.value.token) {
        return NoSession;
      }
      r := RollbackLocked(session.value, if token.Some? then Timeout else Manual, true, env.retries);
    }

    // ---- config.yaml ----

    method WriteValid(c: Config) returns (r: Result)
      requires Valid()
      modifies `cfg, `reverted, `lastRevert, `view, `log
      ensures Valid() && Did(SavePlan(c).effects) && r == SavePlan(c).result
      ensures cfg == (if c.valid then Some(c) else old(cfg)) && reverted == old(reverted) && lastRevert == old(lastRevert)
    {
      if !c.valid {
        return Invalid;
      }
      OnConfig(WriteConfig(c));
      r := Ok;
    }

    /** RestorePreviousAppliedConfigYAML. */
    method RestorePreviousConfig() returns (r: Result)
      requires Valid()
      modifies `cfg, `reverted, `lastRevert, `view, `log
      ensures Valid() && Did(RestorePreviousPlan(old(view)).effects) && r == RestorePreviousPlan(old(view)).result
    {
      if hist[0] == None {
        return NoSnapshot;
      }
      var n := 1;
      while n < SLOTS && (hist[n] == None || hist[n] == hist[0])
        invariant 1 <= n <= SLOTS && FirstOther(hist, 1) == FirstOther(hist, n)
      {
        n := n + 1;
      }
      if n == SLOTS {
        return NoSnapshot;
      }
      r := WriteValid(hist[n].value);
    }

    /** DiscardPendingConfigYAML: config.yaml is .bak again, or as it was. */
    method DiscardPending() returns (r: Result)
      requires Valid()
      modifies `cfg, `reverted, `lastRevert, `view, `log
      ensures Valid() && Did(DiscardPlan(old(view)).effects) && r == DiscardPlan(old(view)).result
      ensures r == Ok <==> old(cfg).Some? && hist[0].Some? && old(cfg) != hist[0] && hist[0].value.valid
      ensures cfg == (if r == Ok then hist[0] else old(cfg)) && reverted == old(reverted) && lastRevert == old(lastRevert)
      ensures r == NothingPending ==> cfg == hist[0]
    {
      if hist[0] == None || cfg == None {
        return NoSnapshot;
      }
      if cfg == hist[0] {
        return NothingPending;
      }
      r := WriteValid(hist[0].value);
    }

    method TakeRejected(c: Config)
      requires Valid()
      modifies `cfg, `reverted, `lastRevert, `view, `log
      ensures Valid() && Did([WriteConfig(c), RemoveLastRevert, RemoveReverted])
      ensures cfg == Some(c) && reverted == None && lastRevert == None
    {
      OnConfig(WriteConfig(c));
      ForgetLastRevert();
    }

    /** RestoreRevertedConfig: the rejected config moves to config.yaml, and no pending edit is lost by it. */
    method RestoreRejected() returns (r: Result)
      requires Valid()
      modifies `cfg, `reverted, `lastRevert, `view, `log
      ensures Valid() && Did(RestoreRevertedPlan(old(view)).effects) && r == RestoreRevertedPlan(old(view)).result
      ensures r == Ok ==> cfg == old(reverted) != None && reverted == None && lastRevert == None && old(cfg) == hist[0] && session == None
      ensures r != Ok ==> cfg == old(cfg) && reverted == old(reverted) && lastRevert == old(lastRevert)
      ensures r == Ok <==> session == None && old(reverted).Some? && old(reverted).value.valid && old(cfg).Some? && old(cfg) == hist[0]
    {
      if session.Some? {
        return SessionActive;
      }
      if reverted == None {
        return NoReverted;
      }
      if !reverted.value.valid {
        return Invalid;
      }
      if cfg == None || hist[0] == None {
        return NoSnapshot;
      }
      if cfg != hist[0] {
        return PendingEdits;
      }
      TakeRejected(reverted.value);
      r := Ok;
    }

    // The config whose geo sets to load, if it can be used.
    method GeoConfig() returns (c: Option<Config>)
      requires Valid()
      ensures c == if PreferBaseline(view) then hist[0] else if cfg.Some? && cfg.value.valid then cfg else None
    {
      var known := BaselineKnown();
      if known && hist[0].value.confirm {
        return hist[0];
      }
      c := if cfg.Some? && cfg.value.valid then cfg else None;
    }

    /** UpdateGeo: at most the geo sets change, to those of the config that runs; never while a session is on disk. */
    method UpdateGeoSets(env: Env) returns (r: Result)
      requires Valid()
      modifies `fw, `geo, `wg, `view, `log
      ensures Valid() && Did(GeoPlan(old(view), env).effects) && r == GeoPlan(old(view), env).result
      ensures fw == old(fw) && wg == old(wg) && (r != Ok ==> geo == old(geo))
      ensures r == Ok ==> session == None && geo.Some? && geo.value.geo && geo == if PreferBaseline(old(view)) then hist[0] else cfg
    {
      if session.Some? {
        return SessionActive;
      }
      var chosen := GeoConfig();
      if chosen == None {
        return LoadFailed;
      }
      var c := chosen.value;
      if !c.geo {
        return GeoOff;
      }
      if env.load != Full {
        return LoadFailed;
      }
      OnHost(LoadGeo(c));
      r := Ok;
    }
  }
}

/** What a boot makes live. */
module ApplyBoot {
  import opened Common
  import opened History
  import opened ApplyState
  import opened ApplyPlans
  import opened ApplySafety
  import opened ApplyRuns
  import opened ApplyWorld
  import opened ApplyClaims

  // ---- Exactly when it is the last applied config ----

  /** With no session, a boot loads one config only: the last applied one, whatever config.yaml holds, when the records
      agree on it and it asks for confirmation; else config.yaml. */
  lemma BootLoadsOne(s: State, env: Env)
    requires s.session == None
    ensures var p := BootPlan(s, env); var c := if PreferBaseline(s) then s.hist[0] else s.cfg;
            && LoadsOnly(p.effects, c)
            && (p.result == Ok ==> var r := DoAll(s, p.effects); r.fw == r.wg == c && r.cfg == s.cfg)
  {
    var p := BootPlan(s, env);
    if PreferBaseline(s) {
      var c := s.hist[0].value;
      LoadKnownRun(s, c, env.load);
      assert p.effects == [] + LoadKnown(c, env.load).effects == LoadKnown(c, env.load).effects;
    } else {
      LoadPlanLoads(s, OneWay, env.load);
      LoadRun(s, OneWay, env.load);
      assert p.effects == [] + LoadPlan(s, OneWay, env.load).effects == LoadPlan(s, OneWay, env.load).effects;
    }
  }

  /** So with confirm on in the config the recorded hash names, a boot that succeeds makes exactly that config live if and
      only if .bak holds it as well, or config.yaml does. */
  lemma BootLoadsLastApplied(s: State, env: Env)
    requires s.session == None && s.applied.Some? && s.applied.value.confirm && BootPlan(s, env).result == Ok
    ensures DoAll(s, BootPlan(s, env).effects).fw == s.applied <==> KnownBaseline(s) || s.cfg == s.applied
  {
    BootLoadsOne(s, env);
  }

  /** It makes the last confirmed config live if and only if the records agree on that one and it asks for confirmation, or
      they agree on none that does and config.yaml holds it. Where the records can be trusted it is enough that they agree. */
  lemma BootLoadsLastConfirmed(s: State, env: Env)
    requires s.session == None && s.trusted.Some? && BootPlan(s, env).result == Ok
    ensures DoAll(s, BootPlan(s, env).effects).fw == s.trusted <==> if PreferBaseline(s) then s.hist[0] == s.trusted else s.cfg == s.trusted
    ensures Inv(s) && s.clean ==> (DoAll(s, BootPlan(s, env).effects).fw == s.trusted <==> PreferBaseline(s) || s.cfg == s.trusted)
  {
    BootLoadsOne(s, env);
  }

  /** A boot that finds a session and succeeds makes its baseline live, with confirm on or off. */
  lemma BootEndsSession(s: State, env: Env)
    requires Inv(s) && s.session.Some?
    ensures var p := BootPlan(s, env);
            && LoadsOnly(p.effects, s.snap[0])
            && (p.result == Ok ==> var r := DoAll(s, p.effects); r.session == None && r.fw == r.wg == r.cfg == s.snap[0])
  {
    SessionReloadsOnlyBaseline(s, BootReload, env);
    var p := OneWayCheck(s, env);
    OneWayCheckRun(s, env);
    if p.result == Ok {
      var s1 := DoAll(s, p.effects);
      BootLoadsOne(s1, env);
      var l := if PreferBaseline(s1) then LoadKnown(s1.hist[0].value, env.load) else LoadPlan(s1, OneWay, env.load);
      assert BootPlan(s1, env).effects == [] + l.effects == l.effects;
      DoAllConcat(s, p.effects, l.effects);
      SessionStaysGone(s1, env);
    }
  }

  lemma SessionStaysGone(s: State, env: Env)
    requires s.session == None
    ensures DoAll(s, BootPlan(s, env).effects).session == None
  {
    var l := if PreferBaseline(s) then LoadKnown(s.hist[0].value, env.load) else LoadPlan(s, OneWay, env.load);
    assert BootPlan(s, env).effects == [] + l.effects == l.effects;
    if PreferBaseline(s) {
      KnownLeavesSession(s, s.hist[0].value, env.load);
    } else {
      LoadRun(s, OneWay, env.load);
    }
  }

  lemma KnownLeavesSession(s: State, c: Config, load: Load)
    ensures DoAll(s, LoadKnown(c, load).effects).session == s.session
  {
    DoOne(s, LoadFirewall(c, OneWay));
    DoTwo(s, LoadFirewall(c, OneWay), LoadWireGuard(c));
  }

  // ---- Runs in which it is not ----

  // A load of c whose process dies after the hash record, before .bak.
  lemma CutAfterHash(s: State, kind: LoadKind, c: Config)
    requires s.cfg == Some(c) && c.valid
    ensures var es := LoadPlan(s, kind, Full).effects; |es| >= 3 && DoAll(s, es[..3]) == HostLoaded(s, kind, c)
  {
    var es := LoadPlan(s, kind, Full).effects;
    HostRun(s, kind, c);
    assert es[..3] == HostEffects(kind, c);
  }

  // config.yaml is saved as d, the machine goes down, and it boots.
  lemma SavedThenBooted(from: Option<Config>, s: State, c: Config, d: Config) returns (r: State)
    requires Reached(from, s) && s.session == None && s.applied == Some(c) && s.hist[0] != Some(c)
    requires d.valid && d != c
    ensures Reached(from, r) && r.applied == Some(c) && r.trusted == s.trusted && r.cfg == Some(d) && r.session == None
    ensures BootPlan(r, FULL).result == Ok && DoAll(r, BootPlan(r, FULL).effects).fw == Some(d)
  {
    SaveRun(s, d);
    GoesOnWhole(from, s, Save(d), FULL);
    var s1 := s.(cfg := Some(d));
    GoesOnAfterReboot(from, s1);
    r := Reboot(s1);
    BootLoadsOne(r, FULL);
  }

  /** After b was applied, a one-way reload of c, with confirm on, dies between the hash record and .bak; config.yaml is
      saved as d; the next boot makes d live, though the recorded hash names c. */
  lemma BootForgetsReload(b: Config, c: Config, d: Config) returns (s: State)
    requires b.valid && c.valid && d.valid && c.confirm && b != c && c != d
    ensures Reached(Some(b), s) && s.session == None && s.applied == s.trusted == Some(c)
    ensures BootPlan(s, FULL).result == Ok && DoAll(s, BootPlan(s, FULL).effects).fw == Some(d)
  {
    var s1, es := FirstReload(b, c);
    CutAfterHash(s1, OneWay, c);
    assert PlanOf(s1, Reload(None), FULL).effects == [] + LoadPlan(s1, OneWay, Full).effects == LoadPlan(s1, OneWay, Full).effects;
    GoesOn(Some(b), s1, Reload(None), FULL, 3);
    s := SavedThenBooted(Some(b), HostLoaded(s1, OneWay, c), c, d);
  }

  /** The same when an Apply of c dies there and is then confirmed: the last confirmed config is not what boots. */
  lemma BootForgetsConfirmed(b: Config, c: Config, d: Config) returns (s: State)
    requires b.valid && c.valid && d.valid && c.confirm && b != c && c != d
    ensures Reached(Some(b), s) && s.session == None && s.applied == s.trusted == Some(c)
    ensures BootPlan(s, FULL).result == Ok && DoAll(s, BootPlan(s, FULL).effects).fw == Some(d)
  {
    var s1, es := FirstReload(b, c);
    ReachedIsSafe(Some(b), s1);
    var s2 := AppliedToTheHash(Some(b), s1, c);
    ConfirmRun(s2, c);
    GoesOnWhole(Some(b), s2, Confirm, FULL);
    var s3 := DoAll(s2, PlanOf(s2, Confirm, FULL).effects);
    s := SavedThenBooted(Some(b), s3, c, d);
  }

  /** And when the Apply of d dies before the hash record already, and is then confirmed: the records agree on the config
      before it, and that is what boots. */
  lemma BootForgetsUnrecorded(c: Config, d: Config) returns (s: State)
    requires c.valid && d.valid && c.confirm && c != d
    ensures Reached(Some(c), s) && s.session == None && s.applied == Some(c) && s.trusted == Some(d)
    ensures BootPlan(s, FULL).result == Ok && DoAll(s, BootPlan(s, FULL).effects).fw == Some(c)
  {
    var s1, es := ConfirmedUnrecorded(c, d);
    GoesOnAfterReboot(Some(c), s1);
    s := Reboot(s1);
    BootLoadsOne(s, FULL);
  }

  lemma AppliedToTheHash(from: Option<Config>, s: State, c: Config) returns (r: State)
    requires Reached(from, s) && Inv(s) && s.session == None && s.cfg == Some(c) && c.valid && KnownBaseline(s)
    ensures Reached(from, r) && r.session.Some? && r.session.value.phase == Active
    ensures r.trial == r.applied == Some(c) && r.hist == s.hist
  {
    var a, s1 := ArmPlan(s, None, FULL).effects, Armed(s);
    ArmRun(s, None, FULL);
    var t := ApplyTail(s1, Rearmed(s, SessionOf(s)), FULL).effects;
    TrialToTheHash(s1, Rearmed(s, SessionOf(s)), c);
    DoAllConcat(s, a, t[..3]);
    FrontOf(a, t, 3);
    GoesOn(from, s, Apply(None), FULL, |a| + 3);
    r := HostLoaded(s1, Trial, c);
  }

  lemma TrialToTheHash(s: State, x: Session, c: Config)
    requires s.cfg == Some(c) && c.valid
    ensures var t := ApplyTail(s, x, FULL).effects; |t| >= 3 && DoAll(s, t[..3]) == HostLoaded(s, Trial, c)
  {
    CutAfterHash(s, Trial, c);
    assert ApplyTail(s, x, FULL).effects[..3] == LoadPlan(s, Trial, Full).effects[..3];
  }

  lemma FrontOf(a: seq<Effect>, t: seq<Effect>, k: nat)
    requires k <= |t|
    ensures (a + t)[..|a| + k] == a + t[..k]
  {
  }
}

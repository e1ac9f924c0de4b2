/** What every state of every run satisfies. A run interleaves operations under one lock with timers going
    off, and a crash or a reboot may come between any two effects. */
module ApplySafety {
  import opened Common
  import opened History
  import opened ApplyState
  import opened ApplyPlans

  // ---- The invariant ----

  ghost predicate TokensDrawn(s: State)
  {
    && (forall t | t in s.armed :: t < s.nextToken)
    && (forall t | t in s.fired :: t < s.nextToken)
    && (forall t | t in s.began :: t < s.nextToken)
    && (forall t | t in s.owner :: t < s.nextToken && 1 <= s.owner[t] <= s.started)
  }

  // A session can be reverted to what the records named when it started.
  ghost predicate SessionRevertible(s: State)
  {
    s.session.Some? ==>
      var x := s.session.value;
      && x.token in s.owner && s.owner[x.token] == s.started
      && x.boot <= s.boot
      && (x.phase == Active <==> x.reason == NoReason)
      && s.snap == s.pre && s.snap[0].Some? && s.snap[0].value.valid && s.preApplied == s.snap[0]
      && s.applied.Some?
  }

  // Until a rollback begins, a session of this boot has its own timer, armed or gone off.
  ghost predicate TimerCovers(s: State)
  {
    s.session.Some? && s.session.value.phase == Active && s.session.value.boot == s.boot ==>
      s.session.value.token in s.armed + s.fired + s.began
  }

  ghost predicate RecordsUntouched(s: State)
  {
    s.session.Some? && s.session.value.phase == Active && s.trial == None ==> s.hist == s.snap && s.applied == s.snap[0]
  }

  // Rules on trial are loaded only while a session is on disk.
  ghost predicate TrialHasSession(s: State)
  {
    s.onTrial ==> s.session.Some? && s.fw.Some? && s.fw == s.trial
  }

  // What a revert would go back to is the last confirmed config.
  ghost predicate BaselineTrusted(s: State)
  {
    s.clean ==>
      && (s.session.Some? ==> s.snap[0] == s.trusted)
      && (s.session == None && s.applied.Some? && s.applied == s.hist[0] ==> s.hist[0] == s.trusted)
  }

  // Every session but the one on disk ended, once, in order.
  ghost predicate EndsInOrder(s: State)
  {
    && |s.ends| == (if s.session.Some? then s.started - 1 else s.started)
    && (forall i | 0 <= i < |s.ends| :: s.ends[i].session == i + 1)
  }

  ghost predicate Inv(s: State)
  {
    && TokensDrawn(s)
    && SessionRevertible(s)
    && TimerCovers(s)
    && RecordsUntouched(s)
    && TrialHasSession(s)
    && BaselineTrusted(s)
    && EndsInOrder(s)
    && (s.applied == None ==> s.hist[0] == None)
  }

  // ---- When an effect keeps it ----

  predicate RotateAllowed(s: State, step: Step<Config>)
  {
    if s.session.Some? then
      && (s.session.value.phase == Active ==> s.trial.Some?)
    else
      match step
      case Put(i, c) => s.applied.Some? && (i == 0 ==> s.trusted == Some(c))
      case Drop(_) => s.applied.Some?
      case Shift(_) => s.applied.Some?
  }

  predicate WriteSessionAllowed(s: State, n: Session)
  {
    if s.session == None then
      && n.phase == Active && n.reason == NoReason && n.boot == s.boot
      && n.token in s.armed + s.fired && n.token !in s.owner && s.snap == s.hist && KnownBaseline(s)
    else if n.phase == Active then
      && s.session.value.phase == Active && n.reason == NoReason && n.boot == s.boot
      && n.token in s.armed + s.fired && n.token !in s.owner
    else
      && n.reason != NoReason && n.token == s.session.value.token && n.boot == s.session.value.boot
  }

  // The discipline an effect keeps to.
  predicate Allowed(s: State, e: Effect)
  {
    match e
    case ArmTimer(t) => t >= s.nextToken
    case StopTimer(t, back) => t < s.nextToken && (back || s.session == None || s.session.value.token != t)
    case WriteSession(n) => WriteSessionAllowed(s, n)
    case ClearDir => s.session == None
    case CopyBaseline(_, _) => s.session == None
    case DropSession(how) =>
      && s.session.Some?
      && (how == Confirmed ==> s.session.value.phase == Active)
      && (how == Reverted ==> !s.onTrial && s.hist == s.snap && s.applied == s.snap[0])
    case Rotate(step) => RotateAllowed(s, step)
    case RecordHash(c, kind) =>
      match kind {
        case OneWay => s.session == None
        case Trial => s.session.Some? && s.trial == Some(c)
        case Back => s.session.Some? && s.session.value.phase != Active
      }
    case InitHash(_) => s.applied == None
    case LoadFirewall(c, kind) =>
      match kind {
        case OneWay => s.session == None
        case Trial => s.session.Some? && s.session.value.phase == Active
        case Back => s.session.Some? && s.session.value.phase != Active && s.snap[0] == Some(c)
      }
    case _ => true
  }

  lemma HistoryAllowed(s: State, step: Step<Config>)
    requires Inv(s) && RotateAllowed(s, step)
    ensures Inv(Do(s, Rotate(step)))
  {
  }

  lemma SessionAllowed(s: State, n: Session)
    requires Inv(s) && WriteSessionAllowed(s, n)
    ensures Inv(Do(s, WriteSession(n)))
  {
    var r := Do(s, WriteSession(n));
    assert TokensDrawn(r) by {
      assert n.token < s.nextToken;
    }
  }

  lemma DropAllowed(s: State, how: Ending)
    requires Inv(s) && Allowed(s, DropSession(how))
    ensures Inv(Do(s, DropSession(how)))
  {
  }

  lemma FirewallAllowed(s: State, c: Config, kind: LoadKind)
    requires Inv(s) && Allowed(s, LoadFirewall(c, kind))
    ensures Inv(Do(s, LoadFirewall(c, kind)))
  {
  }

  lemma HashAllowed(s: State, c: Config, kind: LoadKind)
    requires Inv(s) && Allowed(s, RecordHash(c, kind))
    ensures Inv(Do(s, RecordHash(c, kind)))
  {
  }

  lemma TimerAllowed(s: State, e: Effect)
    requires e.ArmTimer? || e.StopTimer?
    requires Inv(s) && Allowed(s, e)
    ensures Inv(Do(s, e))
  {
  }

  lemma DirectoryAllowed(s: State, e: Effect)
    requires e.ClearDir? || e.CopyBaseline? || e.InitHash?
    requires Inv(s) && Allowed(s, e)
    ensures Inv(Do(s, e))
  {
  }

  // These touch nothing the invariant mentions.
  predicate Harmless(e: Effect)
  {
    || e.WriteConfig? || e.KeepRejected? || e.RestoreEdits? || e.RemoveReverted? || e.WriteLastRevert? || e.RemoveLastRevert?
    || e.LoadWireGuard? || e.LoadGeo?
  }

  lemma HarmlessKeeps(s: State, e: Effect)
    requires Inv(s) && Harmless(e)
    ensures Inv(Do(s, e))
  {
    var r := Do(s, e);
    assert r == s.(cfg := r.cfg, reverted := r.reverted, lastRevert := r.lastRevert, wg := r.wg, geo := r.geo);
  }

  lemma AllowedKeeps(s: State, e: Effect)
    requires Inv(s) && Allowed(s, e)
    ensures Inv(Do(s, e))
  {
    if Harmless(e) {
      HarmlessKeeps(s, e);
    } else if e.ArmTimer? || e.StopTimer? {
      TimerAllowed(s, e);
    } else if e.ClearDir? || e.CopyBaseline? || e.InitHash? {
      DirectoryAllowed(s, e);
    } else {
      match e
      case Rotate(step) => HistoryAllowed(s, step);
      case WriteSession(n) => SessionAllowed(s, n);
      case DropSession(how) => DropAllowed(s, how);
      case LoadFirewall(c, kind) => FirewallAllowed(s, c, kind);
      case RecordHash(c, kind) => HashAllowed(s, c, kind);
    }
  }

  lemma FireKeeps(s: State, t: Token)
    requires Inv(s) && t in s.armed
    ensures Inv(Fire(s, t))
  {
    var r := Fire(s, t);
    assert r.armed + r.fired + r.began == s.armed + s.fired + s.began;
  }

  lemma RebootKeeps(s: State)
    requires Inv(s)
    ensures Inv(Reboot(s))
  {
  }

  // ---- Sequences of effects ----

  predicate AllAllowed(s: State, es: seq<Effect>)
    decreases |es|
  {
    es == [] || (Allowed(s, es[0]) && AllAllowed(Do(s, es[0]), es[1..]))
  }

  /** The invariant holds wherever the process dies. */
  lemma {:induction false} HoldsAtEveryCut(s: State, es: seq<Effect>, k: nat)
    requires Inv(s) && AllAllowed(s, es) && k <= |es|
    ensures Inv(DoAll(s, es[..k]))
    decreases |es|
  {
    if k > 0 {
      AllowedKeeps(s, es[0]);
      assert es[..k][1..] == es[1..][..k - 1];
      HoldsAtEveryCut(Do(s, es[0]), es[1..], k - 1);
    }
  }

  lemma {:induction false} AllAllowedConcat(s: State, a: seq<Effect>, b: seq<Effect>)
    ensures AllAllowed(s, a + b) == (AllAllowed(s, a) && AllAllowed(DoAll(s, a), b))
    decreases |a|
  {
    if a == [] {
      assert a + b == b;
    } else {
      assert (a + b)[1..] == a[1..] + b && (a + b)[0] == a[0];
      AllAllowedConcat(Do(s, a[0]), a[1..], b);
    }
  }

  lemma HoldsAfter(s: State, es: seq<Effect>)
    requires Inv(s) && AllAllowed(s, es)
    ensures Inv(DoAll(s, es))
  {
    HoldsAtEveryCut(s, es, |es|);
    assert es[..|es|] == es;
  }
}

/** Each locked operation as the effects it has from a given state, in order, and how it ends. The lock is
    held throughout, so the state an operation starts in and the commands that fail settle what it does. */
module ApplyPlans {
  import opened Common
  import opened History
  import opened ApplyState

  datatype Result =
    | Ok
    | SessionActive      // an Apply is waiting for confirmation
    | NoSession
    | RollbackFailed
    | NoBaseline
    | Unavailable        // the revert timer could not be armed
    | HashMismatch
    | LoadFailed
    | NoSnapshot
    | NothingPending
    | PendingEdits
    | NoReverted
    | Invalid
    | GeoOff

  datatype Plan = Plan(effects: seq<Effect>, result: Result)

  // How far one attempt to load the rules gets.
  datatype Load = Refused | FirewallOnly | Full

  // What systemctl says about a timer.
  datatype Answer = Live | Dead | Unclear

  // What the commands an operation runs will do.
  datatype Env = Env(arm: bool, rearm: bool, load: Load, retries: seq<Load>, answer: Answer)

  const ROLLBACK_ATTEMPTS: nat := 3

  // systemctl never calls an armed timer dead, and a revert makes three attempts.
  predicate Honest(s: State, env: Env)
  {
    && |env.retries| == ROLLBACK_ATTEMPTS
    && (env.answer == Dead && s.session.Some? ==> s.session.value.token !in s.armed)
  }

  // A timer of an earlier boot is gone whatever systemctl says.
  function TimerState(s: State, x: Session, answer: Answer): Answer
  {
    if s.boot != x.boot then Dead else answer
  }

  /** .bak is what was applied last, and it could be applied again. */
  predicate KnownBaseline(s: State)
  {
    s.hist[0].Some? && s.applied == s.hist[0] && s.hist[0].value.valid
  }

  function Rotations(steps: seq<Step<Config>>): seq<Effect>
  {
    seq(|steps|, i requires 0 <= i < |steps| => Rotate(steps[i]))
  }

  // ---- Loading the rules ----

  /** reload: config.yaml onto the host, then the records. */
  function LoadPlan(s: State, kind: LoadKind, load: Load): Plan
  {
    if s.cfg == None || !s.cfg.value.valid then Plan([], LoadFailed)
    else
      var c := s.cfg.value;
      match load
      case Refused => Plan([], LoadFailed)
      case FirewallOnly => Plan([LoadFirewall(c, kind)], LoadFailed)
      case Full => Plan([LoadFirewall(c, kind), LoadWireGuard(c), RecordHash(c, kind)] + Rotations(RecordSteps(s.hist, c)), Ok)
  }

  // ---- Reverting ----

  function CopyBack(snap: Chain<Config>, i: nat): seq<Effect>
    requires i <= SLOTS
    decreases |snap| - i
  {
    if i == SLOTS then [] else [Rotate(if snap[i].Some? then Put(i, snap[i].value) else Drop(i))] + CopyBack(snap, i + 1)
  }

  function RestorePlan(s: State): Plan
  {
    if s.snap[0] == None then Plan([], RollbackFailed)
    else
      var keep := if s.cfg.Some? && s.cfg != s.snap[0] then [KeepRejected(s.cfg.value)] else [];
      Plan(keep + [WriteConfig(s.snap[0].value)] + CopyBack(s.snap, 0), Ok)
  }

  function RetryPlan(s: State, tries: seq<Load>): Plan
    decreases |tries|
  {
    if tries == [] then Plan([], RollbackFailed)
    else
      var p := LoadPlan(s, Back, tries[0]);
      if p.result == Ok then p
      else
        var q := RetryPlan(DoAll(s, p.effects), tries[1..]);
        Plan(p.effects + q.effects, q.result)
  }

  // The session as a rollback writes it first. The reason of an earlier attempt stays.
  function Begun(x: Session, reason: Reason): Session
  {
    x.(phase := RollingBack, reason := if x.reason == NoReason then reason else x.reason)
  }

  function RollbackStart(s: State, x: Session, reason: Reason): seq<Effect>
  {
    [StopTimer(x.token, true), WriteSession(Begun(x, reason))] + RestorePlan(s).effects
  }

  function RollbackEnd(reason: Reason, restoreEdits: bool): seq<Effect>
  {
    [if reason == FailedApply && restoreEdits then RestoreEdits else WriteLastRevert(reason), DropSession(Reverted)]
  }

  /** rollbackLocked, reverting session was. */
  function RollbackPlan(s: State, was: Session, reason: Reason, restoreEdits: bool, tries: seq<Load>): Plan
  {
    var x := Begun(was, reason);
    var start := RollbackStart(s, was, reason);
    var retry := if RestorePlan(s).result == Ok then RetryPlan(DoAll(s, start), tries) else Plan([], RollbackFailed);
    if retry.result == Ok then Plan(start + retry.effects + RollbackEnd(x.reason, restoreEdits), Ok)
    else Plan(start + retry.effects + [WriteSession(x.(phase := Failed))], RollbackFailed)
  }

  // ---- Applying with confirm ----

  function CopyOut(hist: Chain<Config>, i: nat): seq<Effect>
    requires i <= SLOTS
    decreases |hist| - i
  {
    if i == SLOTS then []
    else (if hist[i].Some? then [CopyBaseline(i, hist[i].value)] else []) + CopyOut(hist, i + 1)
  }

  // What rearmConfirmSession records: x with a new token, in this boot.
  function Rearmed(s: State, x: Session): Session
  {
    x.(token := s.nextToken, boot := s.boot)
  }

  // rearmConfirmSession: arm the new timer, record it, and only then stop the one it replaces.
  function RearmEffects(s: State, x: Session, replaced: Option<Token>): seq<Effect>
  {
    [ArmTimer(s.nextToken), WriteSession(Rearmed(s, x))] + if replaced.Some? then [StopTimer(replaced.value, false)] else []
  }

  function NewSession(): Session
  {
    Session(Active, 0, 0, NoReason)
  }

  function SessionOf(s: State): Session
  {
    if s.session.Some? then s.session.value else NewSession()
  }

  // Everything before the reload.
  function ArmPlan(s: State, hash: Option<Config>, env: Env): Plan
  {
    if s.session.Some? && s.session.value.phase != Active then Plan([], RollbackFailed)
    else if hash.Some? && s.cfg != hash then Plan([], HashMismatch)
    else if s.session.Some? then
      if env.arm then Plan(RearmEffects(s, s.session.value, Some(s.session.value.token)), Ok) else Plan([], Unavailable)
    else if !KnownBaseline(s) then Plan([], NoBaseline)
    else
      var copies := [ClearDir] + CopyOut(s.hist, 0);
      if env.arm then Plan(copies + RearmEffects(s, NewSession(), None) + [RemoveLastRevert, RemoveReverted], Ok)
      else Plan(copies + [ClearDir], Unavailable)
  }

  // From the reload on, with session x recorded.
  function ApplyTail(s: State, x: Session, env: Env): Plan
  {
    var l := LoadPlan(s, Trial, env.load);
    var s2 := DoAll(s, l.effects);
    if l.result == Ok then Plan(l.effects + (if env.rearm then RearmEffects(s2, x, Some(x.token)) else []), Ok)
    else
      var back := RollbackPlan(s2, x, FailedApply, true, env.retries);
      Plan(l.effects + back.effects, if back.result == Ok then LoadFailed else RollbackFailed)
  }

  /** ReloadWithConfirmIfMatch. */
  function ApplyPlan(s: State, hash: Option<Config>, env: Env): Plan
  {
    var a := ArmPlan(s, hash, env);
    if a.result != Ok then a
    else
      var t := ApplyTail(DoAll(s, a.effects), Rearmed(s, SessionOf(s)), env);
      Plan(a.effects + t.effects, t.result)
  }

  // ---- Reloads nobody confirms ----

  /** checkOneWayReload. */
  function OneWayCheck(s: State, env: Env): Plan
  {
    if s.session == None then Plan([], Ok)
    else if s.session.value.phase == Active && TimerState(s, s.session.value, env.answer) != Dead then Plan([], SessionActive)
    else RollbackPlan(s, s.session.value, Interrupted, false, env.retries)
  }

  /** ReloadIfMatch. */
  function ReloadPlan(s: State, hash: Option<Config>, env: Env): Plan
  {
    var p := OneWayCheck(s, env);
    var s1 := DoAll(s, p.effects);
    if p.result != Ok then p
    else if hash.Some? && s1.cfg != hash then Plan(p.effects, HashMismatch)
    else
      var l := LoadPlan(s1, OneWay, env.load);
      Plan(p.effects + l.effects, l.result)
  }

  // applyToHost with the last applied config; the records already describe it.
  function LoadKnown(c: Config, load: Load): Plan
  {
    match load
    case Refused => Plan([], LoadFailed)
    case FirewallOnly => Plan([LoadFirewall(c, OneWay)], LoadFailed)
    case Full => Plan([LoadFirewall(c, OneWay), LoadWireGuard(c)], Ok)
  }

  // With confirm on in the last applied config, that config is what to use instead of config.yaml.
  predicate PreferBaseline(s: State)
  {
    KnownBaseline(s) && s.hist[0].value.confirm
  }

  /** ReloadAtBoot. */
  function BootPlan(s: State, env: Env): Plan
  {
    var p := OneWayCheck(s, env);
    var s1 := DoAll(s, p.effects);
    if p.result != Ok then p
    else
      var l := if PreferBaseline(s1) then LoadKnown(s1.hist[0].value, env.load) else LoadPlan(s1, OneWay, env.load);
      Plan(p.effects + l.effects, l.result)
  }

  /** RecoverConfirmSession, at API start. */
  function RecoverPlan(s: State, env: Env): Plan
  {
    if s.session == None then Plan([], Ok)
    else if s.session.value.phase == Active && TimerState(s, s.session.value, env.answer) != Dead then Plan([], Ok)
    else RollbackPlan(s, s.session.value, Interrupted, false, env.retries)
  }

  /** EnsureApplyStateFromDisk, after it. */
  function InitPlan(s: State): Plan
  {
    if s.applied.Some? then Plan([], Ok)
    else if s.cfg == None then Plan([], LoadFailed)
    else Plan([InitHash(s.cfg.value)], Ok)
  }

  // ---- Ending a session ----

  /** ConfirmApply. */
  function ConfirmPlan(s: State): Plan
  {
    if s.session == None then Plan([], NoSession)
    else if s.session.value.phase != Active then Plan([], RollbackFailed)
    else Plan([DropSession(Confirmed), StopTimer(s.session.value.token, false)], Ok)
  }

  /** RevertApply. A timer passes the token it was armed with. */
  function RevertPlan(s: State, token: Option<Token>, env: Env): Plan
  {
    if s.session == None then Plan([], NoSession)
    else if token.Some? && token.value != s.session.value.token then Plan([], NoSession)
    else RollbackPlan(s, s.session.value, if token.Some? then Timeout else Manual, true, env.retries)
  }

  // ---- Operations on config.yaml alone ----

  function SavePlan(c: Config): Plan
  {
    if c.valid then Plan([WriteConfig(c)], Ok) else Plan([], Invalid)
  }

  function DiscardPlan(s: State): Plan
  {
    if s.hist[0] == None || s.cfg == None then Plan([], NoSnapshot)
    else if s.cfg == s.hist[0] then Plan([], NothingPending)
    else if !s.hist[0].value.valid then Plan([], Invalid)
    else Plan([WriteConfig(s.hist[0].value)], Ok)
  }

  function RestorePreviousPlan(s: State): Plan
  {
    var p := PreviousApplied(s.hist);
    if p == None then Plan([], NoSnapshot)
    else if !p.value.valid then Plan([], Invalid)
    else Plan([WriteConfig(p.value)], Ok)
  }

  function RestoreRevertedPlan(s: State): Plan
  {
    if s.session.Some? then Plan([], SessionActive)
    else if s.reverted == None then Plan([], NoReverted)
    else if !s.reverted.value.valid then Plan([], Invalid)
    else if s.cfg == None || s.hist[0] == None then Plan([], NoSnapshot)
    else if s.cfg != s.hist[0] then Plan([], PendingEdits)
    else Plan([WriteConfig(s.reverted.value), RemoveLastRevert, RemoveReverted], Ok)
  }

  function DismissPlan(): Plan
  {
    Plan([RemoveLastRevert, RemoveReverted], Ok)
  }

  /** UpdateGeo: with confirm on it refreshes the last applied config's sets. */
  function GeoPlan(s: State, env: Env): Plan
  {
    if s.session.Some? then Plan([], SessionActive)
    else if !PreferBaseline(s) && (s.cfg == None || !s.cfg.value.valid) then Plan([], LoadFailed)
    else
      var c := if PreferBaseline(s) then s.hist[0].value else s.cfg.value;
      if !c.geo then Plan([], GeoOff)
      else if env.load != Full then Plan([], LoadFailed)
      else Plan([LoadGeo(c)], Ok)
  }

  // ---- All of them ----

  datatype Op =
    | Apply(hash: Option<Config>)
    | Reload(hash: Option<Config>)
    | BootReload
    | Recover
    | InitState
    | Confirm
    | Revert
    | TimerRevert(token: Token)
    | Save(config: Config)
    | Discard
    | RestorePrevious
    | RestoreReverted
    | Dismiss
    | UpdateGeo

  function PlanOf(s: State, op: Op, env: Env): Plan
  {
    match op
    case Apply(hash) => ApplyPlan(s, hash, env)
    case Reload(hash) => ReloadPlan(s, hash, env)
    case BootReload => BootPlan(s, env)
    case Recover => RecoverPlan(s, env)
    case InitState => InitPlan(s)
    case Confirm => ConfirmPlan(s)
    case Revert => RevertPlan(s, None, env)
    case TimerRevert(t) => RevertPlan(s, Some(t), env)
    case Save(c) => SavePlan(c)
    case Discard => DiscardPlan(s)
    case RestorePrevious => RestorePreviousPlan(s)
    case RestoreReverted => RestoreRevertedPlan(s)
    case Dismiss => DismissPlan()
    case UpdateGeo => GeoPlan(s, env)
  }
}

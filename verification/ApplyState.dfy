/** What an Apply, a revert and a reload read and write: the files beside config.yaml, the timers systemd
    holds, and the rules the kernel runs. An Effect is one file operation or one command, so a process can
    die, and the machine can reboot, between any two effects. */
module ApplyState {
  import opened Common
  import opened History

  // The bytes of a config file, as far as the protocol looks at them. Two files are equal when all of
  // this is, and a SHA-256 is represented by the bytes it is of.
  datatype Config = Config(id: nat, valid: bool, confirm: bool, geo: bool)

  type Token = nat

  datatype Phase = Active | RollingBack | Failed

  datatype Reason = NoReason | Timeout | Manual | Interrupted | FailedApply

  datatype Session = Session(phase: Phase, token: Token, boot: nat, reason: Reason)

  // Which kind of reload loads the rules: one nobody confirms, one that waits for a confirmation, or a revert.
  datatype LoadKind = OneWay | Trial | Back

  datatype Ending = Confirmed | Reverted

  datatype End = End(session: nat, how: Ending)

  datatype Effect =
    | ArmTimer(token: Token)
    | StopTimer(token: Token, rollingBack: bool)
    | WriteSession(session: Session)
    | ClearDir                              // remove the session directory when it holds no session
    | CopyBaseline(slot: nat, content: Config)
    | DropSession(how: Ending)              // remove the session directory, session and copies
    | WriteConfig(content: Config)
    | KeepRejected(content: Config)         // write config.yaml.reverted
    | RestoreEdits                          // rename config.yaml.reverted to config.yaml
    | RemoveReverted
    | WriteLastRevert(reason: Reason)
    | RemoveLastRevert
    | Rotate(step: Step<Config>)            // one file operation on .bak ... .bak.5
    | RecordHash(content: Config, kind: LoadKind)
    | InitHash(content: Config)
    | LoadFirewall(content: Config, kind: LoadKind)
    | LoadWireGuard(content: Config)
    | LoadGeo(content: Config)

  datatype State = State(
    // Files.
    cfg: Option<Config>,          // config.yaml
    hist: Chain<Config>,          // .bak ... .bak.5
    applied: Option<Config>,      // .evuproxy-last-applied.json
    session: Option<Session>,     // session.json
    snap: Chain<Config>,          // the copies of the history beside session.json
    reverted: Option<Config>,     // config.yaml.reverted
    lastRevert: Option<Reason>,   // .evuproxy-apply-last-revert.json
    // The running machine.
    armed: set<Token>,            // timers that have not gone off
    fired: set<Token>,            // timers that went off; their process waits for the lock or is done
    nextToken: Token,             // no token from here on was drawn yet
    boot: nat,
    fw: Option<Config>,           // the loaded tables
    geo: Option<Config>,          // whose geo sets are loaded
    wg: Option<Config>,           // the WireGuard setup
    // Bookkeeping for the statements; the program has nothing like it.
    onTrial: bool,                // the loaded tables are of an Apply nobody has confirmed or reverted
    trial: Option<Config>,        // what this session's Apply loaded last
    trusted: Option<Config>,      // the last config confirmed, or applied one-way and recorded
    clean: bool,                  // since the last one-way record, the last Apply confirmed had its record in place
    began: set<Token>,            // timers a rollback stopped
    started: nat,                  // sessions started so far
    owner: map<Token, nat>,       // which session a recorded token belongs to
    ends: seq<End>,               // how each session ended, in order
    pre: Chain<Config>,           // the history when the session started
    preApplied: Option<Config>    // the applied hash when the session started
  )

  // A confirmation leaves records that mislead when the Apply loaded a config that the hash does not name
  // while the hash still names .bak.
  predicate RecordInPlace(s: State)
  {
    s.trial == None || s.applied == s.trial || s.applied != s.hist[0]
  }

  // The geo sets the tables of c come with.
  function GeoSets(c: Config): Option<Config>
  {
    if c.geo then Some(c) else None
  }

  function Do(s: State, e: Effect): (r: State)
  {
    match e
    case ArmTimer(t) => s.(armed := s.armed + {t}, nextToken := if t < s.nextToken then s.nextToken else t + 1)
    case StopTimer(t, back) => s.(armed := s.armed - {t}, began := if back then s.began + {t} else s.began)
    case WriteSession(n) =>
      if s.session == None then
        s.(session := Some(n), started := s.started + 1, owner := s.owner[n.token := s.started + 1],
           trial := None, pre := s.hist, preApplied := s.applied)
      else
        s.(session := Some(n), owner := s.owner[n.token := s.started])
    case ClearDir => s.(session := None, snap := NoFiles())
    case CopyBaseline(i, c) => s.(snap := Take(s.snap, Put(i, c)))
    case DropSession(how) =>
      var ended := s.(session := None, snap := NoFiles(),
                      ends := if s.session == None then s.ends else s.ends + [End(s.started, how)]);
      if how == Confirmed then
        ended.(onTrial := false, trusted := if s.trial.Some? then s.trial else s.trusted,
               clean := if s.trial.Some? then RecordInPlace(s) else s.clean)
      else
        ended
    case WriteConfig(c) => s.(cfg := Some(c))
    case KeepRejected(c) => s.(reverted := Some(c))
    case RestoreEdits => if s.reverted == None then s else s.(cfg := s.reverted, reverted := None)
    case RemoveReverted => s.(reverted := None)
    case WriteLastRevert(reason) => s.(lastRevert := Some(reason))
    case RemoveLastRevert => s.(lastRevert := None)
    case Rotate(step) => s.(hist := Take(s.hist, step))
    case RecordHash(c, kind) =>
      if kind == OneWay then s.(applied := Some(c), trusted := Some(c), clean := true) else s.(applied := Some(c))
    case InitHash(c) => s.(applied := Some(c))
    case LoadFirewall(c, kind) =>
      s.(fw := Some(c), geo := GeoSets(c), onTrial := kind == Trial,
         trial := if kind == Trial then Some(c) else s.trial)
    case LoadWireGuard(c) => s.(wg := Some(c))
    case LoadGeo(c) => s.(geo := Some(c))
  }

  function DoAll(s: State, es: seq<Effect>): (r: State)
    decreases |es|
  {
    if es == [] then s else DoAll(Do(s, es[0]), es[1..])
  }

  lemma {:induction false} DoAllConcat(s: State, a: seq<Effect>, b: seq<Effect>)
    ensures DoAll(s, a + b) == DoAll(DoAll(s, a), b)
    decreases |a|
  {
    if a == [] {
      assert a + b == b;
    } else {
      assert (a + b)[1..] == a[1..] + b;
      DoAllConcat(Do(s, a[0]), a[1..], b);
    }
  }

  // A timer goes off: its process starts and waits for the lock.
  function Fire(s: State, t: Token): State
  {
    s.(armed := s.armed - {t}, fired := s.fired + {t})
  }

  // Timers, their processes and the loaded rules are gone; files stay.
  function Reboot(s: State): State
  {
    s.(armed := {}, fired := {}, boot := s.boot + 1, fw := None, geo := None, wg := None, onTrial := false)
  }

  // A machine nothing was applied on yet.
  function Fresh(cfg: Option<Config>): State
  {
    State(cfg, NoFiles(), None, None, NoFiles(), None, None,
          {}, {}, 0, 0, None, None, None,
          false, None, None, true, {}, 0, map[], [], NoFiles(), None)
  }
}

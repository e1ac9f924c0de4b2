/** Runs: operations under one lock, one effect at a time, with timers going off, crashes and reboots anywhere. */
module ApplyWorld {
  import opened Common
  import opened History
  import opened ApplyState
  import opened ApplyPlans
  import opened ApplySafety
  import opened ApplyRuns

  // The machine, and what the operation holding the lock has still to do. The lock is free when todo is empty.
  datatype World = World(s: State, todo: seq<Effect>)

  datatype Event =
    | Begin(op: Op, env: Env)   // an operation takes the lock
    | Tick                      // its next effect
    | Crash                     // its process dies, which frees the lock
    | GoesOff(token: Token)     // a timer fires and starts its process
    | PowerCycle

  ghost predicate Possible(w: World, e: Event)
  {
    match e
    case Begin(op, env) => w.todo == [] && Honest(w.s, env) && (op.TimerRevert? ==> op.token in w.s.fired)
    case Tick => w.todo != []
    case Crash => true
    case GoesOff(t) => t in w.s.armed
    case PowerCycle => true
  }

  function After(w: World, e: Event): World
  {
    match e
    case Begin(op, env) => w.(todo := PlanOf(w.s, op, env).effects)
    case Tick => if w.todo == [] then w else World(Do(w.s, w.todo[0]), w.todo[1..])
    case Crash => w.(todo := [])
    case GoesOff(t) => w.(s := Fire(w.s, t))
    case PowerCycle => World(Reboot(w.s), [])
  }

  ghost predicate IsRun(w: World, es: seq<Event>)
    decreases |es|
  {
    es == [] || (Possible(w, es[0]) && IsRun(After(w, es[0]), es[1..]))
  }

  function AfterRun(w: World, es: seq<Event>): World
    decreases |es|
  {
    if es == [] then w else AfterRun(After(w, es[0]), es[1..])
  }

  function Start(cfg: Option<Config>): World
  {
    World(Fresh(cfg), [])
  }

  ghost predicate Safe(w: World)
  {
    Inv(w.s) && AllAllowed(w.s, w.todo)
  }

  // ---- A timer going off during an operation changes nothing it relies on ----

  ghost predicate MoreFired(a: State, b: State)
  {
    && b == a.(armed := b.armed, fired := b.fired)
    && a.armed <= b.armed + b.fired && a.fired <= b.fired
    && b.armed <= a.armed
  }

  lemma MoreFiredSession(a: State, b: State, n: Session)
    requires MoreFired(a, b) && WriteSessionAllowed(a, n)
    ensures WriteSessionAllowed(b, n)
  {
  }

  lemma MoreFiredTimer(a: State, b: State, e: Effect)
    requires MoreFired(a, b) && (e.ArmTimer? || e.StopTimer?)
    ensures MoreFired(Do(a, e), Do(b, e))
  {
  }

  lemma MoreFiredWrite(a: State, b: State, n: Session)
    requires MoreFired(a, b)
    ensures MoreFired(Do(a, WriteSession(n)), Do(b, WriteSession(n)))
  {
  }

  lemma MoreFiredDrop(a: State, b: State, how: Ending)
    requires MoreFired(a, b)
    ensures MoreFired(Do(a, DropSession(how)), Do(b, DropSession(how)))
  {
  }

  lemma MoreFiredOnHost(a: State, b: State, e: Effect)
    requires MoreFired(a, b)
    requires e.Rotate? || e.RecordHash? || e.InitHash? || e.LoadFirewall? || e.ClearDir? || e.CopyBaseline?
    ensures MoreFired(Do(a, e), Do(b, e))
  {
  }

  lemma MoreFiredHarmless(a: State, b: State, e: Effect)
    requires MoreFired(a, b) && Harmless(e)
    ensures MoreFired(Do(a, e), Do(b, e))
  {
  }

  lemma MoreFiredAllowed(a: State, b: State, e: Effect)
    requires MoreFired(a, b) && Allowed(a, e)
    ensures Allowed(b, e) && MoreFired(Do(a, e), Do(b, e))
  {
    if e.ArmTimer? || e.StopTimer? {
      MoreFiredTimer(a, b, e);
    } else if Harmless(e) {
      MoreFiredHarmless(a, b, e);
    } else if e.WriteSession? {
      MoreFiredSession(a, b, e.session);
      MoreFiredWrite(a, b, e.session);
    } else if e.DropSession? {
      MoreFiredDrop(a, b, e.how);
    } else {
      MoreFiredOnHost(a, b, e);
    }
  }

  lemma {:induction false} MoreFiredAllAllowed(a: State, b: State, es: seq<Effect>)
    requires MoreFired(a, b) && AllAllowed(a, es)
    ensures AllAllowed(b, es)
    decreases |es|
  {
    if es != [] {
      MoreFiredAllowed(a, b, es[0]);
      MoreFiredAllAllowed(Do(a, es[0]), Do(b, es[0]), es[1..]);
    }
  }

  // ---- The invariant over runs ----

  lemma SafeStart(cfg: Option<Config>)
    ensures Safe(Start(cfg))
  {
  }

  lemma SafeStep(w: World, e: Event)
    requires Safe(w) && Possible(w, e)
    ensures Safe(After(w, e))
  {
    match e
    case Begin(op, env) => OpAllowed(w.s, op, env);
    case Tick => AllowedKeeps(w.s, w.todo[0]);
    case Crash =>
    case GoesOff(t) =>
      FireKeeps(w.s, t);
      MoreFiredAllAllowed(w.s, Fire(w.s, t), w.todo);
    case PowerCycle => RebootKeeps(w.s);
  }

  /** The invariant holds in every state of every run. */
  lemma {:induction false} SafeRun(w: World, es: seq<Event>)
    requires Safe(w) && IsRun(w, es)
    ensures Safe(AfterRun(w, es))
    decreases |es|
  {
    if es != [] {
      SafeStep(w, es[0]);
      SafeRun(After(w, es[0]), es[1..]);
    }
  }

  lemma {:induction false} RunConcat(w: World, a: seq<Event>, b: seq<Event>)
    ensures IsRun(w, a + b) == (IsRun(w, a) && IsRun(AfterRun(w, a), b))
    ensures AfterRun(w, a + b) == AfterRun(AfterRun(w, a), b)
    decreases |a|
  {
    if a == [] {
      assert a + b == b;
    } else {
      assert (a + b)[1..] == a[1..] + b && (a + b)[0] == a[0];
      RunConcat(After(w, a[0]), a[1..], b);
    }
  }

  function Ticks(n: nat): (r: seq<Event>)
    ensures |r| == n && forall i | 0 <= i < n :: r[i] == Tick
  {
    if n == 0 then [] else [Tick] + Ticks(n - 1)
  }

  lemma {:induction false} TicksRun(w: World, k: nat)
    requires k <= |w.todo|
    ensures IsRun(w, Ticks(k)) && AfterRun(w, Ticks(k)) == World(DoAll(w.s, w.todo[..k]), w.todo[k..])
    decreases k
  {
    if k > 0 {
      var w1 := After(w, Tick);
      assert Ticks(k)[0] == Tick && Ticks(k)[1..] == Ticks(k - 1);
      TicksRun(w1, k - 1);
      assert w.todo[..k][1..] == w1.todo[..k - 1] && w.todo[k..] == w1.todo[k - 1..];
    } else {
      assert w.todo[..0] == [] && w.todo[0..] == w.todo;
    }
  }

  // An operation cut after k effects.
  function Cut(op: Op, env: Env, k: nat): seq<Event>
  {
    [Begin(op, env)] + Ticks(k) + [Crash]
  }

  lemma CutRun(s: State, op: Op, env: Env, k: nat)
    requires Possible(World(s, []), Begin(op, env)) && k <= |PlanOf(s, op, env).effects|
    ensures IsRun(World(s, []), Cut(op, env, k))
    ensures AfterRun(World(s, []), Cut(op, env, k)) == World(DoAll(s, PlanOf(s, op, env).effects[..k]), [])
  {
    var w, es := World(s, []), PlanOf(s, op, env).effects;
    var w1 := World(s, es);
    assert Cut(op, env, k) == [Begin(op, env)] + (Ticks(k) + [Crash]);
    assert ([Begin(op, env)] + (Ticks(k) + [Crash]))[1..] == Ticks(k) + [Crash];
    assert After(w, Begin(op, env)) == w1;
    TicksRun(w1, k);
    RunConcat(w1, Ticks(k), [Crash]);
    var w2 := AfterRun(w1, Ticks(k));
    assert [Crash][1..] == [];
    assert AfterRun(w2, [Crash]) == World(w2.s, []) && IsRun(w2, [Crash]);
  }

  // ---- States some run gets to ----

  // Some run from a machine with this config.yaml gets to s, with the lock free.
  ghost predicate Reached(cfg: Option<Config>, s: State)
  {
    exists es :: IsRun(Start(cfg), es) && AfterRun(Start(cfg), es) == World(s, [])
  }

  lemma ReachedIsSafe(cfg: Option<Config>, s: State)
    requires Reached(cfg, s)
    ensures Inv(s)
  {
    var es :| IsRun(Start(cfg), es) && AfterRun(Start(cfg), es) == World(s, []);
    SafeStart(cfg);
    SafeRun(Start(cfg), es);
  }

  // An operation cut after k effects goes on from there.
  lemma GoesOn(cfg: Option<Config>, s: State, op: Op, env: Env, k: nat)
    requires Reached(cfg, s) && Possible(World(s, []), Begin(op, env)) && k <= |PlanOf(s, op, env).effects|
    ensures Reached(cfg, DoAll(s, PlanOf(s, op, env).effects[..k])) && Inv(DoAll(s, PlanOf(s, op, env).effects[..k]))
  {
    var es :| IsRun(Start(cfg), es) && AfterRun(Start(cfg), es) == World(s, []);
    CutRun(s, op, env, k);
    RunConcat(Start(cfg), es, Cut(op, env, k));
    ReachedIsSafe(cfg, DoAll(s, PlanOf(s, op, env).effects[..k]));
  }

  lemma GoesOnWhole(cfg: Option<Config>, s: State, op: Op, env: Env)
    requires Reached(cfg, s) && Possible(World(s, []), Begin(op, env))
    ensures Reached(cfg, DoAll(s, PlanOf(s, op, env).effects)) && Inv(DoAll(s, PlanOf(s, op, env).effects))
  {
    var all := PlanOf(s, op, env).effects;
    GoesOn(cfg, s, op, env, |all|);
    assert all[..|all|] == all;
  }

  lemma GoesOnAfterReboot(cfg: Option<Config>, s: State)
    requires Reached(cfg, s)
    ensures Reached(cfg, Reboot(s)) && Inv(Reboot(s))
  {
    var es :| IsRun(Start(cfg), es) && AfterRun(Start(cfg), es) == World(s, []);
    RunConcat(Start(cfg), es, [PowerCycle]);
    assert [PowerCycle][1..] == [];
    ReachedIsSafe(cfg, Reboot(s));
  }
}

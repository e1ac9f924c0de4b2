/** The chain config.yaml.bak, .bak.1 ... .bak.5 and its rotation, one file operation at a time.
    A step is one rename, removal or write, so a process can die between any two of them. */
module History {
  import opened Common

  const SLOTS: nat := 6

  // Slot 0 is .bak, slot n is .bak.n. A missing file is None.
  type Chain<T> = c: seq<Option<T>> | |c| == SLOTS witness [None, None, None, None, None, None]

  datatype Step<T> =
    | Drop(slot: nat)              // remove .bak.slot; nothing happens when it is missing
    | Shift(slot: nat)             // rename .bak.slot to .bak.(slot+1)
    | Put(slot: nat, content: T)   // write .bak.slot

  function Take<T>(chain: Chain<T>, step: Step<T>): (r: Chain<T>)
  {
    match step
    case Drop(n) => if n < SLOTS then chain[n := None] else chain
    case Shift(n) => if n + 1 < SLOTS && chain[n].Some? then chain[n + 1 := chain[n]][n := None] else chain
    case Put(n, c) => if n < SLOTS then chain[n := Some(c)] else chain
  }

  function TakeAll<T>(chain: Chain<T>, steps: seq<Step<T>>): (r: Chain<T>)
    decreases |steps|
  {
    if steps == [] then chain else TakeAll(Take(chain, steps[0]), steps[1..])
  }

  // The renames .bak.n -> .bak.(n+1), .bak.(n-1) -> .bak.n, ... .bak.1 -> .bak.2. A missing file is passed over.
  function ShiftSteps<T>(chain: Chain<T>, n: nat): seq<Step<T>>
    requires n < SLOTS
  {
    if n == 0 then [] else (if chain[n].Some? then [Shift(n)] else []) + ShiftSteps(chain, n - 1)
  }

  /** What recording cur as applied does to the chain. */
  function RecordSteps<T(==)>(chain: Chain<T>, cur: T): seq<Step<T>>
  {
    if chain[0] == None then [Put(0, cur)]
    else if chain[0] == Some(cur) then []
    else [Drop(5)] + ShiftSteps(chain, 4) + [Shift(0), Put(0, cur)]
  }

  // What the chain holds, newest first, skipping missing files.
  function Entries<T>(chain: seq<Option<T>>): seq<T>
  {
    if chain == [] then [] else (if chain[0].Some? then [chain[0].value] else []) + Entries(chain[1..])
  }

  ghost predicate Subsequence<T>(a: seq<T>, b: seq<T>)
  {
    a == [] || (b != [] && ((a[0] == b[0] && Subsequence(a[1..], b[1..])) || Subsequence(a, b[1..])))
  }

  // ---- Entries and Subsequence ----

  lemma {:induction false} EntriesConcat<T>(a: seq<Option<T>>, b: seq<Option<T>>)
    ensures Entries(a + b) == Entries(a) + Entries(b)
  {
    if a == [] {
      assert a + b == b;
    } else {
      var head := if a[0].Some? then [a[0].value] else [];
      EntriesConcat(a[1..], b);
      assert (a + b)[0] == a[0] && (a + b)[1..] == a[1..] + b;
      assert Entries(a + b) == head + Entries(a[1..] + b);
      assert Entries(a) == head + Entries(a[1..]);
      assert head + (Entries(a[1..]) + Entries(b)) == (head + Entries(a[1..])) + Entries(b);
    }
  }

  lemma {:induction false} NoEntries<T>(chain: seq<Option<T>>)
    requires forall i | 0 <= i < |chain| :: chain[i] == None
    ensures Entries(chain) == []
  {
    if chain != [] {
      NoEntries(chain[1..]);
    }
  }

  lemma {:induction false} SubsequenceRefl<T>(a: seq<T>)
    ensures Subsequence(a, a)
  {
    if a != [] {
      SubsequenceRefl(a[1..]);
    }
  }

  lemma {:induction false} SubsequenceCons<T>(x: T, a: seq<T>, b: seq<T>)
    requires Subsequence(a, b)
    ensures Subsequence([x] + a, [x] + b) && Subsequence(a, [x] + b)
  {
    assert ([x] + a)[1..] == a && ([x] + b)[1..] == b;
  }

  lemma {:induction false} SubsequenceTrans<T>(a: seq<T>, b: seq<T>, c: seq<T>)
    requires Subsequence(a, b) && Subsequence(b, c)
    ensures Subsequence(a, c)
    decreases |b| + |c|
  {
    if a != [] {
      if b[0] == c[0] && Subsequence(b[1..], c[1..]) {
        if a[0] == b[0] && Subsequence(a[1..], b[1..]) {
          SubsequenceTrans(a[1..], b[1..], c[1..]);
        } else {
          SubsequenceTrans(a, b[1..], c[1..]);
        }
      } else {
        SubsequenceTrans(a, b, c[1..]);
      }
    }
  }

  // ---- One file operation at a time ----

  lemma {:induction false} SubsequenceWithout<T>(a: seq<T>, x: T, b: seq<T>)
    ensures Subsequence(a + b, a + [x] + b)
  {
    if a == [] {
      SubsequenceRefl(b);
      SubsequenceCons(x, b, b);
      assert a + b == b && a + [x] + b == [x] + b;
    } else {
      SubsequenceWithout(a[1..], x, b);
      assert (a + b)[1..] == a[1..] + b && (a + [x] + b)[1..] == a[1..] + [x] + b;
    }
  }

  // Taking a file away moves nothing past anything else.
  lemma {:induction false} ClearedKeepsOrder<T>(chain: Chain<T>, n: nat)
    requires n < SLOTS
    ensures Subsequence(Entries(chain[n := None]), Entries(chain))
  {
    var a, b := chain[..n], chain[n + 1..];
    assert chain == a + [chain[n]] + b && chain[n := None] == a + [None] + b;
    EntriesConcat(a + [chain[n]], b);
    EntriesConcat(a, [chain[n]]);
    EntriesConcat(a + [None], b);
    EntriesConcat(a, [None]);
    assert Entries<T>([None]) == [] by { NoEntries<T>([None]); }
    if chain[n].Some? {
      assert Entries([chain[n]]) == [chain[n].value];
      SubsequenceWithout(Entries(a), chain[n].value, Entries(b));
      assert Entries(chain) == Entries(a) + [chain[n].value] + Entries(b);
      assert Entries(chain[n := None]) == Entries(a) + Entries(b);
    } else {
      SubsequenceRefl(Entries(chain));
    }
  }

  lemma DropKeepsOrder<T>(chain: Chain<T>)
    ensures Subsequence(Entries(Take(chain, Drop(5))), Entries(chain))
  {
    ClearedKeepsOrder(chain, 5);
  }

  // A rename into an empty slot moves nothing past anything else.
  lemma {:induction false} ShiftKeepsEntries<T>(chain: Chain<T>, n: nat)
    requires n + 1 < SLOTS && chain[n + 1] == None
    ensures Entries(Take(chain, Shift(n))) == Entries(chain)
  {
    var a, b := chain[..n], chain[n + 2..];
    assert chain == a + [chain[n], None] + b;
    EntriesConcat(a + [chain[n], None], b);
    EntriesConcat(a, [chain[n], None]);
    if chain[n].Some? {
      assert Take(chain, Shift(n)) == a + [None, chain[n]] + b;
      EntriesConcat(a + [None, chain[n]], b);
      EntriesConcat(a, [None, chain[n]]);
      assert Entries([None, chain[n]]) == Entries([chain[n]]) == [chain[n].value];
      assert [chain[n], None][1..] == [None];
      assert Entries([chain[n], None]) == [chain[n].value];
    }
  }

  // A rename onto a file replaces that file.
  lemma ShiftKeepsOrder<T>(chain: Chain<T>, n: nat)
    ensures Subsequence(Entries(Take(chain, Shift(n))), Entries(chain))
  {
    if n + 1 < SLOTS && chain[n].Some? {
      ClearedKeepsOrder(chain, n + 1);
      ShiftKeepsEntries(chain[n + 1 := None], n);
      assert Take(chain[n + 1 := None], Shift(n)) == Take(chain, Shift(n));
    } else {
      SubsequenceRefl(Entries(chain));
    }
  }

  lemma {:induction false} PutNewest<T>(chain: Chain<T>, cur: T)
    ensures chain[0] == None ==> Entries(Take(chain, Put(0, cur))) == [cur] + Entries(chain)
  {
    if chain[0] == None {
      assert Take(chain, Put(0, cur))[1..] == chain[1..];
    }
  }

  // Every cut of the renames keeps the entries.
  lemma {:induction false} ShiftCut<T>(chain: Chain<T>, before: Chain<T>, n: nat, k: nat)
    requires n + 1 < SLOTS && chain[n + 1] == None && chain[..n + 1] == before[..n + 1]
    requires k <= |ShiftSteps(before, n)|
    ensures Entries(TakeAll(chain, ShiftSteps(before, n)[..k])) == Entries(chain)
    decreases n
  {
    var steps := ShiftSteps(before, n);
    if n > 0 && k > 0 {
      assert chain[n] == before[n];
      if before[n].Some? {
        ShiftKeepsEntries(chain, n);
        var next := Take(chain, Shift(n));
        assert next[..n] == before[..n];
        assert steps[..k] == [Shift(n)] + ShiftSteps(before, n - 1)[..k - 1];
        assert steps[..k][1..] == ShiftSteps(before, n - 1)[..k - 1];
        ShiftCut(next, before, n - 1, k - 1);
      } else {
        assert chain[..n] == before[..n];
        assert steps == ShiftSteps(before, n - 1);
        ShiftCut(chain, before, n - 1, k);
      }
    }
  }

  // The whole of the renames moves slots 1..n up by one.
  lemma {:induction false} ShiftWhole<T>(chain: Chain<T>, before: Chain<T>, n: nat)
    requires n + 1 < SLOTS && chain[n + 1] == None && chain[..n + 1] == before[..n + 1]
    ensures TakeAll(chain, ShiftSteps(before, n)) == [chain[0], None] + chain[1..n + 1] + chain[n + 2..]
    decreases n
  {
    var steps := ShiftSteps(before, n);
    if n == 0 {
      assert chain == [chain[0], None] + chain[2..];
    } else {
      assert chain[n] == before[n];
      var next := Take(chain, Shift(n));
      assert next[..n] == before[..n];
      ShiftWhole(next, before, n - 1);
      ShiftOnce(chain, n);
      if before[n].Some? {
        assert steps[1..] == ShiftSteps(before, n - 1);
      } else {
        assert steps == ShiftSteps(before, n - 1) && next == chain;
      }
    }
  }

  lemma {:induction false} ShiftOnce<T>(chain: Chain<T>, n: nat)
    requires 0 < n && n + 1 < SLOTS && chain[n + 1] == None
    ensures var next := Take(chain, Shift(n));
            [next[0], None] + next[1..n] + next[n + 1..] == [chain[0], None] + chain[1..n + 1] + chain[n + 2..]
  {
    var next := Take(chain, Shift(n));
    assert next[1..n] == chain[1..n] && next[n + 1] == chain[n] && next[n + 2..] == chain[n + 2..];
    assert next[n + 1..] == [chain[n]] + chain[n + 2..] && chain[1..n + 1] == chain[1..n] + [chain[n]];
  }

  lemma {:induction false} TakeAllConcat<T>(chain: Chain<T>, a: seq<Step<T>>, b: seq<Step<T>>)
    ensures TakeAll(chain, a + b) == TakeAll(TakeAll(chain, a), b)
    decreases |a|
  {
    if a == [] {
      assert a + b == b;
    } else {
      assert (a + b)[1..] == a[1..] + b;
      TakeAllConcat(Take(chain, a[0]), a[1..], b);
    }
  }

  // ---- Recording a config ----

  /** An uncut recording puts cur on top and moves everything else down one file. */
  lemma {:induction false} RecordWhole<T>(chain: Chain<T>, cur: T)
    ensures TakeAll(chain, RecordSteps(chain, cur)) ==
            if chain[0] == Some(cur) then chain else if chain[0] == None then chain[0 := Some(cur)] else [Some(cur)] + chain[..5]
  {
    if chain[0] == None {
      assert [Put(0, cur)][1..] == [];
    } else if chain[0] != Some(cur) {
      var d := Take(chain, Drop(5));
      var mid := ShiftSteps(chain, 4);
      ShiftWhole(d, chain, 4);
      var s := TakeAll(d, mid);
      assert s == [chain[0], None] + chain[1..5];
      TakeAllConcat(chain, [Drop(5)], mid);
      TakeAllConcat(chain, [Drop(5)] + mid, [Shift(0), Put(0, cur)]);
      assert TakeAll(chain, [Drop(5)]) == d;
      var t := Take(s, Shift(0));
      assert t == [None, chain[0]] + chain[1..5];
      assert [Shift(0), Put(0, cur)][1..] == [Put(0, cur)];
      assert TakeAll(s, [Shift(0), Put(0, cur)]) == TakeAll(t, [Put(0, cur)]) == Take(t, Put(0, cur));
      assert Take(t, Put(0, cur)) == [Some(cur)] + chain[..5];
    }
  }

  /** However far a recording gets before the process dies, what the chain holds is, in order, some of
      what it held before with cur possibly in front. */
  lemma {:induction false} RecordCut<T>(chain: Chain<T>, cur: T, k: nat)
    requires k <= |RecordSteps(chain, cur)|
    ensures Subsequence(Entries(TakeAll(chain, RecordSteps(chain, cur)[..k])), [cur] + Entries(chain))
  {
    var steps := RecordSteps(chain, cur);
    var held := Entries(chain);
    SubsequenceRefl(held);
    SubsequenceCons(cur, held, held);
    SubsequenceRefl([cur] + held);
    if chain[0] == None {
      PutNewest(chain, cur);
      assert k == 0 || steps[..k] == [Put(0, cur)];
      assert TakeAll(chain, [Put(0, cur)]) == Take(chain, Put(0, cur)) by { assert [Put(0, cur)][1..] == []; }
    } else if k > 0 {
      var d := Take(chain, Drop(5));
      RecordRotationCut(chain, cur, k);
      DropKeepsOrder(chain);
      SubsequenceCons(cur, Entries(d), held);
    }
  }

  lemma {:induction false} RecordRotationCut<T>(chain: Chain<T>, cur: T, k: nat)
    requires chain[0] != None && chain[0] != Some(cur) && 0 < k <= |RecordSteps(chain, cur)|
    ensures var e, d := Entries(TakeAll(chain, RecordSteps(chain, cur)[..k])), Entries(Take(chain, Drop(5)));
            e == d || e == [cur] + d
  {
    var steps := RecordSteps(chain, cur)[..k];
    var mid := ShiftSteps(chain, 4);
    var d := Take(chain, Drop(5));
    RecordRotationSplit(chain, cur, k);
    if k <= 1 + |mid| {
      ShiftCut(d, chain, 4, k - 1);
    } else {
      RecordTail(chain, d, cur, k - 1);
    }
  }

  lemma {:induction false} TakeAllFirst<T>(chain: Chain<T>, step: Step<T>, rest: seq<Step<T>>)
    ensures TakeAll(chain, [step] + rest) == TakeAll(Take(chain, step), rest)
  {
    assert ([step] + rest)[1..] == rest;
  }

  lemma {:induction false} RecordRotationSplit<T>(chain: Chain<T>, cur: T, k: nat)
    requires chain[0] != None && chain[0] != Some(cur) && 0 < k <= |RecordSteps(chain, cur)|
    ensures var mid := ShiftSteps(chain, 4);
            TakeAll(chain, RecordSteps(chain, cur)[..k]) ==
            TakeAll(Take(chain, Drop(5)), if k <= 1 + |mid| then mid[..k - 1] else (mid + [Shift(0), Put(0, cur)])[..k - 1])
  {
    var mid := ShiftSteps(chain, 4);
    var rest := mid + [Shift(0), Put(0, cur)];
    assert RecordSteps(chain, cur) == [Drop(5)] + rest;
    assert RecordSteps(chain, cur)[..k] == [Drop(5)] + rest[..k - 1];
    assert k <= 1 + |mid| ==> rest[..k - 1] == mid[..k - 1];
    TakeAllFirst(chain, Drop(5), rest[..k - 1]);
  }

  lemma {:induction false} RecordTail<T>(chain: Chain<T>, d: Chain<T>, cur: T, k: nat)
    requires d == Take(chain, Drop(5))
    requires |ShiftSteps(chain, 4)| < k <= |ShiftSteps(chain, 4)| + 2
    ensures var e := Entries(TakeAll(d, (ShiftSteps(chain, 4) + [Shift(0), Put(0, cur)])[..k]));
            e == Entries(d) || e == [cur] + Entries(d)
  {
    var mid := ShiftSteps(chain, 4);
    var steps := (mid + [Shift(0), Put(0, cur)])[..k];
    ShiftCut(d, chain, 4, |mid|);
    ShiftWhole(d, chain, 4);
    assert mid[..|mid|] == mid;
    var s := TakeAll(d, mid);
    assert s[1] == None;
    ShiftKeepsEntries(s, 0);
    var t := Take(s, Shift(0));
    PutNewest(t, cur);
    TakeAllConcat(d, mid, steps[|mid|..]);
    assert steps == mid + steps[|mid|..];
    if k == |mid| + 1 {
      assert steps[|mid|..] == [Shift(0)];
      assert TakeAll(s, [Shift(0)]) == t;
    } else {
      assert steps[|mid|..] == [Shift(0), Put(0, cur)] && [Shift(0), Put(0, cur)][1..] == [Put(0, cur)];
      assert TakeAll(s, steps[|mid|..]) == TakeAll(t, [Put(0, cur)]) == Take(t, Put(0, cur));
    }
  }

  // ---- Whole runs ----

  // One applied config and how many of the chain's file operations happened before the process died.
  datatype Recording<T> = Recording(config: T, done: nat)

  function AfterRecording<T(==)>(chain: Chain<T>, r: Recording<T>): Chain<T>
  {
    var steps := RecordSteps(chain, r.config);
    TakeAll(chain, steps[..if r.done < |steps| then r.done else |steps|])
  }

  function NoFiles<T>(): Chain<T>
  {
    [None, None, None, None, None, None]
  }

  // The chain after a run, starting with no files. rs is oldest first.
  function AfterAll<T(==)>(rs: seq<Recording<T>>): Chain<T>
  {
    if rs == [] then NoFiles() else AfterRecording(AfterAll(rs[..|rs| - 1]), rs[|rs| - 1])
  }

  // Every config the run applied, newest first.
  function Applied<T>(rs: seq<Recording<T>>): seq<T>
  {
    if rs == [] then [] else [rs[|rs| - 1].config] + Applied(rs[..|rs| - 1])
  }

  /** Over every run of applies, each cut after any file operation, the chain read newest first is a
      subsequence of what was applied. */
  lemma {:induction false} ChainFollowsHistory<T>(rs: seq<Recording<T>>)
    ensures Subsequence(Entries(AfterAll(rs)), Applied(rs))
  {
    if rs == [] {
      NoEntries(NoFiles<T>());
    } else {
      var before, r := rs[..|rs| - 1], rs[|rs| - 1];
      ChainFollowsHistory(before);
      var chain := AfterAll(before);
      var steps := RecordSteps(chain, r.config);
      RecordCut(chain, r.config, if r.done < |steps| then r.done else |steps|);
      SubsequenceCons(r.config, Entries(chain), Applied(before));
      SubsequenceTrans(Entries(AfterAll(rs)), [r.config] + Entries(chain), Applied(rs));
    }
  }

  // Consecutive repeats reduced to one.
  function Collapse<T(==)>(s: seq<T>): (r: seq<T>)
    ensures (r == []) == (s == [])
    ensures s != [] ==> r[0] == s[0]
  {
    if |s| <= 1 then s
    else if s[0] == s[1] then Collapse(s[1..])
    else [s[0]] + Collapse(s[1..])
  }

  function FirstSix<T>(s: seq<T>): seq<T>
  {
    if |s| <= SLOTS then s else s[..SLOTS]
  }

  function Packed<T>(s: seq<T>): Chain<T>
    requires |s| <= SLOTS
  {
    seq(SLOTS, i requires 0 <= i < SLOTS => if i < |s| then Some(s[i]) else None)
  }

  predicate Uncut<T(==)>(rs: seq<Recording<T>>)
  {
    forall i | 0 <= i < |rs| :: rs[i].done >= |RecordSteps(AfterAll(rs[..i]), rs[i].config)|
  }

  lemma {:induction false} PackedRecord<T>(past: seq<T>, cur: T)
    ensures var chain := Packed(FirstSix(Collapse(past)));
            Packed(FirstSix(Collapse([cur] + past))) ==
            if chain[0] == Some(cur) then chain else if chain[0] == None then chain[0 := Some(cur)] else [Some(cur)] + chain[..5]
  {
    assert ([cur] + past)[1..] == past;
    var kept, all := Collapse(past), Collapse([cur] + past);
    var chain := Packed(FirstSix(kept));
    if kept == [] {
      assert all == [cur];
    } else if kept[0] == cur {
      assert all == kept;
    } else {
      assert all == [cur] + kept;
    }
  }

  /** With no crash the chain is exactly the last six configs applied, repeats in a row counted once. */
  lemma {:induction false} ChainIsLastSix<T>(rs: seq<Recording<T>>)
    requires Uncut(rs)
    ensures AfterAll(rs) == Packed(FirstSix(Collapse(Applied(rs))))
  {
    if rs == [] {
      assert Packed<T>([]) == NoFiles<T>();
    } else {
      var before, r := rs[..|rs| - 1], rs[|rs| - 1];
      assert Uncut(before) by {
        forall i | 0 <= i < |before| ensures before[i].done >= |RecordSteps(AfterAll(before[..i]), before[i].config)| {
          assert before[..i] == rs[..i];
        }
      }
      ChainIsLastSix(before);
      var chain := AfterAll(before);
      var steps := RecordSteps(chain, r.config);
      assert steps[..|steps|] == steps;
      RecordWhole(chain, r.config);
      assert rs[..|rs| - 1] == before && rs[|rs| - 1].done >= |steps|;
      assert Applied(rs)[1..] == Applied(before);
      PackedRecord(Applied(before), r.config);
    }
  }

  // ---- Restoring the previous applied config ----

  // The first .bak.n, n >= from, that differs from .bak.
  function FirstOther<T(==)>(chain: Chain<T>, from: nat): Option<T>
    requires from <= SLOTS
    decreases |chain| - from
  {
    if from == SLOTS then None
    else if chain[from].Some? && chain[from] != chain[0] then chain[from]
    else FirstOther(chain, from + 1)
  }

  function PreviousApplied<T(==)>(chain: Chain<T>): Option<T>
  {
    if chain[0] == None then None else FirstOther(chain, 1)
  }

  lemma {:induction false} FirstOtherMeaning<T>(chain: Chain<T>, from: nat, later: seq<T>)
    requires from <= SLOTS && chain[0].Some? && later == Entries(chain[from..])
    ensures FirstOther(chain, from) == None <==> forall j | 0 <= j < |later| :: later[j] == chain[0].value
    ensures FirstOther(chain, from) != None ==>
              exists j | 0 <= j < |later| ::
                later[j] == FirstOther(chain, from).value != chain[0].value && forall m | 0 <= m < j :: later[m] == chain[0].value
    decreases SLOTS - from
  {
    if from < SLOTS {
      assert chain[from..][1..] == chain[from + 1..];
      var rest := Entries(chain[from + 1..]);
      FirstOtherMeaning(chain, from + 1, rest);
      var f := FirstOther(chain, from);
      if chain[from].Some? {
        assert later == [chain[from].value] + rest;
        if chain[from] != chain[0] {
          assert later[0] == f.value;
        } else if f != None {
          var j :| 0 <= j < |rest| && rest[j] == f.value && forall m | 0 <= m < j :: rest[m] == chain[0].value;
          assert later[j + 1] == f.value;
        }
      } else {
        assert later == rest;
      }
    }
  }

  /** Whatever crashes left missing, restore-previous offers the newest older entry that differs from .bak,
      and nothing exactly when there is no such entry. */
  lemma {:induction false} PreviousAppliedMeaning<T>(chain: Chain<T>, older: seq<T>)
    requires chain[0] != None && older == Entries(chain)[1..]
    ensures PreviousApplied(chain) == None <==> forall j | 0 <= j < |older| :: older[j] == chain[0].value
    ensures PreviousApplied(chain) != None ==>
              exists j | 0 <= j < |older| ::
                older[j] == PreviousApplied(chain).value != chain[0].value && forall m | 0 <= m < j :: older[m] == chain[0].value
  {
    FirstOtherMeaning(chain, 1, older);
  }

  lemma {:induction false} NoOther<T>(chain: Chain<T>, from: nat)
    requires from <= SLOTS && forall j | from <= j < SLOTS :: chain[j] == None
    ensures FirstOther(chain, from) == None
    decreases SLOTS - from
  {
    if from < SLOTS {
      NoOther(chain, from + 1);
    }
  }

  /** After any uncut run, restore-previous offers the latest applied config that differs from the current
      one, and offers nothing exactly when every applied config was the same. */
  lemma {:induction false} PreviousIsLatestOther<T>(rs: seq<Recording<T>>)
    requires Uncut(rs) && rs != []
    ensures var past := Applied(rs);
            match PreviousApplied(AfterAll(rs))
            case None => forall i | 0 <= i < |past| :: past[i] == past[0]
            case Some(c) => c != past[0] && exists j | 0 <= j < |past| :: past[j] == c && forall m | 0 <= m < j :: past[m] == past[0]
  {
    ChainIsLastSix(rs);
    var past := Applied(rs);
    var kept := Collapse(past);
    var chain := AfterAll(rs);
    assert chain[0] == Some(kept[0]);
    CollapseSecond(past);
    if |kept| == 1 {
      NoOther(chain, 1);
    } else {
      assert chain[1] == Some(kept[1]);
    }
  }

  lemma {:induction false} CollapseSecond<T>(s: seq<T>)
    requires s != []
    ensures |Collapse(s)| == 1 ==> forall i | 0 <= i < |s| :: s[i] == s[0]
    ensures |Collapse(s)| > 1 ==> Collapse(s)[1] != s[0]
    ensures |Collapse(s)| > 1 ==>
              exists j | 0 <= j < |s| :: s[j] == Collapse(s)[1] && forall m | 0 <= m < j :: s[m] == s[0]
  {
    if |s| > 1 {
      CollapseSecond(s[1..]);
      if s[0] == s[1] {
        if |Collapse(s)| > 1 {
          var t := s[1..];
          var j :| 0 <= j < |t| && t[j] == Collapse(t)[1] && forall m | 0 <= m < j :: t[m] == t[0];
          assert s[j + 1] == Collapse(s)[1];
          forall m | 0 <= m < j + 1 ensures s[m] == s[0] {
            if m > 0 { assert s[m] == t[m - 1]; }
          }
        } else {
          forall i | 0 <= i < |s| ensures s[i] == s[0] {
            if i > 0 { assert s[i] == s[1..][i - 1]; }
          }
        }
      } else {
        assert s[1] == Collapse(s)[1];
      }
    }
  }
}

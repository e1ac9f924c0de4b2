/** The changes of one row list, and taking them all back in any order. */
module RowChanges {
  import opened Common
  import opened Json
  import opened RowMatch
  import opened RowSteps

  // ---- The changes ----

  function StepAt(before: seq<Item>, after: seq<Item>, b: int, a: int): RowStep
  {
    Row(if 0 <= b < |before| then Some(before[b]) else None, if 0 <= a < |after| then Some(after[a]) else None, b, a, before, after)
  }

  function RemovedSteps(before: seq<Item>, after: seq<Item>, removed: set<nat>, n: nat): seq<RowStep>
  {
    if n == 0 then [] else RemovedSteps(before, after, removed, n - 1) + if n - 1 in removed then [StepAt(before, after, n - 1, -1)] else []
  }

  function AddedSteps(before: seq<Item>, after: seq<Item>, added: set<nat>, n: nat): seq<RowStep>
  {
    if n == 0 then [] else AddedSteps(before, after, added, n - 1) + if n - 1 in added then [StepAt(before, after, -1, n - 1)] else []
  }

  function EditedSteps(before: seq<Item>, after: seq<Item>, pairs: seq<(nat, nat)>): seq<RowStep>
  {
    if pairs == [] then []
    else
      var p := pairs[|pairs| - 1];
      EditedSteps(before, after, pairs[..|pairs| - 1]) + [StepAt(before, after, p.0, p.1)]
  }

  predicate InOrder(kept: seq<(nat, nat)>)
  {
    forall i | 0 < i < |kept| :: kept[i - 1].1 < kept[i].1
  }

  function FirstRows(kept: seq<(nat, nat)>, before: seq<Item>): seq<Item>
  {
    if kept == [] then []
    else
      var b := kept[|kept| - 1].0;
      FirstRows(kept[..|kept| - 1], before) + if b < |before| then [before[b]] else []
  }

  // The kept rows in the after list's order.
  function SecondRows(kept: seq<(nat, nat)>, after: seq<Item>, n: nat): seq<Item>
    requires n <= |after|
  {
    if n == 0 then []
    else SecondRows(kept, after, n - 1) + if exists i | 0 <= i < |kept| :: kept[i].1 == n - 1 then [after[n - 1]] else []
  }

  // orderChange. The pairs come in the before list's order.
  function OrderSteps(before: seq<Item>, after: seq<Item>, kept: seq<(nat, nat)>): seq<RowStep>
  {
    if InOrder(kept) then [] else [Order(FirstRows(kept, before), SecondRows(kept, after, |after|))]
  }

  function RowStepsOf(before: seq<Item>, after: seq<Item>, keys: seq<Keys>): seq<RowStep>
  {
    var m := MatchOf(before, after, keys);
    RemovedSteps(before, after, m.removed, |before|) + EditedSteps(before, after, m.edited) + AddedSteps(before, after, m.added, |after|) +
    OrderSteps(before, after, m.kept)
  }

  /** The steps of describeRowList. */
  method DescribeRows(before: seq<Item>, after: seq<Item>, keys: seq<Keys>) returns (steps: seq<RowStep>)
    ensures steps == RowStepsOf(before, after, keys)
  {
    var m := MatchRows(before, after, keys);
    var removed: seq<RowStep> := [];
    for b := 0 to |before|
      invariant removed == RemovedSteps(before, after, m.removed, b)
    {
      if b in m.removed {
        removed := removed + [StepAt(before, after, b, -1)];
      }
    }
    var edited: seq<RowStep> := [];
    for i := 0 to |m.edited|
      invariant edited == EditedSteps(before, after, m.edited[..i])
    {
      assert m.edited[..i + 1][..i] == m.edited[..i];
      edited := edited + [StepAt(before, after, m.edited[i].0, m.edited[i].1)];
    }
    assert m.edited[..|m.edited|] == m.edited;
    var added: seq<RowStep> := [];
    for a := 0 to |after|
      invariant added == AddedSteps(before, after, m.added, a)
    {
      if a in m.added {
        added := added + [StepAt(before, after, -1, a)];
      }
    }
    steps := removed + edited + added + OrderSteps(before, after, m.kept);
  }

  // matchRows finds the kept pairs in the before list's order, so sorting them by it changes nothing.
  lemma {:induction false} PairsAscend<K>(p: Pairing, before: seq<Option<K>>, after: seq<Option<K>>, n: nat)
    requires n <= |before| && p.pairs == []
    ensures var q := Pass(p, before, after, n); forall i, j | 0 <= i < j < |q.pairs| :: q.pairs[i].0 < q.pairs[j].0
  {
    if n > 0 {
      PairsAscend(p, before, after, n - 1);
      PassPairs(p, before, after, n - 1);
    }
  }

  // ---- What steps want and have ----

  function WantOf(s: RowStep): multiset<Json>
  {
    if s.Row? && s.before.Some? then multiset{Class(s.before.value)} else multiset{}
  }

  function HaveOf(s: RowStep): multiset<Json>
  {
    if s.Row? && s.after.Some? then multiset{Class(s.after.value)} else multiset{}
  }

  // What a revert of the steps brings back, and what it takes away.
  function Wants(steps: seq<RowStep>): multiset<Json>
  {
    if steps == [] then multiset{} else WantOf(steps[0]) + Wants(steps[1..])
  }

  function Haves(steps: seq<RowStep>): multiset<Json>
  {
    if steps == [] then multiset{} else HaveOf(steps[0]) + Haves(steps[1..])
  }

  lemma {:induction false} StepsConcat(a: seq<RowStep>, b: seq<RowStep>)
    ensures Wants(a + b) == Wants(a) + Wants(b) && Haves(a + b) == Haves(a) + Haves(b)
  {
    if a == [] {
      assert a + b == b;
    } else {
      assert (a + b)[1..] == a[1..] + b && (a + b)[0] == a[0];
      StepsConcat(a[1..], b);
    }
  }

  lemma OneStep(s: RowStep)
    ensures Wants([s]) == WantOf(s) && Haves([s]) == HaveOf(s)
  {
    assert [s][1..] == [];
  }

  lemma StepsSnoc(steps: seq<RowStep>, s: RowStep)
    ensures Wants(steps + [s]) == Wants(steps) + WantOf(s) && Haves(steps + [s]) == Haves(steps) + HaveOf(s)
  {
    StepsConcat(steps, [s]);
    OneStep(s);
  }

  lemma StepsMaybe(steps: seq<RowStep>, s: RowStep, yes: bool)
    ensures var all := steps + if yes then [s] else [];
            && Wants(all) == Wants(steps) + (if yes then WantOf(s) else multiset{})
            && Haves(all) == Haves(steps) + (if yes then HaveOf(s) else multiset{})
  {
    if yes {
      StepsSnoc(steps, s);
    } else {
      assert steps + [] == steps;
    }
  }

  lemma StepAtCounts(before: seq<Item>, after: seq<Item>, b: int, a: int)
    ensures WantOf(StepAt(before, after, b, a)) == if 0 <= b < |before| then multiset{Class(before[b])} else multiset{}
    ensures HaveOf(StepAt(before, after, b, a)) == if 0 <= a < |after| then multiset{Class(after[a])} else multiset{}
  {
  }

  lemma {:induction false} RemovedCount(before: seq<Item>, after: seq<Item>, removed: set<nat>, n: nat)
    requires n <= |before|
    ensures var s := RemovedSteps(before, after, removed, n); Wants(s) == Pick(before, removed, n) && Haves(s) == multiset{}
  {
    if n > 0 {
      var steps, step := RemovedSteps(before, after, removed, n - 1), StepAt(before, after, n - 1, -1);
      StepAtCounts(before, after, n - 1, -1);
      StepsMaybe(steps, step, n - 1 in removed);
      RemovedCount(before, after, removed, n - 1);
    }
  }

  lemma {:induction false} AddedHaves(before: seq<Item>, after: seq<Item>, added: set<nat>, n: nat)
    requires n <= |after|
    ensures Haves(AddedSteps(before, after, added, n)) == Pick(after, added, n)
  {
    if n > 0 {
      AddedHaves(before, after, added, n - 1);
      var steps, step := AddedSteps(before, after, added, n - 1), StepAt(before, after, -1, n - 1);
      StepAtCounts(before, after, -1, n - 1);
      StepsMaybe(steps, step, n - 1 in added);
    }
  }

  lemma {:induction false} AddedWants(before: seq<Item>, after: seq<Item>, added: set<nat>, n: nat)
    ensures Wants(AddedSteps(before, after, added, n)) == multiset{}
  {
    if n > 0 {
      AddedWants(before, after, added, n - 1);
      var steps, step := AddedSteps(before, after, added, n - 1), StepAt(before, after, -1, n - 1);
      StepAtCounts(before, after, -1, n - 1);
      StepsMaybe(steps, step, n - 1 in added);
    }
  }

  lemma {:induction false} EditedCount(before: seq<Item>, after: seq<Item>, pairs: seq<(nat, nat)>)
    ensures var s := EditedSteps(before, after, pairs); Wants(s) == Firsts(pairs, before) && Haves(s) == Seconds(pairs, after)
  {
    if pairs != [] {
      var p := pairs[|pairs| - 1];
      EditedCount(before, after, pairs[..|pairs| - 1]);
      StepsSnoc(EditedSteps(before, after, pairs[..|pairs| - 1]), StepAt(before, after, p.0, p.1));
    }
  }

  lemma OrderCount(before: seq<Item>, after: seq<Item>, kept: seq<(nat, nat)>)
    ensures Wants(OrderSteps(before, after, kept)) == multiset{} && Haves(OrderSteps(before, after, kept)) == multiset{}
  {
    OneStep(Order(FirstRows(kept, before), SecondRows(kept, after, |after|)));
  }

  lemma StepsCount(before: seq<Item>, after: seq<Item>, keys: seq<Keys>)
    ensures var s, m := RowStepsOf(before, after, keys), MatchOf(before, after, keys);
            && Wants(s) == Firsts(m.edited, before) + FreeClasses(before, m.removed)
            && Haves(s) == Seconds(m.edited, after) + FreeClasses(after, m.added)
  {
    var m := MatchOf(before, after, keys);
    var a, b := RemovedSteps(before, after, m.removed, |before|), EditedSteps(before, after, m.edited);
    var c, d := AddedSteps(before, after, m.added, |after|), OrderSteps(before, after, m.kept);
    RemovedCount(before, after, m.removed, |before|);
    EditedCount(before, after, m.edited);
    AddedHaves(before, after, m.added, |after|);
    AddedWants(before, after, m.added, |after|);
    OrderCount(before, after, m.kept);
    StepsConcat(a, b);
    StepsConcat(a + b, c);
    StepsConcat(a + b + c, d);
  }

  lemma {:induction false} PickedClass(rows: seq<Item>, some: set<nat>, n: nat, c: Json)
    requires n <= |rows| && c in Pick(rows, some, n)
    ensures exists i | 0 <= i < n :: i in some && Class(rows[i]) == c
  {
    if c in Pick(rows, some, n - 1) {
      PickedClass(rows, some, n - 1, c);
    }
  }

  lemma {:induction false} FirstsClass(pairs: seq<(nat, nat)>, before: seq<Item>, c: Json)
    requires c in Firsts(pairs, before)
    ensures exists i | 0 <= i < |pairs| :: pairs[i].0 < |before| && Class(before[pairs[i].0]) == c
  {
    var last := |pairs| - 1;
    if c in Firsts(pairs[..last], before) {
      FirstsClass(pairs[..last], before, c);
      var i :| 0 <= i < last && pairs[..last][i].0 < |before| && Class(before[pairs[..last][i].0]) == c;
      assert pairs[i] == pairs[..last][i];
    }
  }

  lemma {:induction false} SecondsClass(pairs: seq<(nat, nat)>, after: seq<Item>, c: Json)
    requires c in Seconds(pairs, after)
    ensures exists i | 0 <= i < |pairs| :: pairs[i].1 < |after| && Class(after[pairs[i].1]) == c
  {
    var last := |pairs| - 1;
    if c in Seconds(pairs[..last], after) {
      SecondsClass(pairs[..last], after, c);
      var i :| 0 <= i < last && pairs[..last][i].1 < |after| && Class(after[pairs[..last][i].1]) == c;
      assert pairs[i] == pairs[..last][i];
    }
  }

  // ---- No class is both wanted and had ----

  ghost predicate Separate(steps: seq<RowStep>)
  {
    forall c | c in Wants(steps) :: c !in Haves(steps)
  }

  lemma WantedWasFree(before: seq<Item>, after: seq<Item>, keys: seq<Keys>, c: Json) returns (b: nat)
    requires c in Wants(RowStepsOf(before, after, keys))
    ensures b in KeptPass(before, after).freeBefore && b < |before| && Class(before[b]) == c
    ensures var m := MatchOf(before, after, keys); b in m.removed || exists i | 0 <= i < |m.edited| :: m.edited[i].0 == b
  {
    var m, p := MatchOf(before, after, keys), KeptPass(before, after);
    StepsCount(before, after, keys);
    EditedWereFree(Pairing([], p.freeBefore, p.freeAfter), keys);
    if c in Firsts(m.edited, before) {
      FirstsClass(m.edited, before, c);
      var i :| 0 <= i < |m.edited| && m.edited[i].0 < |before| && Class(before[m.edited[i].0]) == c;
      b := m.edited[i].0;
    } else {
      PickedClass(before, m.removed, |before|, c);
      b :| 0 <= b < |before| && b in m.removed && Class(before[b]) == c;
    }
  }

  lemma HadWasFree(before: seq<Item>, after: seq<Item>, keys: seq<Keys>, c: Json) returns (a: nat)
    requires c in Haves(RowStepsOf(before, after, keys))
    ensures a in KeptPass(before, after).freeAfter && a < |after| && Class(after[a]) == c
    ensures var m := MatchOf(before, after, keys); a in m.added || exists i | 0 <= i < |m.edited| :: m.edited[i].1 == a
  {
    var m, p := MatchOf(before, after, keys), KeptPass(before, after);
    StepsCount(before, after, keys);
    EditedWereFree(Pairing([], p.freeBefore, p.freeAfter), keys);
    if c in Seconds(m.edited, after) {
      SecondsClass(m.edited, after, c);
      var i :| 0 <= i < |m.edited| && m.edited[i].1 < |after| && Class(after[m.edited[i].1]) == c;
      a := m.edited[i].1;
    } else {
      PickedClass(after, m.added, |after|, c);
      a :| 0 <= a < |after| && a in m.added && Class(after[a]) == c;
    }
  }

  lemma StepsSeparate(before: seq<Item>, after: seq<Item>, keys: seq<Keys>)
    ensures Separate(RowStepsOf(before, after, keys))
  {
    var s := RowStepsOf(before, after, keys);
    KeptMeaning(before, after);
    forall c | c in Wants(s) ensures c !in Haves(s) {
      var b := WantedWasFree(before, after, keys, c);
      if c in Haves(s) {
        var a := HadWasFree(before, after, keys, c);
      }
    }
  }

  // ---- Public keys ----

  function RowKeys(rows: seq<Item>): (r: seq<Option<string>>)
    ensures |r| == |rows| && forall i | 0 <= i < |rows| :: r[i] == RowKey(rows[i])
  {
    seq(|rows|, i requires 0 <= i < |rows| => RowKey(rows[i]))
  }

  // The first pass after identical rows goes by public key, or no row has one.
  ghost predicate KeyFirst(before: seq<Item>, after: seq<Item>, keys: seq<Keys>)
  {
    || (keys != [] && keys[0] == Keys(RowKeys(before), RowKeys(after)))
    || forall i | 0 <= i < |before| :: RowKey(before[i]) == None
  }

  ghost predicate UniqueKeys(rows: seq<Item>)
  {
    DistinctKeys(RowKeys(rows))
  }

  // No row a revert only takes away has the key of one it only brings back.
  ghost predicate KeysApart(steps: seq<RowStep>)
  {
    forall i, c | 0 <= i < |steps| && BringsBack(steps[i]) && c in Haves(steps) :: KeyOf(c) != RowKey(steps[i].before.value)
  }

  // The step brings a row with a public key back and takes none away.
  predicate BringsBack(s: RowStep)
  {
    s.Row? && s.before.Some? && s.after == None && RowKey(s.before.value).Some?
  }

  lemma {:induction false} RemovedAt(before: seq<Item>, after: seq<Item>, removed: set<nat>, n: nat, i: nat)
    requires n <= |before| && i < |RemovedSteps(before, after, removed, n)|
    ensures exists b | 0 <= b < n :: b in removed && RemovedSteps(before, after, removed, n)[i] == StepAt(before, after, b, -1)
  {
    if i < |RemovedSteps(before, after, removed, n - 1)| {
      RemovedAt(before, after, removed, n - 1, i);
    }
  }

  lemma {:induction false} AddedAt(before: seq<Item>, after: seq<Item>, added: set<nat>, n: nat, i: nat)
    requires n <= |after| && i < |AddedSteps(before, after, added, n)|
    ensures exists a | 0 <= a < n :: a in added && AddedSteps(before, after, added, n)[i] == StepAt(before, after, -1, a)
  {
    if i < |AddedSteps(before, after, added, n - 1)| {
      AddedAt(before, after, added, n - 1, i);
    }
  }

  lemma {:induction false} EditedAt(before: seq<Item>, after: seq<Item>, pairs: seq<(nat, nat)>, i: nat)
    requires i < |pairs|
    ensures |EditedSteps(before, after, pairs)| == |pairs| && EditedSteps(before, after, pairs)[i] == StepAt(before, after, pairs[i].0, pairs[i].1)
  {
    var last := |pairs| - 1;
    if i < last {
      EditedAt(before, after, pairs[..last], i);
    } else if last > 0 {
      EditedAt(before, after, pairs[..last], 0);
    }
  }

  // Every step is of a removed, edited or added row of these lists, or an order.
  predicate StepFits(s: RowStep, before: seq<Item>, after: seq<Item>, m: Matching)
  {
    || s.Order?
    || (exists b | 0 <= b < |before| :: b in m.removed && s == StepAt(before, after, b, -1))
    || (exists a | 0 <= a < |after| :: a in m.added && s == StepAt(before, after, -1, a))
    || (exists i | 0 <= i < |m.edited| :: m.edited[i].0 < |before| && m.edited[i].1 < |after| && s == StepAt(before, after, m.edited[i].0, m.edited[i].1))
  }

  lemma StepsFit(before: seq<Item>, after: seq<Item>, keys: seq<Keys>, s: RowStep)
    requires s in RowStepsOf(before, after, keys)
    ensures StepFits(s, before, after, MatchOf(before, after, keys))
  {
    var m, p := MatchOf(before, after, keys), KeptPass(before, after);
    KeptMeaning(before, after);
    EditedWereFree(Pairing([], p.freeBefore, p.freeAfter), keys);
    KeptFreeInRange(before, after);
    if s in RemovedSteps(before, after, m.removed, |before|) {
      var i :| 0 <= i < |RemovedSteps(before, after, m.removed, |before|)| && RemovedSteps(before, after, m.removed, |before|)[i] == s;
      RemovedAt(before, after, m.removed, |before|, i);
    } else if s in EditedSteps(before, after, m.edited) {
      var i :| 0 <= i < |EditedSteps(before, after, m.edited)| && EditedSteps(before, after, m.edited)[i] == s;
      EditedSize(before, after, m.edited);
      EditedAt(before, after, m.edited, i);
    } else if s in AddedSteps(before, after, m.added, |after|) {
      var i :| 0 <= i < |AddedSteps(before, after, m.added, |after|)| && AddedSteps(before, after, m.added, |after|)[i] == s;
      AddedAt(before, after, m.added, |after|, i);
    }
  }

  lemma EditedSize(before: seq<Item>, after: seq<Item>, pairs: seq<(nat, nat)>)
    ensures |EditedSteps(before, after, pairs)| == |pairs|
  {
    if pairs != [] {
      EditedAt(before, after, pairs, 0);
    }
  }

  lemma KeptFreeInRange(before: seq<Item>, after: seq<Item>)
    ensures (forall b | b in KeptPass(before, after).freeBefore :: b < |before|) && forall a | a in KeptPass(before, after).freeAfter :: a < |after|
  {
    PassApart(Pairing([], Indexes(|before|), Indexes(|after|)), Somes(Classes(before)), Somes(Classes(after)), |before|);
  }

  lemma StepsKeysApart(before: seq<Item>, after: seq<Item>, keys: seq<Keys>)
    requires KeyFirst(before, after, keys) && UniqueKeys(before) && UniqueKeys(after)
    ensures KeysApart(RowStepsOf(before, after, keys))
  {
    var steps, m, p := RowStepsOf(before, after, keys), MatchOf(before, after, keys), KeptPass(before, after);
    forall i, c | 0 <= i < |steps| && BringsBack(steps[i]) && c in Haves(steps) ensures KeyOf(c) != RowKey(steps[i].before.value) {
      StepsFit(before, after, keys, steps[i]);
      var b :| 0 <= b < |before| && b in m.removed && steps[i] == StepAt(before, after, b, -1);
      var a := HadWasFree(before, after, keys, c);
      EditedPairsFit(Pairing([], p.freeBefore, p.freeAfter), keys);
      assert keys[0].before[b] == RowKey(before[b]) && keys[0].after[a] == RowKey(after[a]);
    }
  }

  // ---- Taking steps back ----

  function Revert(rows: seq<Item>, s: RowStep): Outcome
  {
    match s
    case Row(before, after, beforeAt, _, beforeRows, _) => MoveRow(rows, after, before, beforeAt, beforeRows)
    case Order(rowsBefore, _) => Rows(SetRowOrder(rows, rowsBefore), Classes(SetRowOrder(rows, rowsBefore)) != Classes(rows))
  }

  function RevertAll(rows: seq<Item>, steps: seq<RowStep>): Outcome
    decreases |steps|
  {
    if steps == [] then Rows(rows, false)
    else
      var r := Revert(rows, steps[0]);
      if r == Refused then Refused else RevertAll(r.rows, steps[1..])
  }

  ghost predicate KeysUnique(all: multiset<Json>)
  {
    forall c, d | c in all && d in all && KeyOf(c).Some? && KeyOf(c) == KeyOf(d) :: c == d && all[c] == 1
  }

  // A step of a list that had before, with no null row to bring back.
  predicate Proper(s: RowStep, before: seq<Item>)
  {
    s.Row? ==> s.beforeRows == before && (s.before.Some? || s.after.Some?) && (s.before.Some? ==> s.before.value.json != Null)
  }

  // Where a list is after some steps: the rows both have, what the steps done brought back, and what the others take away.
  ghost predicate Midway(rows: seq<Item>, before: seq<Item>, kept: multiset<Json>, steps: seq<RowStep>)
  {
    && Counted(rows) == kept + Haves(steps)
    && Counted(before) == kept + Wants(steps)
    && Separate(steps)
    && KeysApart(steps) && KeysUnique(Counted(before))
    && forall i | 0 <= i < |steps| :: Proper(steps[i], before)
  }

  lemma MoreThanBefore(rows: seq<Item>, before: seq<Item>, kept: multiset<Json>, steps: seq<RowStep>, c: Json)
    requires Midway(rows, before, kept, steps) && c in Haves(steps)
    ensures Counted(rows)[c] > Counted(before)[c]
  {
    assert c !in Wants(steps);
    assert Counted(rows)[c] == kept[c] + Haves(steps)[c] && Counted(before)[c] == kept[c] + Wants(steps)[c];
  }

  lemma RevertAdded(rows: seq<Item>, before: seq<Item>, kept: multiset<Json>, steps: seq<RowStep>)
    requires steps != [] && Midway(rows, before, kept, steps) && steps[0].Row? && steps[0].before == None
    ensures var r := Revert(rows, steps[0]); r.Rows? && Counted(r.rows) == kept + Haves(steps[1..])
  {
    var have := steps[0].after.value;
    var c := Class(have);
    MoreThanBefore(rows, before, kept, steps, c);
    CountIsCounted(rows, have);
    CountIsCounted(before, have);
    var i := FindAlike(rows, have, 0);
    ClassIn(rows, c);
    RemoveCounted(rows, i);
    Taken(Counted(rows), Counted(rows[..i] + rows[i + 1..]), kept, Haves(steps[1..]), c);
  }

  lemma Taken(all: multiset<Json>, less: multiset<Json>, kept: multiset<Json>, rest: multiset<Json>, c: Json)
    requires all == less + multiset{c} && all == kept + (multiset{c} + rest)
    ensures less == kept + rest
  {
    assert less == all - multiset{c};
    assert kept + rest == all - multiset{c};
  }

  lemma KeyNotTaken(rows: seq<Item>, before: seq<Item>, kept: multiset<Json>, steps: seq<RowStep>)
    requires steps != [] && Midway(rows, before, kept, steps) && steps[0].Row? && steps[0].before.Some? && steps[0].after == None
    ensures !KeyTaken(rows, RowKey(steps[0].before.value))
  {
    var want := steps[0].before.value;
    var c := Class(want);
    if RowKey(want).Some? {
      assert BringsBack(steps[0]);
      assert c in Wants(steps) && c in Counted(before);
      forall i | 0 <= i < |rows| ensures RowKey(rows[i]) != RowKey(want) {
        var d := Class(rows[i]);
        ClassIn(rows, d);
        assert d in Counted(rows);
        if d in Haves(steps) {
          assert KeyOf(d) != RowKey(want);
        } else {
          assert d in kept && d in Counted(before);
          assert d == c ==> Counted(before)[c] >= 2;
        }
      }
    }
  }

  lemma RevertRemoved(rows: seq<Item>, before: seq<Item>, kept: multiset<Json>, steps: seq<RowStep>)
    requires steps != [] && Midway(rows, before, kept, steps) && steps[0].Row? && steps[0].before.Some? && steps[0].after == None
    ensures var r := Revert(rows, steps[0]); r.Rows? && Counted(r.rows) == kept + WantOf(steps[0]) + Haves(steps[1..])
  {
    var want := steps[0].before.value;
    var c := Class(want);
    CountIsCounted(rows, want);
    CountIsCounted(before, want);
    assert c in Wants(steps);
    assert Haves(steps)[c] == 0;
    assert Counted(rows)[c] == kept[c] < kept[c] + Wants(steps)[c] == Counted(before)[c];
    KeyNotTaken(rows, before, kept, steps);
    InsertCounted(rows, steps[0].beforeAt, want);
    Swapped(kept, Haves(steps), multiset{c});
  }

  lemma RevertEdited(rows: seq<Item>, before: seq<Item>, kept: multiset<Json>, steps: seq<RowStep>)
    requires steps != [] && Midway(rows, before, kept, steps) && steps[0].Row? && steps[0].before.Some? && steps[0].after.Some?
    ensures var r := Revert(rows, steps[0]); r.Rows? && Counted(r.rows) == kept + WantOf(steps[0]) + Haves(steps[1..])
  {
    var have, want := steps[0].after.value, steps[0].before.value;
    var c := Class(have);
    assert c in Haves(steps) && c in Counted(rows);
    ClassIn(rows, c);
    var i := FindAlike(rows, have, 0);
    assert i < |rows|;
    ReplaceCounted(rows, i, want);
    var now := Counted(rows[i := want]);
    Exchanged(Counted(rows), now, kept, Haves(steps[1..]), c, Class(want));
  }

  lemma Exchanged(was: multiset<Json>, now: multiset<Json>, kept: multiset<Json>, rest: multiset<Json>, have: Json, want: Json)
    requires was == kept + (multiset{have} + rest) && now + multiset{have} == was + multiset{want}
    ensures now == kept + multiset{want} + rest
  {
    Cancel(now, kept + multiset{want} + rest, multiset{have});
  }

  lemma KeysStayApart(steps: seq<RowStep>)
    requires steps != [] && KeysApart(steps)
    ensures KeysApart(steps[1..])
  {
    var rest := steps[1..];
    assert Haves(steps) == HaveOf(steps[0]) + Haves(rest);
    forall i, c | 0 <= i < |rest| && BringsBack(rest[i]) && c in Haves(rest) ensures KeyOf(c) != RowKey(rest[i].before.value) {
      assert rest[i] == steps[i + 1] && c in Haves(steps);
    }
  }

  lemma MidwayAfter(rows: seq<Item>, now: seq<Item>, before: seq<Item>, kept: multiset<Json>, steps: seq<RowStep>)
    requires steps != [] && Midway(rows, before, kept, steps) && Counted(now) == kept + WantOf(steps[0]) + Haves(steps[1..])
    ensures Midway(now, before, kept + WantOf(steps[0]), steps[1..])
  {
    var rest := steps[1..];
    KeysStayApart(steps);
    StillSeparate(steps);
    Regroup(kept, WantOf(steps[0]), Wants(rest));
  }

  lemma StillSeparate(steps: seq<RowStep>)
    requires steps != [] && Separate(steps)
    ensures Separate(steps[1..])
  {
    assert Haves(steps) == HaveOf(steps[0]) + Haves(steps[1..]);
    assert Wants(steps) == WantOf(steps[0]) + Wants(steps[1..]);
    forall c | c in Wants(steps[1..]) ensures c !in Haves(steps[1..]) {
      assert c in Wants(steps);
    }
  }

  lemma Regroup(a: multiset<Json>, b: multiset<Json>, c: multiset<Json>)
    ensures a + (b + c) == a + b + c
  {
  }

  // The next step is not refused, brings back what it wants and takes away what it has.
  lemma RevertOne(rows: seq<Item>, before: seq<Item>, kept: multiset<Json>, steps: seq<RowStep>)
    requires steps != [] && Midway(rows, before, kept, steps)
    ensures var r := Revert(rows, steps[0]); r.Rows? && Counted(r.rows) == kept + WantOf(steps[0]) + Haves(steps[1..])
  {
    var s := steps[0];
    assert kept + multiset{} == kept;
    if s.Order? {
      OrderCounted(rows, s.rowsBefore);
      assert multiset{} + Haves(steps[1..]) == Haves(steps[1..]);
    } else if s.before == None {
      RevertAdded(rows, before, kept, steps);
    } else if s.after == None {
      RevertRemoved(rows, before, kept, steps);
    } else {
      RevertEdited(rows, before, kept, steps);
    }
  }

  lemma {:induction false} RevertingSteps(rows: seq<Item>, before: seq<Item>, kept: multiset<Json>, steps: seq<RowStep>)
    requires Midway(rows, before, kept, steps)
    ensures var r := RevertAll(rows, steps); r.Rows? && Counted(r.rows) == Counted(before)
    decreases |steps|
  {
    if steps == [] {
      assert kept + multiset{} == kept;
    } else {
      RevertOne(rows, before, kept, steps);
      var r := Revert(rows, steps[0]);
      MidwayAfter(rows, r.rows, before, kept, steps);
      RevertingSteps(r.rows, before, kept + WantOf(steps[0]), steps[1..]);
    }
  }

  // ---- Any order ----

  lemma TakeOut(steps: seq<RowStep>, k: nat)
    requires k < |steps|
    ensures var rest := steps[..k] + steps[k + 1..];
            && Wants(steps) == Wants(rest) + WantOf(steps[k]) && Haves(steps) == Haves(rest) + HaveOf(steps[k])
  {
    var x, y := steps[..k], steps[k + 1..];
    assert steps == x + [steps[k]] + y;
    StepsConcat(x, y);
    StepsConcat(x + [steps[k]], y);
    StepsSnoc(x, steps[k]);
    Swapped(Wants(x), WantOf(steps[k]), Wants(y));
    Swapped(Haves(x), HaveOf(steps[k]), Haves(y));
  }

  predicate SameCounts(a: seq<RowStep>, b: seq<RowStep>)
  {
    Wants(a) == Wants(b) && Haves(a) == Haves(b)
  }

  lemma RestsEqual<T>(a: seq<T>, b: seq<T>, k: nat)
    requires a != [] && k < |b| && b[k] == a[0] && multiset(a) == multiset(b)
    ensures multiset(a[1..]) == multiset(b[..k] + b[k + 1..])
  {
    var rest := b[..k] + b[k + 1..];
    assert a == [a[0]] + a[1..] && b == b[..k] + [b[k]] + b[k + 1..];
    assert multiset(a[1..]) == multiset(a) - multiset{a[0]};
    assert multiset(rest) == multiset(b) - multiset{a[0]};
  }

  lemma AnyOrderStep(a: seq<RowStep>, b: seq<RowStep>, k: nat)
    requires a != [] && k < |b| && b[k] == a[0] && SameCounts(a[1..], b[..k] + b[k + 1..])
    ensures SameCounts(a, b)
  {
    var rest := b[..k] + b[k + 1..];
    TakeOut(b, k);
    assert Wants(a) == WantOf(a[0]) + Wants(rest);
    assert Haves(a) == HaveOf(a[0]) + Haves(rest);
  }

  lemma {:induction false} AnyOrderCounts(a: seq<RowStep>, b: seq<RowStep>)
    requires multiset(a) == multiset(b)
    ensures SameCounts(a, b)
    decreases |a|
  {
    assert |multiset(a)| == |a| && |multiset(b)| == |b|;
    if a != [] {
      assert a[0] in multiset(b);
      var k :| 0 <= k < |b| && b[k] == a[0];
      RestsEqual(a, b, k);
      AnyOrderCounts(a[1..], b[..k] + b[k + 1..]);
      AnyOrderStep(a, b, k);
    }
  }

  lemma KeysOfCounted(rows: seq<Item>)
    requires UniqueKeys(rows)
    ensures KeysUnique(Counted(rows))
  {
    var all := Counted(rows);
    forall c, d | c in all && d in all && KeyOf(c).Some? && KeyOf(c) == KeyOf(d) ensures c == d && all[c] == 1 {
      ClassIn(rows, c);
      ClassIn(rows, d);
      var i :| 0 <= i < |rows| && Class(rows[i]) == c;
      var j :| 0 <= j < |rows| && Class(rows[j]) == d;
      assert RowKeys(rows)[i] == RowKeys(rows)[j];
      OnlyOne(rows, i);
    }
  }

  lemma OnlyOne(rows: seq<Item>, i: nat)
    requires UniqueKeys(rows) && i < |rows| && RowKey(rows[i]).Some?
    ensures Counted(rows)[Class(rows[i])] == 1
  {
    var c, rest := Class(rows[i]), rows[..i] + rows[i + 1..];
    RemoveCounted(rows, i);
    ClassIn(rest, c);
    forall j | 0 <= j < |rest| ensures Class(rest[j]) != c {
      var k := if j < i then j else j + 1;
      assert rest[j] == rows[k] && RowKeys(rows)[k] == RowKey(rows[k]) && RowKeys(rows)[i] == RowKey(rows[i]);
    }
  }

  predicate NoNulls(rows: seq<Item>)
  {
    forall i | 0 <= i < |rows| :: rows[i].json != Null
  }

  /** Taking back every step of a list once, in any order, is never refused, and leaves exactly the rows of the before
      list, however often each occurs; given that public keys are distinct in each list. */
  lemma RevertingRows(before: seq<Item>, after: seq<Item>, keys: seq<Keys>, steps: seq<RowStep>)
    requires KeysFor(keys, before, after) && KeyFirst(before, after, keys) && UniqueKeys(before) && UniqueKeys(after) && NoNulls(before)
    requires multiset(steps) == multiset(RowStepsOf(before, after, keys))
    ensures var r := RevertAll(after, steps); r.Rows? && Counted(r.rows) == Counted(before)
  {
    var all, m := RowStepsOf(before, after, keys), MatchOf(before, after, keys);
    AnyOrderCounts(steps, all);
    StepsCount(before, after, keys);
    MatchMeaning(before, after, keys);
    StepsSeparate(before, after, keys);
    AnyOrderFits(before, after, keys, steps);
    KeysOfCounted(before);
    RevertingSteps(after, before, Firsts(m.kept, before), steps);
  }

  lemma AllProper(before: seq<Item>, after: seq<Item>, keys: seq<Keys>, steps: seq<RowStep>)
    requires NoNulls(before) && forall i | 0 <= i < |steps| :: steps[i] in RowStepsOf(before, after, keys)
    ensures forall i | 0 <= i < |steps| :: Proper(steps[i], before)
  {
    forall i | 0 <= i < |steps| ensures Proper(steps[i], before) {
      StepsFit(before, after, keys, steps[i]);
    }
  }

  lemma ApartInAnyOrder(all: seq<RowStep>, steps: seq<RowStep>)
    requires KeysApart(all) && Haves(steps) == Haves(all) && forall i | 0 <= i < |steps| :: steps[i] in all
    ensures KeysApart(steps)
  {
    forall i, c | 0 <= i < |steps| && BringsBack(steps[i]) && c in Haves(steps) ensures KeyOf(c) != RowKey(steps[i].before.value) {
      assert steps[i] in all;
      var j :| 0 <= j < |all| && all[j] == steps[i];
    }
  }

  lemma InAnyOrder(all: seq<RowStep>, steps: seq<RowStep>)
    requires multiset(steps) == multiset(all)
    ensures forall i | 0 <= i < |steps| :: steps[i] in all
  {
    forall i | 0 <= i < |steps| ensures steps[i] in all {
      assert steps[i] in multiset(steps);
    }
  }

  lemma AnyOrderFits(before: seq<Item>, after: seq<Item>, keys: seq<Keys>, steps: seq<RowStep>)
    requires KeyFirst(before, after, keys) && UniqueKeys(before) && UniqueKeys(after) && NoNulls(before)
    requires multiset(steps) == multiset(RowStepsOf(before, after, keys))
    ensures KeysApart(steps) && forall i | 0 <= i < |steps| :: Proper(steps[i], before)
  {
    var all := RowStepsOf(before, after, keys);
    StepsKeysApart(before, after, keys);
    AnyOrderCounts(steps, all);
    InAnyOrder(all, steps);
    AllProper(before, after, keys, steps);
    ApartInAnyOrder(all, steps);
  }

  // ---- No changes ----

  lemma {:induction false} NoneLeft(before: seq<Item>, after: seq<Item>, some: set<nat>, n: nat)
    ensures n <= |before| && RemovedSteps(before, after, some, n) == [] ==> forall b | 0 <= b < n :: b !in some
    ensures n <= |after| && AddedSteps(before, after, some, n) == [] ==> forall a | 0 <= a < n :: a !in some
    ensures (forall b | 0 <= b < n :: b !in some) ==> RemovedSteps(before, after, some, n) == [] && AddedSteps(before, after, some, n) == []
  {
    if n > 0 {
      NoneLeft(before, after, some, n - 1);
    }
  }

  lemma {:induction false} EditedNothing(keys: seq<Keys>)
    ensures EditedPasses(Pairing([], {}, {}), keys) == Pairing([], {}, {})
  {
    if keys != [] {
      EditedNothing(keys[..|keys| - 1]);
      var k := keys[|keys| - 1];
      PassNothing(k.before, k.after, |k.before|);
    }
  }

  lemma {:induction false} PassNothing<K>(before: seq<Option<K>>, after: seq<Option<K>>, n: nat)
    requires n <= |before|
    ensures Pass(Pairing([], {}, {}), before, after, n) == Pairing([], {}, {})
  {
    if n > 0 {
      PassNothing(before, after, n - 1);
    }
  }

  lemma EqualListsChangeNothing(before: seq<Item>, after: seq<Item>, keys: seq<Keys>)
    requires Classes(before) == Classes(after)
    ensures RowStepsOf(before, after, keys) == []
  {
    EqualListsKeepAll(before, after);
    EditedNothing(keys);
    NoneLeft(before, after, {}, |before|);
    NoneLeft(before, after, {}, |after|);
  }

  // With every row kept in order, each row is kept where it is.
  lemma {:induction false} AllKeptInPlace(kept: seq<(nat, nat)>, n: nat, m: nat, i: nat)
    requires |kept| == n == m && InOrder(kept) && i < n
    requires forall k | 0 <= k < n :: kept[k].0 < n && kept[k].1 < m
    requires forall j, k | 0 <= j < k < n :: kept[j].0 < kept[k].0
    ensures kept[i] == (i, i)
  {
    AtLeast(kept, i);
    AtMost(kept, n, i);
  }

  lemma {:induction false} AtLeast(kept: seq<(nat, nat)>, i: nat)
    requires i < |kept| && InOrder(kept) && forall j, k | 0 <= j < k < |kept| :: kept[j].0 < kept[k].0
    ensures kept[i].0 >= i && kept[i].1 >= i
  {
    if i > 0 {
      AtLeast(kept, i - 1);
    }
  }

  lemma {:induction false} AtMost(kept: seq<(nat, nat)>, n: nat, i: nat)
    requires |kept| == n && i < n && InOrder(kept) && forall j, k | 0 <= j < k < n :: kept[j].0 < kept[k].0
    requires forall k | 0 <= k < n :: kept[k].0 < n && kept[k].1 < n
    ensures kept[i].0 <= i && kept[i].1 <= i
    decreases n - i
  {
    if i < n - 1 {
      AtMost(kept, n, i + 1);
    }
  }

  lemma NoStepsAllKept(before: seq<Item>, after: seq<Item>, keys: seq<Keys>)
    requires KeysFor(keys, before, after) && RowStepsOf(before, after, keys) == []
    ensures var kept := KeptPass(before, after).pairs; |kept| == |before| == |after| && InOrder(kept)
  {
    var m := MatchOf(before, after, keys);
    NoneLeft(before, after, m.removed, |before|);
    NoneLeft(before, after, m.added, |after|);
    EditedSize(before, after, m.edited);
    assert m.edited == [];
    KeptMeaning(before, after);
    MatchMeaning(before, after, keys);
    PickNothing(before, m.removed, |before|);
    PickNothing(after, m.added, |after|);
    FirstsSize(m.kept, before);
    Sizes(Classes(before), Firsts(m.kept, before));
    Sizes(Classes(after), Firsts(m.kept, before));
  }

  lemma Sizes(classes: seq<Json>, kept: multiset<Json>)
    requires multiset(classes) == kept + (multiset{} + multiset{})
    ensures |classes| == |kept|
  {
    assert kept + (multiset{} + multiset{}) == kept;
    assert |multiset(classes)| == |classes|;
  }

  lemma KeptAscends(before: seq<Item>, after: seq<Item>)
    ensures var kept := KeptPass(before, after).pairs; forall i, j | 0 <= i < j < |kept| :: kept[i].0 < kept[j].0
  {
    var x, y := Somes(Classes(before)), Somes(Classes(after));
    PairsAscend(Pairing([], Indexes(|before|), Indexes(|after|)), x, y, |before|);
    assert KeptPass(before, after) == Pass(Pairing([], Indexes(|before|), Indexes(|after|)), x, y, |before|);
  }

  lemma NoStepsNoChange(before: seq<Item>, after: seq<Item>, keys: seq<Keys>)
    requires KeysFor(keys, before, after) && RowStepsOf(before, after, keys) == []
    ensures Classes(before) == Classes(after)
  {
    var kept := KeptPass(before, after).pairs;
    NoStepsAllKept(before, after, keys);
    KeptMeaning(before, after);
    KeptAscends(before, after);
    forall i | 0 <= i < |before| ensures Classes(before)[i] == Classes(after)[i] {
      AllKeptInPlace(kept, |before|, |after|, i);
    }
  }

  lemma {:induction false} PickNothing(rows: seq<Item>, some: set<nat>, n: nat)
    requires n <= |rows| && forall i | 0 <= i < n :: i !in some
    ensures Pick(rows, some, n) == multiset{}
  {
    if n > 0 {
      PickNothing(rows, some, n - 1);
    }
  }

  lemma {:induction false} FirstsSize(pairs: seq<(nat, nat)>, before: seq<Item>)
    requires forall i | 0 <= i < |pairs| :: pairs[i].0 < |before|
    ensures |Firsts(pairs, before)| == |pairs|
  {
    if pairs != [] {
      FirstsSize(pairs[..|pairs| - 1], before);
    }
  }

  /** A list has no changes exactly when it is, row by row and in the same order, the same. */
  lemma NoChangesIffEqual(before: seq<Item>, after: seq<Item>, keys: seq<Keys>)
    requires KeysFor(keys, before, after)
    ensures RowStepsOf(before, after, keys) == [] <==> Classes(before) == Classes(after)
  {
    if RowStepsOf(before, after, keys) == [] {
      NoStepsNoChange(before, after, keys);
    } else if Classes(before) == Classes(after) {
      EqualListsChangeNothing(before, after, keys);
    }
  }

  // ---- Reading order ----

  // Removals come first, then edits, then additions, then the order.
  function Place(s: RowStep): nat
  {
    if s.Order? then 3 else if s.after == None then 0 else if s.before.Some? then 1 else 2
  }

  // Removals are in the order of the before list, additions in that of the after list.
  predicate ReadInOrder(steps: seq<RowStep>)
  {
    forall i, j | 0 <= i < j < |steps| ::
      && Place(steps[i]) <= Place(steps[j])
      && (Place(steps[j]) == 0 ==> steps[i].beforeAt < steps[j].beforeAt)
      && (Place(steps[i]) == 2 == Place(steps[j]) ==> steps[i].afterAt < steps[j].afterAt)
  }

  predicate AllAt(steps: seq<RowStep>, place: nat)
  {
    forall i | 0 <= i < |steps| :: Place(steps[i]) == place
  }

  lemma {:induction false} RemovedInOrder(before: seq<Item>, after: seq<Item>, removed: set<nat>, n: nat)
    requires n <= |before|
    ensures var s := RemovedSteps(before, after, removed, n);
            ReadInOrder(s) && AllAt(s, 0) && forall i | 0 <= i < |s| :: s[i].Row? && s[i].beforeAt < n
  {
    if n > 0 { RemovedInOrder(before, after, removed, n - 1); }
  }

  lemma {:induction false} AddedInOrder(before: seq<Item>, after: seq<Item>, added: set<nat>, n: nat)
    requires n <= |after|
    ensures var s := AddedSteps(before, after, added, n);
            ReadInOrder(s) && AllAt(s, 2) && forall i | 0 <= i < |s| :: s[i].Row? && s[i].afterAt < n
  {
    if n > 0 { AddedInOrder(before, after, added, n - 1); }
  }

  lemma {:induction false} EditedInOrder(before: seq<Item>, after: seq<Item>, pairs: seq<(nat, nat)>)
    requires forall i | 0 <= i < |pairs| :: pairs[i].0 < |before| && pairs[i].1 < |after|
    ensures AllAt(EditedSteps(before, after, pairs), 1)
  {
    if pairs != [] {
      var front, last := pairs[..|pairs| - 1], pairs[|pairs| - 1];
      EditedInOrder(before, after, front);
      assert EditedSteps(before, after, pairs) == EditedSteps(before, after, front) + [StepAt(before, after, last.0, last.1)];
    }
  }

  /** A list's changes read in order: removals, edits, additions, and at most one change of order. */
  lemma StepsReadInOrder(before: seq<Item>, after: seq<Item>, keys: seq<Keys>)
    ensures ReadInOrder(RowStepsOf(before, after, keys))
  {
    var m, p := MatchOf(before, after, keys), KeptPass(before, after);
    KeptFreeInRange(before, after);
    EditedWereFree(Pairing([], p.freeBefore, p.freeAfter), keys);
    var a, b := RemovedSteps(before, after, m.removed, |before|), EditedSteps(before, after, m.edited);
    var c, d := AddedSteps(before, after, m.added, |after|), OrderSteps(before, after, m.kept);
    RemovedInOrder(before, after, m.removed, |before|);
    EditedInOrder(before, after, m.edited);
    AddedInOrder(before, after, m.added, |after|);
    PartsInOrder(a, b, 0, 1);
    PartsInOrder(a + b, c, 1, 2);
    PartsInOrder(a + b + c, d, 2, 3);
  }

  lemma PartsInOrder(a: seq<RowStep>, b: seq<RowStep>, below: nat, place: nat)
    requires below < place && ReadInOrder(a) && (forall i | 0 <= i < |a| :: Place(a[i]) <= below)
    requires AllAt(b, place) && (place == 2 ==> ReadInOrder(b)) && (place == 3 ==> |b| <= 1)
    ensures ReadInOrder(a + b) && forall i | 0 <= i < |a + b| :: Place((a + b)[i]) <= place
  {
  }
}

/** Taking every change back, in any order, turns the saved config into the applied one. */
module ConfigRevert {
  import opened Common
  import opened Json
  import opened RowMatch
  import opened RowSteps
  import opened RowChanges
  import opened ConfigChanges

  // ---- Steps by the key they go through ----

  // The steps that go through key k, seen from there.
  function Project(steps: seq<Step>, k: Key): seq<Step>
  {
    if steps == [] then []
    else (if steps[0].path != [] && steps[0].path[0] == k then [Tail(steps[0])] else []) + Project(steps[1..], k)
  }

  function Tail(s: Step): Step
    requires s.path != []
  {
    match s
    case AtRow(path, row) => AtRow(path[1..], row)
    case AtValue(path, before, after) => AtValue(path[1..], before, after)
  }

  predicate AllBelow(steps: seq<Step>)
  {
    forall i | 0 <= i < |steps| :: steps[i].path != []
  }

  lemma {:induction false} ProjectConcat(a: seq<Step>, b: seq<Step>, k: Key)
    ensures Project(a + b, k) == Project(a, k) + Project(b, k)
  {
    if a == [] {
      assert a + b == b;
    } else {
      assert (a + b)[1..] == a[1..] + b && (a + b)[0] == a[0];
      ProjectConcat(a[1..], b, k);
    }
  }

  lemma {:induction false} ProjectDeeper(steps: seq<Step>, k: Key, j: Key)
    ensures Project(AllDeeper(k, steps), j) == if j == k then steps else []
  {
    if steps != [] {
      assert AllDeeper(k, steps)[1..] == AllDeeper(k, steps[1..]);
      ProjectDeeper(steps[1..], k, j);
      var d := Deeper(k, steps[0]);
      assert d.path == [k] + steps[0].path && d.path[1..] == steps[0].path;
      assert Tail(d) == steps[0];
    }
  }

  lemma {:induction false} ProjectAtRows(path: Path, rows: seq<RowStep>, k: Key)
    ensures Project(AtRows(path, rows), k) == if path != [] && path[0] == k then AtRows(path[1..], rows) else []
  {
    if rows != [] {
      assert AtRows(path, rows)[1..] == AtRows(path, rows[1..]);
      ProjectAtRows(path, rows[1..], k);
      if path != [] && path[0] == k {
        assert AtRows(path[1..], rows) == [AtRow(path[1..], rows[0])] + AtRows(path[1..], rows[1..]);
      }
    }
  }

  lemma ProjectTakeOut(steps: seq<Step>, i: nat, k: Key)
    requires i < |steps|
    ensures var s, rest := steps[i], steps[..i] + steps[i + 1..];
            multiset(Project(steps, k)) == multiset(Project(rest, k)) + multiset(Project([s], k))
  {
    var x, y, s := steps[..i], steps[i + 1..], steps[i];
    assert steps == x + [s] + y;
    ProjectConcat(x + [s], y, k);
    ProjectConcat(x, [s], k);
    ProjectConcat(x, y, k);
  }

  lemma {:induction false} ProjectAnyOrder(a: seq<Step>, b: seq<Step>, k: Key)
    requires multiset(a) == multiset(b)
    ensures multiset(Project(a, k)) == multiset(Project(b, k))
    decreases |a|
  {
    assert |multiset(a)| == |a| && |multiset(b)| == |b|;
    if a != [] {
      assert a[0] in multiset(b);
      var i :| 0 <= i < |b| && b[i] == a[0];
      RestsEqual(a, b, i);
      ProjectAnyOrder(a[1..], b[..i] + b[i + 1..], k);
      ProjectTakeOut(a, 0, k);
      ProjectTakeOut(b, i, k);
      assert a[..0] + a[1..] == a[1..];
    }
  }

  // ---- The changes, key by key ----

  lemma {:induction false} ProjectSettings(before: Option<Json>, after: Option<Json>, lists: seq<RowList>, keys: set<Key>, k: Key)
    requires Descends(before, after)
    ensures Project(SettingsUnder(before, after, lists, keys), k) ==
            if k in keys then Settings(Child(before, k), Child(after, k), Under(lists, k)) else []
    decreases keys
  {
    if keys != {} {
      var j := AnyOf(keys);
      var first, rest := Settings(Child(before, j), Child(after, j), Under(lists, j)), SettingsUnder(before, after, lists, keys - {j});
      ProjectSettings(before, after, lists, keys - {j}, k);
      ProjectDeeper(first, j, k);
      ProjectConcat(AllDeeper(j, first), rest, k);
      assert first + [] == first;
    }
  }

  lemma {:induction false} SettingsBelow(before: Option<Json>, after: Option<Json>, lists: seq<RowList>, keys: set<Key>)
    requires Descends(before, after)
    ensures AllBelow(SettingsUnder(before, after, lists, keys))
    decreases keys
  {
    if keys != {} {
      SettingsBelow(before, after, lists, keys - {AnyOf(keys)});
    }
  }

  lemma {:induction false} ProjectLists(before: Option<Json>, after: Option<Json>, lists: seq<RowList>, k: Key)
    requires !HasRoot(lists)
    ensures Project(ListSteps(before, after, lists), k) == ListSteps(Child(before, k), Child(after, k), Under(lists, k))
    ensures AllBelow(ListSteps(before, after, lists))
  {
    if lists != [] {
      var rest, last := lists[..|lists| - 1], lists[|lists| - 1];
      assert last.path != [];
      assert !HasRoot(rest) by {
        forall i | 0 <= i < |rest| ensures rest[i].path != [] {
          assert rest[i] == lists[i];
        }
      }
      ProjectLists(before, after, rest, k);
      var rows := RowStepsOf(RowsOf(GetAt(before, last.path)), RowsOf(GetAt(after, last.path)), last.keys);
      ProjectConcat(ListSteps(before, after, rest), AtRows(last.path, rows), k);
      ProjectAtRows(last.path, rows, k);
      UnderLast(before, after, lists, k);
    }
  }

  lemma UnderLast(before: Option<Json>, after: Option<Json>, lists: seq<RowList>, k: Key)
    requires lists != [] && lists[|lists| - 1].path != []
    ensures var rest, last := lists[..|lists| - 1], lists[|lists| - 1];
            ListSteps(Child(before, k), Child(after, k), Under(lists, k)) ==
            ListSteps(Child(before, k), Child(after, k), Under(rest, k)) +
            if last.path[0] == k
            then AtRows(last.path[1..], RowStepsOf(RowsOf(GetAt(before, last.path)), RowsOf(GetAt(after, last.path)), last.keys)) else []
  {
    var rest, last := lists[..|lists| - 1], lists[|lists| - 1];
    if last.path[0] == k {
      var u := Under(lists, k);
      assert u[..|u| - 1] == Under(rest, k);
    } else {
      assert Under(lists, k) == Under(rest, k);
    }
  }

  // What is not an object has nothing below it.
  lemma SettingsOfNothing(lists: seq<RowList>)
    ensures Settings(None, None, lists) == []
  {
  }

  /** Below an object the changes are, key by key, the changes of what is under the key. */
  lemma ProjectChanges(before: Option<Json>, after: Option<Json>, lists: seq<RowList>, k: Key)
    requires !HasRoot(lists) && Descends(before, after)
    ensures Project(Changes(before, after, lists), k) == Changes(Child(before, k), Child(after, k), Under(lists, k))
    ensures AllBelow(Changes(before, after, lists))
  {
    ProjectLists(before, after, lists, k);
    ProjectConcat(ListSteps(before, after, lists), Settings(before, after, lists), k);
    if Same(before, after) {
      SameChildren(before, after, k);
      assert Settings(Child(before, k), Child(after, k), Under(lists, k)) == [];
    } else {
      ProjectSettings(before, after, lists, KeySet(before) + KeySet(after), k);
      SettingsBelow(before, after, lists, KeySet(before) + KeySet(after));
      if k !in KeySet(before) + KeySet(after) {
        SettingsOfNothing(Under(lists, k));
      }
    }
  }

  // ---- Setting one value ----

  lemma SetChild(v: Option<Json>, path: Path, value: Option<Json>)
    requires path != [] && Parentable(v)
    ensures var r := SetAt(v, path, value);
            && Parentable(r)
            && Child(r, path[0]) == SetAt(Child(v, path[0]), path[1..], value)
            && forall j | j != path[0] :: Child(r, j) == Child(v, j)
  {
  }

  // A step works on the key it goes through as its tail does on what is under that key.
  lemma StepDown(d: Option<Json>, s: Step)
    requires s.path != [] && Parentable(d) && RevertStep(Child(d, s.path[0]), Tail(s)).Draft?
    ensures var r := RevertStep(d, s);
            && r.Draft? && Parentable(r.value)
            && Child(r.value, s.path[0]) == RevertStep(Child(d, s.path[0]), Tail(s)).value
            && forall j | j != s.path[0] :: Child(r.value, j) == Child(d, j)
  {
    var k, path, c := s.path[0], s.path, Child(d, s.path[0]);
    match s {
      case AtValue(_, before, _) => SetChild(d, path, before);
      case AtRow(_, row) =>
        var cur := GetAt(d, path);
        assert cur == GetAt(c, path[1..]);
        if row.Order? {
          if cur.Some? && cur.value.Arr? {
            SetChild(d, path, Some(Arr(Values(SetRowOrder(RowsOf(cur), row.rowsBefore)))));
          }
        } else {
          var r := Revert(RowsOf(cur), row);
          SetChild(d, path, Some(Arr(Values(r.rows))));
        }
    }
  }

  /** A run of steps below an object works on each key as the steps through that key do, in their order. */
  lemma {:induction false} SplitRun(d: Option<Json>, steps: seq<Step>)
    requires Parentable(d) && AllBelow(steps)
    requires forall k :: RevertSteps(Child(d, k), Project(steps, k)).Draft?
    ensures var r := RevertSteps(d, steps);
            && r.Draft? && (steps == [] || Parentable(r.value))
            && forall k :: Child(r.value, k) == RevertSteps(Child(d, k), Project(steps, k)).value
    decreases |steps|
  {
    if steps == [] {
      assert forall k :: Project(steps, k) == [];
    } else {
      var s, rest := steps[0], steps[1..];
      var k0 := s.path[0];
      assert Project(steps, k0) == [Tail(s)] + Project(rest, k0) && Project(steps, k0)[1..] == Project(rest, k0);
      assert RevertSteps(Child(d, k0), Project(steps, k0)).Draft?;
      assert RevertStep(Child(d, k0), Tail(s)).Draft?;
      StepDown(d, s);
      var d1 := RevertStep(d, s).value;
      assert AllBelow(rest) by {
        assert forall i | 0 <= i < |rest| :: rest[i] == steps[i + 1];
      }
      forall k ensures RevertSteps(Child(d1, k), Project(rest, k)) == RevertSteps(Child(d, k), Project(steps, k)) {
        if k != k0 {
          assert Project(steps, k) == [] + Project(rest, k) == Project(rest, k);
        }
      }
      assert forall k :: RevertSteps(Child(d1, k), Project(rest, k)).Draft? by {
        forall k ensures RevertSteps(Child(d1, k), Project(rest, k)).Draft? {
          assert RevertSteps(Child(d, k), Project(steps, k)).Draft?;
        }
      }
      SplitRun(d1, rest);
    }
  }

  // ---- One list ----

  // Items made of values are what their values make.
  predicate Consistent(rows: seq<Item>)
  {
    forall i | 0 <= i < |rows| :: rows[i].form == Canon(Some(rows[i].json))
  }

  lemma ItemsOfValues(rows: seq<Item>)
    requires Consistent(rows)
    ensures Items(Values(rows)) == rows
  {
  }

  // Rows out of a pool.
  predicate From(rows: seq<Item>, pool: set<Item>)
  {
    forall i | 0 <= i < |rows| :: rows[i] in pool
  }

  predicate StepFrom(s: RowStep, pool: set<Item>)
  {
    match s
    case Row(before, _, _, _, _, _) => before.Some? ==> before.value in pool
    case Order(rowsBefore, _) => From(rowsBefore, pool)
  }

  lemma {:induction false} PlacedFrom(rows: seq<Item>, slots: set<nat>, order: seq<Item>, n: nat, pool: set<Item>)
    requires n <= |rows| && From(rows, pool) && From(order, pool)
    ensures From(Placed(rows, slots, order, n), pool)
  {
    if n > 0 {
      PlacedFrom(rows, slots, order, n - 1, pool);
    }
  }

  lemma {:induction false} ClaimsFrom(rows: seq<Item>, wanted: seq<Item>, pool: set<Item>)
    requires From(wanted, pool)
    ensures From(ClaimAll(rows, wanted).rows, pool)
  {
    if wanted != [] {
      ClaimsFrom(rows, wanted[..|wanted| - 1], pool);
    }
  }

  // A revert makes no rows of its own.
  lemma RevertFrom(rows: seq<Item>, s: RowStep, pool: set<Item>)
    requires From(rows, pool) && StepFrom(s, pool)
    ensures Revert(rows, s).Rows? ==> From(Revert(rows, s).rows, pool)
  {
    if s.Order? {
      ClaimsFrom(rows, s.rowsBefore, pool);
      var c := ClaimAll(rows, s.rowsBefore);
      PlacedFrom(rows, Members(c.slots), c.rows, |rows|, pool);
    }
  }

  predicate Sound(pool: set<Item>)
  {
    forall x | x in pool :: x.form == Canon(Some(x.json))
  }

  // Steps at the place itself work on the rows there.
  lemma {:induction false} RowsRun(d: Option<Json>, rows: seq<RowStep>, pool: set<Item>)
    requires Sound(pool) && From(RowsOf(d), pool) && forall i | 0 <= i < |rows| :: StepFrom(rows[i], pool)
    requires RevertAll(RowsOf(d), rows).Rows?
    ensures var r := RevertSteps(d, AtRows([], rows));
            && r.Draft? && RowsOf(r.value) == RevertAll(RowsOf(d), rows).rows && From(RowsOf(r.value), pool)
            && (r.value == d || (r.value.Some? && r.value.value.Arr?))
    decreases |rows|
  {
    if rows != [] {
      assert AtRows([], rows)[0] == AtRow([], rows[0]) && AtRows([], rows)[1..] == AtRows([], rows[1..]);
      OneRowRun(d, rows[0], pool);
      RowsRun(RevertStep(d, AtRow([], rows[0])).value, rows[1..], pool);
    }
  }

  // Rows written back are the rows read.
  lemma WrittenBack(rows: seq<Item>, pool: set<Item>)
    requires Sound(pool) && From(rows, pool)
    ensures RowsOf(Some(Arr(Values(rows)))) == rows
  {
    ItemsOfValues(rows);
  }

  lemma OneOrderRun(d: Option<Json>, s: RowStep, pool: set<Item>)
    requires s.Order? && Sound(pool) && From(RowsOf(d), pool) && StepFrom(s, pool)
    ensures var r := RevertStep(d, AtRow([], s));
            && r.Draft? && RowsOf(r.value) == SetRowOrder(RowsOf(d), s.rowsBefore) && From(RowsOf(r.value), pool)
            && (r.value == d || (r.value.Some? && r.value.value.Arr?))
  {
    RevertFrom(RowsOf(d), s, pool);
    if d.Some? && d.value.Arr? {
      WrittenBack(SetRowOrder(RowsOf(d), s.rowsBefore), pool);
    } else {
      assert |SetRowOrder(RowsOf(d), s.rowsBefore)| == 0;
    }
  }

  lemma OneRowRun(d: Option<Json>, s: RowStep, pool: set<Item>)
    requires Sound(pool) && From(RowsOf(d), pool) && StepFrom(s, pool) && Revert(RowsOf(d), s).Rows?
    ensures var r := RevertStep(d, AtRow([], s));
            && r.Draft? && RowsOf(r.value) == Revert(RowsOf(d), s).rows && From(RowsOf(r.value), pool)
            && (r.value == d || (r.value.Some? && r.value.value.Arr?))
  {
    if s.Order? {
      OneOrderRun(d, s, pool);
    } else {
      RevertFrom(RowsOf(d), s, pool);
      WrittenBack(Revert(RowsOf(d), s).rows, pool);
    }
  }

  lemma {:induction false} FirstRowsFrom(kept: seq<(nat, nat)>, before: seq<Item>, pool: set<Item>)
    requires From(before, pool)
    ensures From(FirstRows(kept, before), pool)
  {
    if kept != [] {
      FirstRowsFrom(kept[..|kept| - 1], before, pool);
    }
  }

  lemma StepsFrom(before: seq<Item>, after: seq<Item>, keys: seq<Keys>, s: RowStep, pool: set<Item>)
    requires From(before, pool) && s in RowStepsOf(before, after, keys)
    ensures StepFrom(s, pool)
  {
    var m := MatchOf(before, after, keys);
    StepsFit(before, after, keys, s);
    FirstRowsFrom(m.kept, before, pool);
    if s.Order? {
      OnlyOrder(before, after, keys, s);
    }
  }

  lemma OnlyOrder(before: seq<Item>, after: seq<Item>, keys: seq<Keys>, s: RowStep)
    requires s.Order? && s in RowStepsOf(before, after, keys)
    ensures s == Order(FirstRows(MatchOf(before, after, keys).kept, before), SecondRows(MatchOf(before, after, keys).kept, after, |after|))
  {
    var m := MatchOf(before, after, keys);
    var a, b, c := RemovedSteps(before, after, m.removed, |before|), EditedSteps(before, after, m.edited), AddedSteps(before, after, m.added, |after|);
    forall i | 0 <= i < |a| ensures a[i].Row? {
      RemovedAt(before, after, m.removed, |before|, i);
    }
    EditedSize(before, after, m.edited);
    forall i | 0 <= i < |b| ensures b[i].Row? {
      EditedAt(before, after, m.edited, i);
    }
    forall i | 0 <= i < |c| ensures c[i].Row? {
      AddedAt(before, after, m.added, |after|, i);
    }
  }

  function RowsIn(steps: seq<Step>): (r: seq<RowStep>)
    requires forall i | 0 <= i < |steps| :: steps[i].AtRow?
    ensures |r| == |steps| && forall i | 0 <= i < |steps| :: r[i] == steps[i].row
  {
    seq(|steps|, i requires 0 <= i < |steps| => steps[i].row)
  }

  lemma WithoutRow(path: Path, rows: seq<RowStep>, i: nat)
    requires i < |rows|
    ensures var all := AtRows(path, rows); all[..i] + all[i + 1..] == AtRows(path, rows[..i] + rows[i + 1..])
  {
  }

  lemma OneBack(some: seq<RowStep>, rows: seq<RowStep>, i: nat)
    requires i < |rows| && multiset(some) == multiset(rows[..i] + rows[i + 1..])
    ensures multiset([rows[i]] + some) == multiset(rows)
  {
    assert rows == rows[..i] + [rows[i]] + rows[i + 1..];
  }

  lemma {:induction false} SameRows(steps: seq<Step>, path: Path, rows: seq<RowStep>)
    requires multiset(steps) == multiset(AtRows(path, rows))
    ensures (forall i | 0 <= i < |steps| :: steps[i].AtRow?) && steps == AtRows(path, RowsIn(steps)) && multiset(RowsIn(steps)) == multiset(rows)
    decreases |steps|
  {
    if steps == [] {
      assert |multiset(steps)| == 0 && |multiset(AtRows(path, rows))| == |AtRows(path, rows)|;
    } else {
      var i := FirstRow(steps, path, rows);
      SameRows(steps[1..], path, rows[..i] + rows[i + 1..]);
      assert steps[0] == AtRow(path, rows[i]) && RowsIn(steps) == [rows[i]] + RowsIn(steps[1..]);
      OneBack(RowsIn(steps[1..]), rows, i);
    }
  }

  // Which row the first step is of; the other steps are of the other rows.
  lemma FirstRow(steps: seq<Step>, path: Path, rows: seq<RowStep>) returns (i: nat)
    requires steps != [] && multiset(steps) == multiset(AtRows(path, rows))
    ensures i < |rows| && steps[0] == AtRow(path, rows[i]) && multiset(steps[1..]) == multiset(AtRows(path, rows[..i] + rows[i + 1..]))
  {
    var all := AtRows(path, rows);
    assert steps[0] in multiset(all);
    i :| 0 <= i < |all| && all[i] == steps[0];
    RestsEqual(steps, all, i);
    WithoutRow(path, rows, i);
  }

  function PoolOf(before: Option<Json>, after: Option<Json>): set<Item>
  {
    (set x | x in RowsOf(before)) + (set x | x in RowsOf(after))
  }

  /** Taking back all steps of the list at this very place, in any order. */
  lemma ListReverts(before: Option<Json>, after: Option<Json>, keys: seq<Keys>, steps: seq<Step>)
    requires ListFits(RowsOf(before), RowsOf(after), keys)
    requires multiset(steps) == multiset(AtRows([], RowStepsOf(RowsOf(before), RowsOf(after), keys)))
    ensures var r := RevertSteps(after, steps);
            && r.Draft? && Counted(RowsOf(r.value)) == Counted(RowsOf(before)) && From(RowsOf(r.value), PoolOf(before, after))
            && (r.value == after || (r.value.Some? && r.value.value.Arr?))
  {
    var all, pool := RowStepsOf(RowsOf(before), RowsOf(after), keys), PoolOf(before, after);
    SameRows(steps, [], all);
    var rows := RowsIn(steps);
    RevertingRows(RowsOf(before), RowsOf(after), keys, rows);
    InAnyOrder(all, rows);
    PoolHolds(before, after);
    AllStepsFrom(RowsOf(before), RowsOf(after), keys, rows, pool);
    RowsRun(after, rows, pool);
  }

  lemma PoolHolds(before: Option<Json>, after: Option<Json>)
    ensures Sound(PoolOf(before, after)) && From(RowsOf(before), PoolOf(before, after)) && From(RowsOf(after), PoolOf(before, after))
  {
  }

  lemma AllStepsFrom(before: seq<Item>, after: seq<Item>, keys: seq<Keys>, rows: seq<RowStep>, pool: set<Item>)
    requires From(before, pool) && forall i | 0 <= i < |rows| :: rows[i] in RowStepsOf(before, after, keys)
    ensures forall i | 0 <= i < |rows| :: StepFrom(rows[i], pool)
  {
    forall i | 0 <= i < |rows| ensures StepFrom(rows[i], pool) {
      StepsFrom(before, after, keys, rows[i], pool);
    }
  }

  // ---- Nothing changed ----

  lemma AtRowsEmpty(path: Path, rows: seq<RowStep>)
    ensures AtRows(path, rows) == [] <==> rows == []
  {
    assert |AtRows(path, rows)| == |rows|;
  }

  lemma {:induction false} ListStepsOfNothing(lists: seq<RowList>, before: Option<Json>, after: Option<Json>)
    requires Empty(before) && Empty(after)
    ensures ListSteps(before, after, lists) == []
  {
    if lists != [] {
      var last := lists[|lists| - 1];
      ListStepsOfNothing(lists[..|lists| - 1], before, after);
      NothingAt(before, last.path);
      NothingAt(after, last.path);
      EqualListsChangeNothing([], [], last.keys);
    }
  }

  lemma {:induction false} NothingAt(v: Option<Json>, path: Path)
    requires Empty(v)
    ensures RowsOf(GetAt(v, path)) == []
    decreases |path|
  {
    if path != [] {
      NothingAt(Child(v, path[0]), path[1..]);
    }
  }

  lemma RootList(before: Option<Json>, after: Option<Json>, lists: seq<RowList>)
    requires HasRoot(lists) && |lists| == 1
    ensures Changes(before, after, lists) == AtRows([], RowStepsOf(RowsOf(before), RowsOf(after), lists[0].keys))
  {
    assert Settings(before, after, lists) == [];
    OneList(before, after, lists[0]);
    assert lists == [lists[0]];
  }

  lemma OneList(before: Option<Json>, after: Option<Json>, list: RowList)
    requires list.path == []
    ensures ListSteps(before, after, [list]) == AtRows([], RowStepsOf(RowsOf(before), RowsOf(after), list.keys))
  {
    assert [list][..0] == [] && GetAt(before, []) == before && GetAt(after, []) == after;
    assert ListSteps(before, after, []) == [];
  }

  lemma NoLists(before: Option<Json>, after: Option<Json>)
    ensures Changes(before, after, []) == Settings(before, after, [])
  {
    assert ListSteps(before, after, []) == [];
  }

  // Something goes through a key when there are changes below an object.
  lemma ChangesGoSomewhere(steps: seq<Step>)
    requires AllBelow(steps) && steps != []
    ensures exists k :: Project(steps, k) != []
  {
    assert Project(steps, steps[0].path[0]) != [];
  }

  lemma ListCanon(v: Option<Json>)
    requires ScalarList(v)
    ensures Canon(v).Arr? <==> RowsOf(v) != []
    ensures Canon(v).Arr? ==> |Canon(v).items| == |RowsOf(v)| && forall i | 0 <= i < |RowsOf(v)| :: Canon(v).items[i] == Strip(v.value.items[i])
  {
  }

  lemma SameListsSame(a: Option<Json>, b: Option<Json>)
    requires ScalarList(a) && ScalarList(b) && Same(a, b)
    ensures Classes(RowsOf(a)) == Classes(RowsOf(b))
  {
    ListCanon(a);
    ListCanon(b);
    if Canon(a).Arr? {
      forall i | 0 <= i < |RowsOf(a)| ensures Class(RowsOf(a)[i]) == Class(RowsOf(b)[i]) {
        assert Strip(a.value.items[i]) == Strip(b.value.items[i]);
      }
    }
  }

  ghost predicate NoneIffAlike(before: Option<Json>, after: Option<Json>, lists: seq<RowList>)
  {
    Changes(before, after, lists) == [] <==> Alike(after, before, lists, true)
  }

  lemma RootNoChanges(before: Option<Json>, after: Option<Json>, lists: seq<RowList>)
    requires HasRoot(lists) && Fits(before, after, lists)
    ensures NoneIffAlike(before, after, lists)
  {
    RootList(before, after, lists);
    NoChangesIffEqual(RowsOf(before), RowsOf(after), lists[0].keys);
    AtRowsEmpty([], RowStepsOf(RowsOf(before), RowsOf(after), lists[0].keys));
  }

  lemma AlikeBelow(a: Option<Json>, b: Option<Json>, lists: seq<RowList>)
    requires !HasRoot(lists) && Descends(a, b)
    ensures Alike(a, b, lists, true) <==> forall k :: Alike(Child(a, k), Child(b, k), Under(lists, k), true)
  {
  }

  lemma ObjectNoChanges(before: Option<Json>, after: Option<Json>, lists: seq<RowList>)
    requires !HasRoot(lists) && Descends(before, after)
    requires forall k :: NoneIffAlike(Child(before, k), Child(after, k), Under(lists, k))
    ensures NoneIffAlike(before, after, lists)
  {
    NoChangesBelow(before, after, lists);
    AlikeBelow(after, before, lists);
    if forall k :: Changes(Child(before, k), Child(after, k), Under(lists, k)) == [] {
      forall k ensures Alike(Child(after, k), Child(before, k), Under(lists, k), true) {
        assert NoneIffAlike(Child(before, k), Child(after, k), Under(lists, k));
      }
    } else {
      var k :| Changes(Child(before, k), Child(after, k), Under(lists, k)) != [];
      assert NoneIffAlike(Child(before, k), Child(after, k), Under(lists, k));
    }
  }

  lemma EmptyNoChanges(before: Option<Json>, after: Option<Json>, lists: seq<RowList>)
    requires !HasRoot(lists) && !Descends(before, after) && Empty(before) && Empty(after)
    ensures NoneIffAlike(before, after, lists)
  {
    EmptyNoSteps(before, after, lists);
    EmptyAlike(after, before, lists);
  }

  lemma EmptyAlike(a: Option<Json>, b: Option<Json>, lists: seq<RowList>)
    requires !HasRoot(lists) && !Descends(a, b) && Empty(a) && Empty(b)
    ensures Alike(a, b, lists, true)
  {
    assert RowsOf(a) == [] && RowsOf(b) == [];
  }

  lemma EmptyNoSteps(before: Option<Json>, after: Option<Json>, lists: seq<RowList>)
    requires Empty(before) && Empty(after)
    ensures Changes(before, after, lists) == []
  {
    ListStepsOfNothing(lists, before, after);
    EmptyIsNull(before);
    EmptyIsNull(after);
    assert Settings(before, after, lists) == [];
  }

  /** There are no changes exactly when the configs are alike, row order included. */
  lemma {:induction false} NoChangesIffAlike(before: Option<Json>, after: Option<Json>, lists: seq<RowList>)
    requires Fits(before, after, lists)
    ensures Changes(before, after, lists) == [] <==> Alike(after, before, lists, true)
    decreases IsObject(before), Fields(before), IsObject(after), Fields(after)
  {
    if HasRoot(lists) {
      RootNoChanges(before, after, lists);
    } else if Descends(before, after) {
      forall k ensures NoneIffAlike(Child(before, k), Child(after, k), Under(lists, k)) {
        assert Fits(Child(before, k), Child(after, k), Under(lists, k));
        NoChangesIffAlike(Child(before, k), Child(after, k), Under(lists, k));
      }
      ObjectNoChanges(before, after, lists);
    } else if Empty(before) && Empty(after) {
      EmptyNoChanges(before, after, lists);
    } else {
      LeafNoChanges(before, after);
    }
  }

  lemma NoChangesBelow(before: Option<Json>, after: Option<Json>, lists: seq<RowList>)
    requires !HasRoot(lists) && Descends(before, after)
    ensures Changes(before, after, lists) == [] <==> forall k :: Changes(Child(before, k), Child(after, k), Under(lists, k)) == []
  {
    var all := Changes(before, after, lists);
    forall k ensures Project(all, k) == Changes(Child(before, k), Child(after, k), Under(lists, k)) && AllBelow(all) {
      ProjectChanges(before, after, lists, k);
    }
    ProjectChanges(before, after, lists, "");
    if all != [] {
      ChangesGoSomewhere(all);
      var k :| Project(all, k) != [];
      assert Changes(Child(before, k), Child(after, k), Under(lists, k)) != [];
    } else {
      forall k ensures Changes(Child(before, k), Child(after, k), Under(lists, k)) == [] {
        assert Project(all, k) == [];
      }
    }
  }

  lemma LeafNoChanges(before: Option<Json>, after: Option<Json>)
    requires !Descends(before, after)
    ensures Changes(before, after, []) == [] <==> Alike(after, before, [], true)
  {
    NoLists(before, after);
    if ScalarList(before) && ScalarList(after) {
      ScalarsNoChanges(before, after);
    }
  }

  lemma ScalarsNoChanges(before: Option<Json>, after: Option<Json>)
    requires ScalarList(before) && ScalarList(after)
    ensures Classes(RowsOf(after)) == Classes(RowsOf(before)) <==> Same(before, after) || AtRows([], RowStepsOf(RowsOf(before), RowsOf(after), [])) == []
  {
    NoChangesIffEqual(RowsOf(before), RowsOf(after), []);
    AtRowsEmpty([], RowStepsOf(RowsOf(before), RowsOf(after), []));
    if Same(before, after) {
      SameListsSame(before, after);
    }
  }

  lemma {:induction false} OrderAside(a: Option<Json>, b: Option<Json>, lists: seq<RowList>)
    requires Alike(a, b, lists, true)
    ensures Alike(a, b, lists, false)
    decreases IsObject(a), Fields(a), IsObject(b), Fields(b)
  {
    if !HasRoot(lists) && Descends(a, b) {
      forall k ensures Alike(Child(a, k), Child(b, k), Under(lists, k), false) {
        OrderAside(Child(a, k), Child(b, k), Under(lists, k));
      }
    }
  }

  // ---- The theorem ----

  lemma ScalarsFit(before: Option<Json>, after: Option<Json>)
    requires ScalarList(before) && ScalarList(after) && NoNulls(RowsOf(before))
    ensures ListFits(RowsOf(before), RowsOf(after), [])
  {
    ScalarsHaveNoKeys(before);
    ScalarsHaveNoKeys(after);
  }

  lemma ScalarsHaveNoKeys(v: Option<Json>)
    requires ScalarList(v)
    ensures UniqueKeys(RowsOf(v)) && forall i | 0 <= i < |RowsOf(v)| :: RowKey(RowsOf(v)[i]) == None
  {
    var rows := RowsOf(v);
    forall i | 0 <= i < |rows| ensures RowKey(rows[i]) == None {
      assert Scalar(rows[i].json);
      KeyOfCanon(rows[i].json);
    }
  }

  lemma LeafReverts(before: Option<Json>, after: Option<Json>, steps: seq<Step>)
    requires !Descends(before, after) && (ScalarList(before) && ScalarList(after) ==> NoNulls(RowsOf(before)))
    requires multiset(steps) == multiset(Changes(before, after, [])) && steps != []
    ensures var r := RevertSteps(after, steps); r.Draft? && Alike(r.value, before, [], false)
  {
    NoLists(before, after);
    assert |multiset(steps)| == |steps| && |multiset(Settings(before, after, []))| == |Settings(before, after, [])|;
    if ScalarList(before) && ScalarList(after) {
      ScalarsFit(before, after);
      ListReverts(before, after, [], steps);
      ScalarsStay(before, after, RevertSteps(after, steps).value);
      ScalarListsAlike(RevertSteps(after, steps).value, before);
    } else {
      var s := AtValue([], before, after);
      assert steps[0] in multiset(steps);
      assert steps == [s] && steps[1..] == [];
      AlikeItself(before, []);
    }
  }

  // What the steps of a scalar list leave is a scalar list.
  lemma ScalarsStay(before: Option<Json>, after: Option<Json>, now: Option<Json>)
    requires ScalarList(before) && ScalarList(after) && From(RowsOf(now), PoolOf(before, after))
    requires now == after || (now.Some? && now.value.Arr?)
    ensures ScalarList(now)
  {
    if now.Some? && now.value.Arr? {
      forall i | 0 <= i < |now.value.items| ensures Scalar(now.value.items[i]) {
        assert RowsOf(now)[i].json == now.value.items[i] && RowsOf(now)[i] in PoolOf(before, after);
      }
    }
  }

  lemma ScalarListsAlike(a: Option<Json>, b: Option<Json>)
    requires ScalarList(a) && ScalarList(b) && Counted(RowsOf(a)) == Counted(RowsOf(b))
    ensures Alike(a, b, [], false)
  {
    if Descends(a, b) {
      assert Empty(a) && Empty(b);
      assert forall k :: Child(a, k) == None && Child(b, k) == None;
    }
  }

  lemma {:induction false} AlikeItself(v: Option<Json>, lists: seq<RowList>)
    ensures Alike(v, v, lists, false)
    decreases IsObject(v), Fields(v)
  {
    if !HasRoot(lists) && Descends(v, v) {
      forall k ensures Alike(Child(v, k), Child(v, k), Under(lists, k), false) {
        AlikeItself(Child(v, k), Under(lists, k));
      }
    }
  }

  // Taking the steps back gives the settings of before and, in every list, its rows, each as often.
  ghost predicate Restores(before: Option<Json>, after: Option<Json>, lists: seq<RowList>, steps: seq<Step>)
  {
    var r := RevertSteps(after, steps);
    r.Draft? && Alike(r.value, before, lists, false)
  }

  /** Taking every listed change back, each once and in any order, is never declined, and turns the saved config into one
      with the applied config's settings and, in every list, its rows, each as often. */
  lemma {:induction false} RevertingAllChanges(before: Option<Json>, after: Option<Json>, lists: seq<RowList>, steps: seq<Step>)
    requires Fits(before, after, lists) && Reachable(before, after, lists) && multiset(steps) == multiset(Changes(before, after, lists))
    ensures Restores(before, after, lists, steps)
    decreases IsObject(before), Fields(before), IsObject(after), Fields(after), 1
  {
    SameLength(steps, Changes(before, after, lists));
    if steps == [] {
      NothingToRevert(before, after, lists);
    } else if HasRoot(lists) {
      RootReverts(before, after, lists, steps);
    } else if Descends(before, after) {
      ChildrenRevert(before, after, lists, steps);
      ObjectReverts(before, after, lists, steps);
    } else if Empty(before) && Empty(after) {
      EmptyNoSteps(before, after, lists);
    } else {
      LeafReverts(before, after, steps);
    }
  }

  lemma {:induction false} ChildrenRevert(before: Option<Json>, after: Option<Json>, lists: seq<RowList>, steps: seq<Step>)
    requires !HasRoot(lists) && Descends(before, after) && Fits(before, after, lists) && Reachable(before, after, lists)
    requires multiset(steps) == multiset(Changes(before, after, lists))
    ensures forall k :: Restores(Child(before, k), Child(after, k), Under(lists, k), Project(steps, k))
    decreases IsObject(before), Fields(before), IsObject(after), Fields(after), 0
  {
    forall k ensures Restores(Child(before, k), Child(after, k), Under(lists, k), Project(steps, k)) {
      ChildFits(before, after, lists, k);
      ProjectListed(before, after, lists, steps, k);
      RevertingAllChanges(Child(before, k), Child(after, k), Under(lists, k), Project(steps, k));
    }
  }

  lemma SameLength<T>(a: seq<T>, b: seq<T>)
    requires multiset(a) == multiset(b)
    ensures |a| == |b|
  {
    assert |multiset(a)| == |a| && |multiset(b)| == |b|;
  }

  lemma NothingToRevert(before: Option<Json>, after: Option<Json>, lists: seq<RowList>)
    requires Fits(before, after, lists) && Changes(before, after, lists) == []
    ensures Restores(before, after, lists, [])
  {
    NoChangesIffAlike(before, after, lists);
    OrderAside(after, before, lists);
  }

  lemma RootReverts(before: Option<Json>, after: Option<Json>, lists: seq<RowList>, steps: seq<Step>)
    requires HasRoot(lists) && Fits(before, after, lists) && multiset(steps) == multiset(Changes(before, after, lists))
    ensures Restores(before, after, lists, steps)
  {
    RootList(before, after, lists);
    ListReverts(before, after, lists[0].keys, steps);
  }

  lemma ChildFits(before: Option<Json>, after: Option<Json>, lists: seq<RowList>, k: Key)
    requires !HasRoot(lists) && Descends(before, after) && Fits(before, after, lists) && Reachable(before, after, lists)
    ensures Fits(Child(before, k), Child(after, k), Under(lists, k)) && Reachable(Child(before, k), Child(after, k), Under(lists, k))
  {
  }

  lemma ProjectListed(before: Option<Json>, after: Option<Json>, lists: seq<RowList>, steps: seq<Step>, k: Key)
    requires !HasRoot(lists) && Descends(before, after) && multiset(steps) == multiset(Changes(before, after, lists))
    ensures multiset(Project(steps, k)) == multiset(Changes(Child(before, k), Child(after, k), Under(lists, k)))
  {
    ProjectChanges(before, after, lists, k);
    ProjectAnyOrder(steps, Changes(before, after, lists), k);
  }

  // What goes well under every key goes well.
  lemma ObjectReverts(before: Option<Json>, after: Option<Json>, lists: seq<RowList>, steps: seq<Step>)
    requires !HasRoot(lists) && Descends(before, after) && Parentable(after) && multiset(steps) == multiset(Changes(before, after, lists))
    requires forall k :: Restores(Child(before, k), Child(after, k), Under(lists, k), Project(steps, k))
    ensures Restores(before, after, lists, steps)
  {
    BelowInAnyOrder(before, after, lists, steps);
    forall k ensures RevertSteps(Child(after, k), Project(steps, k)).Draft? {
      assert Restores(Child(before, k), Child(after, k), Under(lists, k), Project(steps, k));
    }
    SplitRun(after, steps);
    var r := RevertSteps(after, steps).value;
    forall k ensures Alike(Child(r, k), Child(before, k), Under(lists, k), false) {
      assert Restores(Child(before, k), Child(after, k), Under(lists, k), Project(steps, k));
    }
    ChildrenAlike(RevertSteps(after, steps).value, before, lists);
  }

  lemma BelowInAnyOrder(before: Option<Json>, after: Option<Json>, lists: seq<RowList>, steps: seq<Step>)
    requires !HasRoot(lists) && Descends(before, after) && multiset(steps) == multiset(Changes(before, after, lists))
    ensures AllBelow(steps)
  {
    ProjectChanges(before, after, lists, "");
    forall i | 0 <= i < |steps| ensures steps[i].path != [] {
      assert steps[i] in multiset(steps);
      assert steps[i] in Changes(before, after, lists);
    }
  }

  lemma ChildrenAlike(a: Option<Json>, b: Option<Json>, lists: seq<RowList>)
    requires !HasRoot(lists) && Parentable(a) && PlainOrEmpty(b)
    requires forall k :: Alike(Child(a, k), Child(b, k), Under(lists, k), false)
    ensures Alike(a, b, lists, false)
  {
    if !Descends(a, b) {
      EmptyIsNull(a);
      EmptyIsNull(b);
    }
  }

  // ---- When that is not so ----

  // A declined step below declines the step.
  lemma DeclinedBelow(d: Option<Json>, s: Step)
    requires s.path != [] && Parentable(d) && RevertStep(Child(d, s.path[0]), Tail(s)) == Declined
    ensures RevertStep(d, s) == Declined
  {
    var k, path, c := s.path[0], s.path, Child(d, s.path[0]);
    assert GetAt(d, path) == GetAt(c, path[1..]);
  }

  /** A run that succeeds on an object succeeded on every key. */
  lemma {:induction false} SplitBack(d: Option<Json>, steps: seq<Step>, k: Key)
    requires Parentable(d) && AllBelow(steps) && RevertSteps(d, steps).Draft?
    ensures var r := RevertSteps(Child(d, k), Project(steps, k)); r.Draft? && Child(RevertSteps(d, steps).value, k) == r.value
    ensures Parentable(RevertSteps(d, steps).value)
    decreases |steps|
  {
    if steps != [] {
      var s, rest := steps[0], steps[1..];
      var k0 := s.path[0];
      if RevertStep(Child(d, k0), Tail(s)) == Declined {
        DeclinedBelow(d, s);
      }
      StepDown(d, s);
      assert forall i | 0 <= i < |rest| :: rest[i] == steps[i + 1];
      SplitBack(RevertStep(d, s).value, rest, k);
      if k == k0 {
        assert Project(steps, k) == [Tail(s)] + Project(rest, k) && Project(steps, k)[1..] == Project(rest, k);
      } else {
        assert Project(steps, k) == [] + Project(rest, k) == Project(rest, k);
      }
    }
  }

  // On an empty list every step below it is declined or lost.
  lemma {:induction false} LostOnList(steps: seq<Step>)
    requires AllBelow(steps)
    ensures var r := RevertSteps(Some(Arr([])), steps); r.Draft? ==> r.value == Some(Arr([]))
    decreases |steps|
  {
    if steps != [] {
      var d := Some(Arr([]));
      NothingAt(d, steps[0].path);
      assert GetAt(d, steps[0].path) == None by {
        NoneAt(Child(d, steps[0].path[0]), steps[0].path[1..]);
      }
      assert forall i | 0 <= i < |steps[1..]| :: steps[1..][i] == steps[i + 1];
      LostOnList(steps[1..]);
    }
  }

  lemma {:induction false} NoneAt(v: Option<Json>, path: Path)
    requires v == None
    ensures GetAt(v, path) == None
    decreases |path|
  {
    if path != [] {
      NoneAt(Child(v, path[0]), path[1..]);
    }
  }

  lemma NoRows(rows: seq<Item>)
    requires Counted(rows) == Counted([])
    ensures rows == []
  {
    assert |multiset(Classes(rows))| == |Classes(rows)| == |rows|;
  }

  // Beside nothing, order cannot be all that differs.
  lemma {:induction false} OrderOfNothing(a: Option<Json>, b: Option<Json>, lists: seq<RowList>)
    requires Empty(a) && Alike(a, b, lists, false)
    ensures Alike(a, b, lists, true)
    decreases IsObject(a), Fields(a), IsObject(b), Fields(b)
  {
    assert RowsOf(a) == [];
    if HasRoot(lists) {
      NoRows(RowsOf(b));
    } else if Descends(a, b) {
      forall k ensures Alike(Child(a, k), Child(b, k), Under(lists, k), true) {
        OrderOfNothing(Child(a, k), Child(b, k), Under(lists, k));
      }
    } else if ScalarList(a) && ScalarList(b) {
      NoRows(RowsOf(b));
    }
  }

  // A place that cannot be set fails.
  lemma UnreachableHere(before: Option<Json>, after: Option<Json>, lists: seq<RowList>, steps: seq<Step>)
    requires Fits(before, after, lists) && !HasRoot(lists) && Descends(before, after) && multiset(steps) == multiset(Changes(before, after, lists))
    requires Changes(before, after, lists) != [] && !Parentable(after)
    ensures var r := RevertSteps(after, steps); r.Draft? ==> !Alike(r.value, before, lists, false)
  {
    assert after == Some(Arr([]));
    BelowInAnyOrder(before, after, lists, steps);
    LostOnList(steps);
    NoChangesIffAlike(before, after, lists);
    if Alike(after, before, lists, false) {
      OrderOfNothing(after, before, lists);
    }
  }

  lemma NotAlikeBelow(a: Option<Json>, b: Option<Json>, lists: seq<RowList>, k: Key)
    requires !HasRoot(lists) && Parentable(a) && PlainOrEmpty(b) && Alike(a, b, lists, false)
    ensures Alike(Child(a, k), Child(b, k), Under(lists, k), false)
  {
    if !Descends(a, b) {
      assert Child(a, k) == None && Child(b, k) == None;
      assert RowsAlike(None, None, false);
    }
  }

  /** The exact condition: taking all changes back, in any order, succeeds and gives the applied config if and only if no
      empty list stands in the saved config where the applied one has an object that differs. */
  lemma {:induction false} RevertsIffReachable(before: Option<Json>, after: Option<Json>, lists: seq<RowList>, steps: seq<Step>)
    requires Fits(before, after, lists) && multiset(steps) == multiset(Changes(before, after, lists))
    ensures var r := RevertSteps(after, steps); (r.Draft? && Alike(r.value, before, lists, false)) <==> Reachable(before, after, lists)
    decreases IsObject(before), Fields(before), IsObject(after), Fields(after)
  {
    if Reachable(before, after, lists) {
      RevertingAllChanges(before, after, lists, steps);
    } else if Changes(before, after, lists) != [] && !Parentable(after) {
      UnreachableHere(before, after, lists, steps);
    } else {
      var k :| !Reachable(Child(before, k), Child(after, k), Under(lists, k));
      assert Fits(Child(before, k), Child(after, k), Under(lists, k));
      ProjectListed(before, after, lists, steps, k);
      RevertsIffReachable(Child(before, k), Child(after, k), Under(lists, k), Project(steps, k));
      BelowInAnyOrder(before, after, lists, steps);
      UnreachableBelow(before, after, lists, steps, k);
    }
  }

  lemma UnreachableBelow(before: Option<Json>, after: Option<Json>, lists: seq<RowList>, steps: seq<Step>, k: Key)
    requires !HasRoot(lists) && Descends(before, after) && AllBelow(steps) && (steps != [] ==> Parentable(after))
    requires var r := RevertSteps(Child(after, k), Project(steps, k)); r.Draft? ==> !Alike(r.value, Child(before, k), Under(lists, k), false)
    ensures var r := RevertSteps(after, steps); r.Draft? ==> !Alike(r.value, before, lists, false)
  {
    var r := RevertSteps(after, steps);
    if steps == [] {
      assert Project(steps, k) == [] && r == Draft(after);
    } else if r.Draft? {
      SplitBack(after, steps, k);
      if Alike(r.value, before, lists, false) {
        NotAlikeBelow(r.value, before, lists, k);
      }
    }
  }

  // ---- What the list does not tell ----

  /** A change that cannot be taken back: an object that became an empty list. */
  lemma ObjectToEmptyList()
    ensures var before, after := Some(Obj(map["x" := Obj(map["y" := Num(1)])])), Some(Obj(map["x" := Arr([])]));
            !Reachable(before, after, []) && Fits(before, after, [])
  {
    var before, after := Some(Obj(map["x" := Obj(map["y" := Num(1)])])), Some(Obj(map["x" := Arr([])]));
    var b, a := Child(before, "x"), Child(after, "x");
    assert b == Some(Obj(map["y" := Num(1)])) && a == Some(Arr([]));
    assert Under([], "x") == [] && Under([], "y") == [];
    assert Child(b, "y") == Some(Num(1)) && Child(a, "y") == None;
    NoChangesIffAlike(Some(Num(1)), None, []);
    assert !Same(None, Some(Num(1)));
    assert Changes(Child(b, "y"), Child(a, "y"), Under([], "y")) != [];
    NoChangesBelow(b, a, []);
    assert !Reachable(b, a, []);
    forall k ensures Fits(Child(b, k), Child(a, k), Under([], k)) {
      assert k != "y" ==> Child(b, k) == None;
    }
    forall k ensures Fits(Child(before, k), Child(after, k), Under([], k)) {
      assert k != "x" ==> Child(before, k) == None && Child(after, k) == None;
    }
  }

  /** Of two scalar lists with nothing listed between them, the only difference can be two different empty values at one
      place, which the list hides. */
  lemma HiddenDifference(a: Option<Json>, b: Option<Json>)
    requires ScalarList(a) && ScalarList(b) && RowStepsOf(RowsOf(a), RowsOf(b), []) == []
    ensures !Same(a, b) <==>
            exists i | 0 <= i < |RowsOf(a)| && i < |RowsOf(b)| ::
              RowsOf(a)[i].json != RowsOf(b)[i].json && EmptyValue(RowsOf(a)[i].json) && EmptyValue(RowsOf(b)[i].json)
  {
    NoChangesIffEqual(RowsOf(a), RowsOf(b), []);
    ListCanon(a);
    ListCanon(b);
    var x, y := RowsOf(a), RowsOf(b);
    assert |Classes(x)| == |x| && |Classes(y)| == |y|;
    forall i | 0 <= i < |x| ensures x[i].json != y[i].json <==> x[i].json != y[i].json && EmptyValue(x[i].json) && EmptyValue(y[i].json) {
      assert Class(x[i]) == Class(y[i]);
      assert Scalar(x[i].json) && Scalar(y[i].json);
      ScalarClass(x[i].json);
      ScalarClass(y[i].json);
    }
    if x != [] {
      assert Canon(a) == Canon(b) <==> forall i | 0 <= i < |x| :: x[i].json == y[i].json by {
        SameScalars(a, b);
      }
    }
  }

  lemma ScalarClass(v: Json)
    requires Scalar(v)
    ensures Strip(v) == v && Canon(Some(v)) == if EmptyValue(v) then Null else v
  {
  }

  lemma SameScalars(a: Option<Json>, b: Option<Json>)
    requires ScalarList(a) && ScalarList(b) && RowsOf(a) != [] && |RowsOf(a)| == |RowsOf(b)|
    ensures Canon(a) == Canon(b) <==> forall i | 0 <= i < |RowsOf(a)| :: RowsOf(a)[i].json == RowsOf(b)[i].json
  {
    ListCanon(a);
    ListCanon(b);
    forall i | 0 <= i < |RowsOf(a)| ensures Canon(a).items[i] == RowsOf(a)[i].json && Canon(b).items[i] == RowsOf(b)[i].json {
      ScalarClass(a.value.items[i]);
      ScalarClass(b.value.items[i]);
    }
  }
}

/** Undoing reverts: whichever changes were taken back from the saved config, putting them back gives the saved config. */
module ConfigUndo {
  import opened Common
  import opened Json
  import opened RowMatch
  import opened RowSteps
  import opened RowChanges
  import opened RowUndo
  import opened ConfigChanges
  import opened ConfigRevert
  import opened ConfigFold

  // ---- Putting steps back ----

  // The step the other way round: applied and saved change places.
  function Around(s: Step): Step
  {
    match s
    case AtRow(path, row) => AtRow(path, Back(row))
    case AtValue(path, before, after) => AtValue(path, after, before)
  }

  function AroundAll(steps: seq<Step>): (r: seq<Step>)
    ensures |r| == |steps| && forall i | 0 <= i < |steps| :: r[i] == Around(steps[i])
  {
    seq(|steps|, i requires 0 <= i < |steps| => Around(steps[i]))
  }

  /** reapplyChange's steps: applyStep towards the saved config. */
  function ReapplySteps(d: Option<Json>, steps: seq<Step>): Draft
  {
    RevertSteps(d, AroundAll(steps))
  }

  lemma {:induction false} ProjectAround(steps: seq<Step>, k: Key)
    ensures Project(AroundAll(steps), k) == AroundAll(Project(steps, k))
    decreases |steps|
  {
    if steps != [] {
      var s, rest := steps[0], steps[1..];
      assert AroundAll(steps)[1..] == AroundAll(rest);
      ProjectAround(rest, k);
      assert Around(s).path == s.path;
      if s.path != [] && s.path[0] == k {
        assert Tail(Around(s)) == Around(Tail(s));
        assert AroundAll([Tail(s)] + Project(rest, k)) == [Around(Tail(s))] + AroundAll(Project(rest, k));
      } else {
        assert Project(steps, k) == [] + Project(rest, k) == Project(rest, k);
      }
    }
  }

  // ---- What is asked of the saved config ----

  /** No list that may get rows back by an undo holds a null. */
  ghost predicate FitsBack(before: Option<Json>, after: Option<Json>, lists: seq<RowList>)
    decreases IsObject(before), Fields(before), IsObject(after), Fields(after)
  {
    if HasRoot(lists) then NoNulls(RowsOf(after))
    else if Descends(before, after) then forall k :: FitsBack(Child(before, k), Child(after, k), Under(lists, k))
    else ScalarList(before) && ScalarList(after) ==> NoNulls(RowsOf(after))
  }

  // ---- One list ----

  lemma SecondRowsFrom(kept: seq<(nat, nat)>, after: seq<Item>, n: nat, pool: set<Item>)
    requires n <= |after| && From(after, pool)
    ensures From(SecondRows(kept, after, n), pool)
  {
    if n > 0 {
      SecondRowsFrom(kept, after, n - 1, pool);
    }
  }

  lemma BackFrom(before: seq<Item>, after: seq<Item>, keys: seq<Keys>, s: RowStep, pool: set<Item>)
    requires From(after, pool) && s in RowStepsOf(before, after, keys)
    ensures StepFrom(Back(s), pool)
  {
    var m := MatchOf(before, after, keys);
    StepsFit(before, after, keys, s);
    SecondRowsFrom(m.kept, after, |after|, pool);
    if s.Order? {
      OnlyOrder(before, after, keys, s);
    }
  }

  lemma ListedFrom(before: seq<Item>, after: seq<Item>, keys: seq<Keys>, some: seq<RowStep>, pool: set<Item>)
    requires From(before, pool) && From(after, pool) && forall i | 0 <= i < |some| :: some[i] in RowStepsOf(before, after, keys)
    ensures forall i | 0 <= i < |some| :: StepFrom(some[i], pool) && StepFrom(BackAll(some)[i], pool)
  {
    forall i | 0 <= i < |some| ensures StepFrom(some[i], pool) && StepFrom(BackAll(some)[i], pool) {
      StepsFrom(before, after, keys, some[i], pool);
      BackFrom(before, after, keys, some[i], pool);
    }
  }

  lemma SplitRows(path: Path, a: seq<Step>, b: seq<Step>)
    requires (forall i | 0 <= i < |a + b| :: (a + b)[i].AtRow?) && a + b == AtRows(path, RowsIn(a + b))
    ensures (forall i | 0 <= i < |a| :: a[i].AtRow?) && (forall i | 0 <= i < |b| :: b[i].AtRow?)
    ensures a == AtRows(path, RowsIn(a)) && RowsIn(a) + RowsIn(b) == RowsIn(a + b)
    ensures AroundAll(a) == AtRows(path, BackAll(RowsIn(a)))
  {
    forall i | 0 <= i < |a| ensures a[i] == (a + b)[i] && a[i].AtRow? && a[i] == AtRow(path, a[i].row) {
      assert (a + b)[i] == AtRows(path, RowsIn(a + b))[i];
    }
    forall i | 0 <= i < |b| ensures b[i].AtRow? {
      assert b[i] == (a + b)[|a| + i];
    }
  }

  lemma ListUndone(before: Option<Json>, after: Option<Json>, keys: seq<Keys>, some: seq<Step>, rest: seq<Step>)
    requires ListFits(RowsOf(before), RowsOf(after), keys) && NoNulls(RowsOf(after))
    requires multiset(some + rest) == multiset(AtRows([], RowStepsOf(RowsOf(before), RowsOf(after), keys)))
    ensures var r := RevertSteps(after, some);
            && r.Draft?
            && var u := ReapplySteps(r.value, some);
               && u.Draft? && Counted(RowsOf(u.value)) == Counted(RowsOf(after)) && From(RowsOf(u.value), PoolOf(before, after))
               && (u.value == after || (u.value.Some? && u.value.value.Arr?))
  {
    var all, pool := RowStepsOf(RowsOf(before), RowsOf(after), keys), PoolOf(before, after);
    SameRows(some + rest, [], all);
    SplitRows([], some, rest);
    var a, b := RowsIn(some), RowsIn(rest);
    UndoingRows(RowsOf(before), RowsOf(after), keys, a, b);
    ReapplyAllIsBack(RevertAll(RowsOf(after), a).rows, a);
    ListedRows(before, after, keys, a, b);
    RowsRun(after, a, pool);
    var r := RevertSteps(after, some).value;
    RowsRun(r, BackAll(a), pool);
  }

  lemma ListedRows(before: Option<Json>, after: Option<Json>, keys: seq<Keys>, a: seq<RowStep>, b: seq<RowStep>)
    requires multiset(a + b) == multiset(RowStepsOf(RowsOf(before), RowsOf(after), keys))
    ensures forall i | 0 <= i < |a| :: StepFrom(a[i], PoolOf(before, after)) && StepFrom(BackAll(a)[i], PoolOf(before, after))
    ensures Sound(PoolOf(before, after)) && From(RowsOf(after), PoolOf(before, after))
  {
    PoolHolds(before, after);
    SomeAreListed(RowStepsOf(RowsOf(before), RowsOf(after), keys), a, b);
    ListedFrom(RowsOf(before), RowsOf(after), keys, a, PoolOf(before, after));
  }


  // ---- The whole config ----

  ghost predicate Undone(after: Option<Json>, lists: seq<RowList>, some: seq<Step>)
  {
    var r := RevertSteps(after, some);
    r.Draft? && var u := ReapplySteps(r.value, some); u.Draft? && Alike(u.value, after, lists, false)
  }

  lemma LeafUndone(before: Option<Json>, after: Option<Json>, some: seq<Step>, rest: seq<Step>)
    requires !Descends(before, after) && some != []
    requires ScalarList(before) && ScalarList(after) ==> NoNulls(RowsOf(before)) && NoNulls(RowsOf(after))
    requires multiset(some + rest) == multiset(Changes(before, after, []))
    ensures Undone(after, [], some)
  {
    NoLists(before, after);
    var all := Settings(before, after, []);
    assert some[0] in multiset(some + rest) && |some + rest| == |multiset(some + rest)| == |multiset(all)| == |all|;
    if ScalarList(before) && ScalarList(after) {
      ScalarsFit(before, after);
      ListUndone(before, after, [], some, rest);
      var u := ReapplySteps(RevertSteps(after, some).value, some).value;
      ScalarsStay(before, after, u);
      ScalarListsAlike(u, after);
    } else {
      var s := AtValue([], before, after);
      assert all == [s] && some[0] in all;
      assert some == [s];
      ValueUndone(before, after);
    }
  }

  lemma ValueUndone(before: Option<Json>, after: Option<Json>)
    requires !Same(before, after)
    ensures Undone(after, [], [AtValue([], before, after)])
  {
    var s := AtValue([], before, after);
    assert [s][1..] == [] && AroundAll([s]) == [Around(s)] && [Around(s)][1..] == [];
    assert RevertStep(after, s) == Draft(before) && RevertStep(before, Around(s)) == Draft(after);
    assert RevertSteps(before, []) == Draft(before) && RevertSteps(after, []) == Draft(after);
    AlikeItself(after, []);
  }

  lemma SomeBelow(before: Option<Json>, after: Option<Json>, lists: seq<RowList>, some: seq<Step>, rest: seq<Step>)
    requires !HasRoot(lists) && Descends(before, after) && multiset(some + rest) == multiset(Changes(before, after, lists))
    ensures AllBelow(some) && AllBelow(AroundAll(some))
  {
    BelowInAnyOrder(before, after, lists, some + rest);
    forall i | 0 <= i < |some| ensures some[i].path != [] {
      assert some[i] == (some + rest)[i];
    }
  }

  lemma ObjectUndone(before: Option<Json>, after: Option<Json>, lists: seq<RowList>, some: seq<Step>, rest: seq<Step>)
    requires !HasRoot(lists) && Descends(before, after) && Parentable(after) && some != []
    requires multiset(some + rest) == multiset(Changes(before, after, lists))
    requires forall k :: Undone(Child(after, k), Under(lists, k), Project(some, k))
    ensures Undone(after, lists, some)
  {
    SomeBelow(before, after, lists, some, rest);
    forall k ensures RevertSteps(Child(after, k), Project(some, k)).Draft? {
      assert Undone(Child(after, k), Under(lists, k), Project(some, k));
    }
    SplitRun(after, some);
    var r := RevertSteps(after, some).value;
    forall k ensures RevertSteps(Child(r, k), Project(AroundAll(some), k)) ==
                     ReapplySteps(RevertSteps(Child(after, k), Project(some, k)).value, Project(some, k)) {
      ProjectAround(some, k);
    }
    forall k ensures RevertSteps(Child(r, k), Project(AroundAll(some), k)).Draft? {
      assert Undone(Child(after, k), Under(lists, k), Project(some, k));
    }
    SplitRun(r, AroundAll(some));
    var u := ReapplySteps(r, some).value;
    forall k ensures Alike(Child(u, k), Child(after, k), Under(lists, k), false) {
      assert Undone(Child(after, k), Under(lists, k), Project(some, k));
    }
    ChildrenAlike(u, after, lists);
  }

  lemma ProjectSome(before: Option<Json>, after: Option<Json>, lists: seq<RowList>, some: seq<Step>, rest: seq<Step>, k: Key)
    requires !HasRoot(lists) && Descends(before, after) && multiset(some + rest) == multiset(Changes(before, after, lists))
    ensures multiset(Project(some, k) + Project(rest, k)) == multiset(Changes(Child(before, k), Child(after, k), Under(lists, k)))
  {
    ProjectListed(before, after, lists, some + rest, k);
    ProjectConcat(some, rest, k);
  }

  lemma {:induction false} NothingUndone(after: Option<Json>, lists: seq<RowList>)
    ensures Undone(after, lists, [])
  {
    AlikeItself(after, lists);
    assert RevertSteps(after, []) == Draft(after) && ReapplySteps(after, []) == Draft(after);
  }

  lemma RootUndone(before: Option<Json>, after: Option<Json>, lists: seq<RowList>, some: seq<Step>, rest: seq<Step>)
    requires HasRoot(lists) && Fits(before, after, lists) && FitsBack(before, after, lists)
    requires multiset(some + rest) == multiset(Changes(before, after, lists))
    ensures Undone(after, lists, some)
  {
    RootList(before, after, lists);
    ListUndone(before, after, lists[0].keys, some, rest);
  }

  /** Taking back any of the listed changes, in any order, and then undoing exactly those, is never declined and gives the
      saved config's settings and, in every list, its rows, each as often. */
  lemma {:induction false} UndoingChanges(before: Option<Json>, after: Option<Json>, lists: seq<RowList>, some: seq<Step>, rest: seq<Step>)
    requires Fits(before, after, lists) && FitsBack(before, after, lists) && Reachable(before, after, lists)
    requires multiset(some + rest) == multiset(Changes(before, after, lists))
    ensures Undone(after, lists, some)
    decreases IsObject(before), Fields(before), IsObject(after), Fields(after)
  {
    SameLength(some + rest, Changes(before, after, lists));
    if some == [] {
      NothingUndone(after, lists);
    } else if HasRoot(lists) {
      RootUndone(before, after, lists, some, rest);
    } else if Descends(before, after) {
      forall k ensures Undone(Child(after, k), Under(lists, k), Project(some, k)) {
        ChildFits(before, after, lists, k);
        assert FitsBack(Child(before, k), Child(after, k), Under(lists, k));
        ProjectSome(before, after, lists, some, rest, k);
        UndoingChanges(Child(before, k), Child(after, k), Under(lists, k), Project(some, k), Project(rest, k));
      }
      ObjectUndone(before, after, lists, some, rest);
    } else if Empty(before) && Empty(after) {
      EmptyNoSteps(before, after, lists);
    } else {
      LeafUndone(before, after, some, rest);
    }
  }

  // ---- Entry by entry ----

  /** reapplyChange, one entry after the other. */
  function ReapplyChanges(d: Option<Json>, order: seq<Change>): Draft
    decreases |order|
  {
    if order == [] then Draft(d)
    else
      var r := ReapplySteps(d, order[0].steps);
      if r == Declined then Declined else ReapplyChanges(r.value, order[1..])
  }

  lemma {:induction false} ReapplyConcat(d: Option<Json>, a: seq<Step>, b: seq<Step>)
    ensures var r := ReapplySteps(d, a); ReapplySteps(d, a + b) == if r == Declined then Declined else ReapplySteps(r.value, b)
  {
    AroundConcat(a, b);
    ConfigFold.StepsConcat(d, AroundAll(a), AroundAll(b));
  }

  lemma {:induction false} AroundConcat(a: seq<Step>, b: seq<Step>)
    ensures AroundAll(a + b) == AroundAll(a) + AroundAll(b)
  {
  }

  lemma {:induction false} ReapplyByEntry(d: Option<Json>, order: seq<Change>)
    ensures ReapplyChanges(d, order) == ReapplySteps(d, AllSteps(order))
    decreases |order|
  {
    if order != [] {
      ReapplyConcat(d, order[0].steps, AllSteps(order[1..]));
      var r := ReapplySteps(d, order[0].steps);
      if r.Draft? { ReapplyByEntry(r.value, order[1..]); }
    }
  }

  /** The listed entries as they are: taking back any of them, a peer with its routes included, and undoing those, gives the
      saved config back. */
  lemma UndoingEntries(before: Option<Json>, after: Option<Json>, peers: seq<Keys>, routes: seq<Keys>, inbound: seq<Keys>, hosts: Hosts,
                       some: seq<Change>, rest: seq<Change>)
    requires var lists := ConfigLists(peers, routes, inbound);
             Fits(before, after, lists) && FitsBack(before, after, lists) && Reachable(before, after, lists)
    requires multiset(some + rest) == multiset(Described(before, after, peers, routes, inbound, hosts))
    ensures var r := RevertChanges(after, some);
            && r.Draft?
            && var u := ReapplyChanges(r.value, some);
               u.Draft? && Alike(u.value, after, ConfigLists(peers, routes, inbound), false)
  {
    var lists := ConfigLists(peers, routes, inbound);
    AnyOrderSteps(some + rest, Described(before, after, peers, routes, inbound, hosts));
    DescribedSteps(before, after, peers, routes, inbound, hosts);
    AllStepsConcat(some, rest);
    UndoingChanges(before, after, lists, AllSteps(some), AllSteps(rest));
    EntryByEntry(after, some);
    ReapplyByEntry(RevertChanges(after, some).value, some);
  }
}

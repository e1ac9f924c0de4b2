/** What taking one row step back leaves alone, when putting it back undoes that, and where an order puts the rows. */
module RowUndo {
  import opened Common
  import opened Json
  import opened RowMatch
  import opened RowSteps
  import opened RowChanges

  function One(row: Option<Item>): multiset<Json>
  {
    if row.Some? then multiset{Class(row.value)} else multiset{}
  }

  // ---- One row ----

  lemma FoundWhenCounted(rows: seq<Item>, row: Item)
    ensures FindAlike(rows, row, 0) < |rows| <==> Counted(rows)[Class(row)] > 0
  {
    ClassIn(rows, Class(row));
  }

  // now is rows with row put in at slot i, with the row at slot i taken out, or with row in place of it.
  predicate PutIn(rows: seq<Item>, now: seq<Item>, i: nat, row: Item)
  {
    i <= |rows| && now == rows[..i] + [row] + rows[i..]
  }

  predicate TakenOut(rows: seq<Item>, now: seq<Item>, i: nat)
  {
    i < |rows| && now == rows[..i] + rows[i + 1..]
  }

  predicate PutInPlace(rows: seq<Item>, now: seq<Item>, i: nat, row: Item)
  {
    i < |rows| && now == rows[i := row]
  }

  // Row i is the first alike.
  predicate FirstOf(rows: seq<Item>, i: nat, row: Item)
  {
    i < |rows| && Class(rows[i]) == Class(row) && forall j | 0 <= j < i :: Class(rows[j]) != Class(row)
  }

  // A row that comes back, at its old slot or at the end of a shorter list.
  lemma ComesBack(rows: seq<Item>, want: Item, wantAt: int, wantRows: seq<Item>)
    ensures var r := MoveRow(rows, None, Some(want), wantAt, wantRows);
            if Counted(rows)[Class(want)] >= Counted(wantRows)[Class(want)] then r == Rows(rows, false)
            else if want.json == Null || KeyTaken(rows, RowKey(want)) then r == Refused
            else
              && r.Rows? && r.changed && Counted(r.rows) == Counted(rows) + multiset{Class(want)}
              && (wantAt >= 0 ==> PutIn(rows, r.rows, if wantAt <= |rows| then wantAt else |rows|, want))
  {
    CountIsCounted(rows, want);
    CountIsCounted(wantRows, want);
    InsertCounted(rows, wantAt, want);
  }

  // A row that goes again: the first alike.
  lemma GoesAgain(rows: seq<Item>, have: Item, wantAt: int, wantRows: seq<Item>)
    ensures var r := MoveRow(rows, Some(have), None, wantAt, wantRows);
            if Counted(rows)[Class(have)] <= Counted(wantRows)[Class(have)] then r == Rows(rows, false)
            else
              && r.Rows? && r.changed && Counted(r.rows) + multiset{Class(have)} == Counted(rows)
              && exists i: nat :: FirstOf(rows, i, have) && TakenOut(rows, r.rows, i)
  {
    CountIsCounted(rows, have);
    CountIsCounted(wantRows, have);
    FoundWhenCounted(rows, have);
    var i := FindAlike(rows, have, 0);
    if i < |rows| {
      RemoveCounted(rows, i);
      FirstFound(rows, have, 0);
    }
  }

  // What findIndex finds is the first alike.
  lemma {:induction false} FirstFound(rows: seq<Item>, row: Item, k: nat)
    requires k <= |rows| && forall j | 0 <= j < k :: Class(rows[j]) != Class(row)
    ensures var i := FindAlike(rows, row, k); i < |rows| ==> FirstOf(rows, i, row)
    decreases |rows| - k
  {
    if k < |rows| && Class(rows[k]) != Class(row) { FirstFound(rows, row, k + 1); }
  }

  // A row that turns into another: the first alike, where it stands.
  lemma TurnsBack(rows: seq<Item>, have: Item, want: Item, wantAt: int, wantRows: seq<Item>)
    ensures var r := MoveRow(rows, Some(have), Some(want), wantAt, wantRows);
            if Counted(rows)[Class(have)] > 0 then
              && r.Rows? && r.changed && Counted(r.rows) + multiset{Class(have)} == Counted(rows) + multiset{Class(want)}
              && exists i: nat :: FirstOf(rows, i, have) && PutInPlace(rows, r.rows, i, want)
            else if Counted(rows)[Class(want)] > 0 then r == Rows(rows, false)
            else r == Refused
  {
    FoundWhenCounted(rows, have);
    FoundWhenCounted(rows, want);
    var i := FindAlike(rows, have, 0);
    if i < |rows| {
      ReplaceCounted(rows, i, want);
      FirstFound(rows, have, 0);
    }
  }

  /** Moving a row trades one row like have for the row want, and nothing else; or it changes nothing. */
  lemma MoveTrades(rows: seq<Item>, have: Option<Item>, want: Option<Item>, wantAt: int, wantRows: seq<Item>)
    ensures var r := MoveRow(rows, have, want, wantAt, wantRows);
            r.Rows? ==> if r.changed then Counted(r.rows) + One(have) == Counted(rows) + One(want) else r.rows == rows
  {
    if have.Some? && want.Some? {
      TurnsBack(rows, have.value, want.value, wantAt, wantRows);
    } else if have.Some? {
      GoesAgain(rows, have.value, wantAt, wantRows);
    } else if want.Some? {
      ComesBack(rows, want.value, wantAt, wantRows);
    }
  }

  // ---- Undo ----

  /** reapplyChange's step: towards the saved config. */
  function Reapply(rows: seq<Item>, s: RowStep): Outcome
  {
    match s
    case Row(before, after, _, afterAt, _, afterRows) => MoveRow(rows, before, after, afterAt, afterRows)
    case Order(_, rowsAfter) => Rows(SetRowOrder(rows, rowsAfter), Classes(SetRowOrder(rows, rowsAfter)) != Classes(rows))
  }

  // A row that came back can leave again when the list never had fewer of it than the saved one; a row that left can
  // come back when the list never had more of it, and no other row has its key.
  predicate CanUndo(rows: seq<Item>, s: RowStep)
    requires s.Row? && Revert(rows, s).Rows?
  {
    && (s.before.Some? && s.after == None ==> Counted(rows)[Class(s.before.value)] >= Counted(s.afterRows)[Class(s.before.value)])
    && (s.before == None && s.after.Some? ==>
          && Counted(rows)[Class(s.after.value)] <= Counted(s.afterRows)[Class(s.after.value)]
          && s.after.value.json != Null && !KeyTaken(Revert(rows, s).rows, RowKey(s.after.value)))
  }

  /** Undo gives the rows from before the revert exactly when CanUndo holds. */
  lemma UndoGivesRowsBack(rows: seq<Item>, s: RowStep)
    requires s.Row? && (s.before.Some? || s.after.Some?) && Revert(rows, s).Rows? && Revert(rows, s).changed
    ensures var u := Reapply(Revert(rows, s).rows, s); (u.Rows? && Counted(u.rows) == Counted(rows)) <==> CanUndo(rows, s)
  {
    var now := Revert(rows, s).rows;
    if s.before.Some? && s.after.Some? {
      TurnsBack(rows, s.after.value, s.before.value, s.beforeAt, s.beforeRows);
      TurnsBack(now, s.before.value, s.after.value, s.afterAt, s.afterRows);
      Traded(Counted(rows), Counted(now), Class(s.after.value), Class(s.before.value));
      var u := Reapply(now, s).rows;
      Cancel(Counted(u), Counted(rows), multiset{Class(s.before.value)});
    } else if s.before.Some? {
      ComesBack(rows, s.before.value, s.beforeAt, s.beforeRows);
      GoesAgain(now, s.before.value, s.afterAt, s.afterRows);
      var u := Reapply(now, s).rows;
      OneMore(Counted(rows), Counted(now), Counted(u), Class(s.before.value));
    } else {
      GoesAgain(rows, s.after.value, s.beforeAt, s.beforeRows);
      ComesBack(now, s.after.value, s.afterAt, s.afterRows);
      assert Counted(now)[Class(s.after.value)] + 1 == Counted(rows)[Class(s.after.value)];
    }
  }

  lemma Traded(was: multiset<Json>, now: multiset<Json>, have: Json, want: Json)
    requires now + multiset{have} == was + multiset{want} && was[have] > 0
    ensures now[want] > 0
  {
    assert (now + multiset{have})[want] == (was + multiset{want})[want];
    if have == want {
      assert was == now by { Cancel(now, was, multiset{have}); }
    }
  }

  lemma OneMore(was: multiset<Json>, now: multiset<Json>, u: multiset<Json>, c: Json)
    requires now == was + multiset{c}
    ensures now[c] == was[c] + 1 && now != was && (u + multiset{c} == now ==> u == was)
  {
    if u + multiset{c} == now {
      Cancel(u, was, multiset{c});
    }
  }

  /** On the list as it was saved, every listed change can be undone. */
  lemma UndoAtOnce(before: seq<Item>, after: seq<Item>, keys: seq<Keys>, s: RowStep)
    requires s in RowStepsOf(before, after, keys) && s.Row? && NoNulls(after) && UniqueKeys(after)
    requires Revert(after, s).Rows? && Revert(after, s).changed
    ensures var u := Reapply(Revert(after, s).rows, s); u.Rows? && Counted(u.rows) == Counted(after)
  {
    StepsFit(before, after, keys, s);
    ListedCanBeUndone(before, after, MatchOf(before, after, keys), s);
    UndoGivesRowsBack(after, s);
  }

  lemma ListedCanBeUndone(before: seq<Item>, after: seq<Item>, m: Matching, s: RowStep)
    requires StepFits(s, before, after, m) && s.Row? && NoNulls(after) && UniqueKeys(after)
    requires Revert(after, s).Rows? && Revert(after, s).changed
    ensures CanUndo(after, s)
  {
    if s.before == None {
      NoOtherHasItsKey(after, FindAlike(after, s.after.value, 0));
    }
  }

  // ---- Place ----

  lemma NoOtherHasItsKey(rows: seq<Item>, i: nat)
    requires i < |rows| && UniqueKeys(rows)
    ensures !KeyTaken(rows[..i] + rows[i + 1..], RowKey(rows[i]))
  {
    var rest := rows[..i] + rows[i + 1..];
    if RowKey(rows[i]).Some? {
      forall j | 0 <= j < |rest| ensures RowKey(rest[j]) != RowKey(rows[i]) {
        assert rest[j] == rows[if j < i then j else j + 1];
      }
    }
  }

  lemma BackInPlace(rows: seq<Item>, i: nat)
    requires i < |rows|
    ensures Insert(rows[..i] + rows[i + 1..], i, rows[i]) == rows
  {
  }

  /** The only row removed comes back where it was. */
  lemma RemovedRowReturns(before: seq<Item>, i: nat)
    requires i < |before| && before[i].json != Null && UniqueKeys(before)
    ensures var after := before[..i] + before[i + 1..]; Revert(after, StepAt(before, after, i, -1)) == Rows(before, true)
  {
    var row, after := before[i], before[..i] + before[i + 1..];
    FewerAfterwards(before, i);
    NoOtherHasItsKey(before, i);
    BackInPlace(before, i);
  }

  lemma FewerAfterwards(rows: seq<Item>, i: nat)
    requires i < |rows|
    ensures CountOf(rows[..i] + rows[i + 1..], rows[i]) < CountOf(rows, rows[i])
  {
    RemoveCounted(rows, i);
    CountIsCounted(rows[..i] + rows[i + 1..], rows[i]);
    CountIsCounted(rows, rows[i]);
  }

  /** And the only row added, taken out and put back, is where it was, unless a row alike stands before it. */
  lemma AddedRowReturns(after: seq<Item>, i: nat)
    requires i < |after| && after[i].json != Null && UniqueKeys(after) && FirstOf(after, i, after[i])
    ensures var before := after[..i] + after[i + 1..]; var s := StepAt(before, after, -1, i);
            Revert(after, s) == Rows(before, true) && Reapply(before, s) == Rows(after, true)
  {
    FewerAfterwards(after, i);
    FirstAlike(after, after[i], i, 0);
    NoOtherHasItsKey(after, i);
    BackInPlace(after, i);
  }

  /** The only row edited turns back where it is, unless a row alike stands before it. */
  lemma EditedRowTurnsBack(before: seq<Item>, i: nat, row: Item)
    requires i < |before| && forall j | 0 <= j < i :: Class(before[j]) != Class(row)
    ensures var after := before[i := row]; Revert(after, StepAt(before, after, i, i)) == Rows(before, true)
  {
    var after := before[i := row];
    FirstAlike(after, row, i, 0);
    assert after[i := before[i]] == before;
  }

  lemma FirstAlike(rows: seq<Item>, row: Item, i: nat, k: nat)
    requires k <= i < |rows| && Class(rows[i]) == Class(row) && forall j | k <= j < i :: Class(rows[j]) != Class(row)
    ensures FindAlike(rows, row, k) == i
    decreases i - k
  {
    if k < i { FirstAlike(rows, row, i, k + 1); }
  }

  // ---- Order ----

  lemma {:induction false} PickAllOf(rows: seq<Item>, some: set<nat>, c: Json, n: nat)
    requires n <= |rows| && forall i | 0 <= i < n && Class(rows[i]) == c :: i in some
    ensures Pick(rows, some, n)[c] == Counted(rows[..n])[c]
  {
    if n > 0 {
      PickAllOf(rows, some, c, n - 1);
      Snoc(rows[..n - 1], rows[n - 1]);
      assert rows[..n] == rows[..n - 1] + [rows[n - 1]];
    }
  }

  lemma {:induction false} UnclaimedKeepsClass(rows: seq<Item>, wanted: seq<Item>, i: nat)
    requires i < |rows| && i !in ClaimAll(rows, wanted).slots
    ensures ClaimAll(rows, wanted).unclaimed[i] == Some(Class(rows[i]))
  {
    if wanted != [] {
      UnclaimedKeepsClass(rows, wanted[..|wanted| - 1], i);
    }
  }

  lemma UnclaimedHas(unclaimed: seq<Option<Json>>, c: Json, i: nat, k: nat)
    requires k <= i < |unclaimed| && unclaimed[i] == Some(c)
    ensures FirstUnclaimed(unclaimed, c, k) < |unclaimed|
    decreases i - k
  {
    if k < i && unclaimed[k] != Some(c) {
      UnclaimedHas(unclaimed, c, i, k + 1);
    }
  }

  lemma SlotsTakeAll(rows: seq<Item>, wanted: seq<Item>, c: Json)
    requires forall i | 0 <= i < |rows| && Class(rows[i]) == c :: i in ClaimAll(rows, wanted).slots
    ensures Counted(ClaimAll(rows, wanted).rows)[c] == Counted(rows)[c]
  {
    var some := Members(ClaimAll(rows, wanted).slots);
    ClaimsCounted(rows, wanted);
    PickAllOf(rows, some, c, |rows|);
    assert rows[..|rows|] == rows;
  }

  // While the claims leave rows of a class over, one of them is unclaimed.
  lemma SomeUnclaimed(rows: seq<Item>, wanted: seq<Item>, c: Json)
    requires Counted(ClaimAll(rows, wanted).rows)[c] < Counted(rows)[c]
    ensures FirstUnclaimed(ClaimAll(rows, wanted).unclaimed, c, 0) < |rows|
  {
    var claims := ClaimAll(rows, wanted);
    if i :| 0 <= i < |rows| && Class(rows[i]) == c && i !in claims.slots {
      UnclaimedKeepsClass(rows, wanted, i);
      UnclaimedHas(claims.unclaimed, c, i, 0);
    } else {
      SlotsTakeAll(rows, wanted, c);
    }
  }

  // Rows that are all there are all claimed.
  lemma {:induction false} AllClaimed(rows: seq<Item>, wanted: seq<Item>)
    requires Counted(wanted) <= Counted(rows)
    ensures ClaimAll(rows, wanted).rows == wanted
  {
    if wanted != [] {
      var rest, row := wanted[..|wanted| - 1], wanted[|wanted| - 1];
      Snoc(rest, row);
      assert wanted == rest + [row];
      assert Counted(rest) <= Counted(wanted) && Counted(wanted)[Class(row)] == Counted(rest)[Class(row)] + 1;
      AllClaimed(rows, rest);
      SomeUnclaimed(rows, rest, Class(row));
    }
  }

  ghost predicate PutAt(rows: seq<Item>, now: seq<Item>, wanted: seq<Item>, at: seq<nat>)
  {
    && |now| == |rows| && |at| == |wanted|
    && (forall i | 0 <= i < |at| :: at[i] < |rows|) && (forall i, j | 0 <= i < j < |at| :: at[i] < at[j])
    && (forall k | 0 <= k < |at| :: now[at[k]] == wanted[k])
    && (forall i | 0 <= i < |rows| && i !in at :: now[i] == rows[i])
  }

  /** The wanted rows end in the order wanted, and every other row where it was. */
  lemma WantedInOrder(rows: seq<Item>, wanted: seq<Item>) returns (at: seq<nat>)
    requires Counted(wanted) <= Counted(rows)
    ensures PutAt(rows, SetRowOrder(rows, wanted), wanted, at)
  {
    var c := ClaimAll(rows, wanted);
    var some := Members(c.slots);
    AllClaimed(rows, wanted);
    ClaimsFit(rows, wanted);
    AscendingSize(c.slots, |rows|);
    at := Ascending(some, |rows|);
    var now := SetRowOrder(rows, wanted);
    forall k | 0 <= k < |at| ensures now[at[k]] == wanted[k] {
      AscendingTurn(some, |rows|, k);
      PlacedAt(rows, some, c.rows, |rows|, at[k]);
    }
    forall i | 0 <= i < |rows| && i !in at ensures now[i] == rows[i] {
      AscendingHas(some, |rows|, i);
      PlacedAt(rows, some, c.rows, |rows|, i);
    }
  }

  lemma {:induction false} AllPlaces(at: seq<nat>, k: nat)
    requires k < |at| && (forall i | 0 <= i < |at| :: at[i] < |at|) && forall i, j | 0 <= i < j < |at| :: at[i] < at[j]
    ensures at[k] == k
    decreases |at| - k
  {
    if k + 1 < |at| { AllPlaces(at, k + 1); }
    AtLeastPlace(at, k);
  }

  lemma {:induction false} AtLeastPlace(at: seq<nat>, k: nat)
    requires k < |at| && forall i, j | 0 <= i < j < |at| :: at[i] < at[j]
    ensures at[k] >= k
  {
    if k > 0 { AtLeastPlace(at, k - 1); }
  }

  // Lists with the same rows keep them all.
  lemma NoneFree(before: seq<Item>, after: seq<Item>)
    requires Counted(before) == Counted(after)
    ensures var p := KeptPass(before, after); p.freeBefore == {} && p.freeAfter == {} && |p.pairs| == |before|
  {
    var p := KeptPass(before, after);
    KeptAccount(before, after);
    KeptMeaning(before, after);
    KeptFreeInRange(before, after);
    SamePairs(p.pairs, before, after);
    var b, a := FreeClasses(before, p.freeBefore), FreeClasses(after, p.freeAfter);
    SameRest(Firsts(p.pairs, before), b, a);
    if i :| i in p.freeBefore {
      Picked(before, p.freeBefore, i, |before|);
      PickedClass(after, p.freeAfter, |after|, Class(before[i]));
    }
    if i :| i in p.freeAfter {
      Picked(after, p.freeAfter, i, |after|);
      PickedClass(before, p.freeBefore, |before|, Class(after[i]));
    }
    PickNothing(before, p.freeBefore, |before|);
    FirstsSize(p.pairs, before);
    assert |Counted(before)| == |Classes(before)| == |before|;
  }

  lemma SameRest(kept: multiset<Json>, b: multiset<Json>, a: multiset<Json>)
    requires kept + b == kept + a
    ensures b == a
  {
    assert b == (kept + b) - kept;
    assert a == (kept + a) - kept;
  }

  lemma {:induction false} Picked(rows: seq<Item>, some: set<nat>, i: nat, n: nat)
    requires i < n <= |rows| && i in some
    ensures Class(rows[i]) in Pick(rows, some, n)
  {
    if i < n - 1 { Picked(rows, some, i, n - 1); }
  }

  lemma {:induction false} FirstRowsAll(kept: seq<(nat, nat)>, before: seq<Item>)
    requires |kept| <= |before| && forall i | 0 <= i < |kept| :: kept[i].0 == i
    ensures FirstRows(kept, before) == before[..|kept|]
  {
    if kept != [] {
      FirstRowsAll(kept[..|kept| - 1], before);
    }
  }

  // A list with the same rows has at most the order to change.
  lemma OnlyTheOrder(before: seq<Item>, after: seq<Item>, keys: seq<Keys>)
    requires KeysFor(keys, before, after) && Counted(before) == Counted(after)
    ensures RowStepsOf(before, after, keys) == OrderSteps(before, after, KeptPass(before, after).pairs)
  {
    NoneFree(before, after);
    EditedNothing(keys);
    NoneLeft(before, after, {}, |before|);
    NoneLeft(before, after, {}, |after|);
  }

  // And the order it wants is the whole before list.
  lemma WantsWholeList(before: seq<Item>, after: seq<Item>)
    requires Counted(before) == Counted(after)
    ensures FirstRows(KeptPass(before, after).pairs, before) == before
  {
    var kept := KeptPass(before, after).pairs;
    NoneFree(before, after);
    KeptMeaning(before, after);
    KeptAscends(before, after);
    var firsts := seq(|kept|, i requires 0 <= i < |kept| => kept[i].0);
    forall i | 0 <= i < |kept| ensures kept[i].0 == i {
      AllPlaces(firsts, i);
      assert firsts[i] == kept[i].0;
    }
    FirstRowsAll(kept, before);
    assert before[..|before|] == before;
  }

  // Putting all rows of a list in an order gives that order.
  lemma WholeOrder(rows: seq<Item>, wanted: seq<Item>)
    requires Counted(wanted) == Counted(rows)
    ensures SetRowOrder(rows, wanted) == wanted
  {
    var at := WantedInOrder(rows, wanted);
    assert |Classes(wanted)| == |Counted(wanted)| == |Counted(rows)| == |Classes(rows)|;
    forall k | 0 <= k < |wanted| ensures SetRowOrder(rows, wanted)[k] == wanted[k] {
      AllPlaces(at, k);
    }
  }

  /** A list that was only put in another order has one change, and taking it back gives the rows as they were, in order. */
  lemma OrderIsRestored(before: seq<Item>, after: seq<Item>, keys: seq<Keys>)
    requires KeysFor(keys, before, after) && Counted(before) == Counted(after) && Classes(before) != Classes(after)
    ensures var steps := RowStepsOf(before, after, keys); |steps| == 1 && steps[0].Order? && Revert(after, steps[0]) == Rows(before, true)
  {
    OnlyTheOrder(before, after, keys);
    NoChangesIffEqual(before, after, keys);
    WantsWholeList(before, after);
    WholeOrder(after, before);
  }

  // ---- Several at once ----

  // The step the other way round.
  function Back(s: RowStep): RowStep
  {
    match s
    case Row(before, after, beforeAt, afterAt, beforeRows, afterRows) => Row(after, before, afterAt, beforeAt, afterRows, beforeRows)
    case Order(rowsBefore, rowsAfter) => Order(rowsAfter, rowsBefore)
  }

  function BackAll(steps: seq<RowStep>): (r: seq<RowStep>)
    ensures |r| == |steps| && forall i | 0 <= i < |steps| :: r[i] == Back(steps[i])
  {
    seq(|steps|, i requires 0 <= i < |steps| => Back(steps[i]))
  }

  // Reapplying a step is taking it back the other way round.
  lemma ReapplyIsBack(rows: seq<Item>, s: RowStep)
    ensures Reapply(rows, s) == Revert(rows, Back(s))
  {
  }

  /** reapplyChange's steps of one list. */
  function ReapplyAll(rows: seq<Item>, steps: seq<RowStep>): Outcome
    decreases |steps|
  {
    if steps == [] then Rows(rows, false)
    else
      var r := Reapply(rows, steps[0]);
      if r == Refused then Refused else ReapplyAll(r.rows, steps[1..])
  }

  lemma {:induction false} ReapplyAllIsBack(rows: seq<Item>, steps: seq<RowStep>)
    ensures ReapplyAll(rows, steps) == RevertAll(rows, BackAll(steps))
    decreases |steps|
  {
    if steps != [] {
      ReapplyIsBack(rows, steps[0]);
      assert BackAll(steps)[1..] == BackAll(steps[1..]);
      var r := Reapply(rows, steps[0]);
      if r.Rows? { ReapplyAllIsBack(r.rows, steps[1..]); }
    }
  }

  lemma BackOne(s: RowStep)
    ensures WantOf(Back(s)) == HaveOf(s) && HaveOf(Back(s)) == WantOf(s)
  {
  }

  lemma {:induction false} BackCounts(steps: seq<RowStep>)
    ensures Wants(BackAll(steps)) == Haves(steps) && Haves(BackAll(steps)) == Wants(steps)
  {
    var back := BackAll(steps);
    if steps != [] {
      BackOne(steps[0]);
      BackCounts(steps[1..]);
      assert back[1..] == BackAll(steps[1..]);
      assert Wants(back) == WantOf(back[0]) + Wants(back[1..]);
      assert Haves(back) == HaveOf(back[0]) + Haves(back[1..]);
    }
  }

  // Taking back the first of the steps leaves a list midway to the rest.
  lemma {:induction false} MidwayPrefix(rows: seq<Item>, before: seq<Item>, kept: multiset<Json>, a: seq<RowStep>, b: seq<RowStep>)
    requires Midway(rows, before, kept, a + b)
    ensures var r := RevertAll(rows, a); r.Rows? && Counted(r.rows) == kept + Wants(a) + Haves(b)
    decreases |a|
  {
    if a == [] {
      assert a + b == b;
    } else {
      var all := a + b;
      assert all[1..] == a[1..] + b && all[0] == a[0];
      RevertOne(rows, before, kept, all);
      var r := Revert(rows, a[0]);
      MidwayAfter(rows, r.rows, before, kept, all);
      MidwayPrefix(r.rows, before, kept + WantOf(a[0]), a[1..], b);
      Regroup(kept, WantOf(a[0]), Wants(a[1..]));
    }
  }

  // No row that a revert of the steps brings back has the key of one it only takes away.
  ghost predicate AddedApart(steps: seq<RowStep>)
  {
    forall i, c | 0 <= i < |steps| && BringsBack(Back(steps[i])) && c in Wants(steps) :: KeyOf(c) != RowKey(steps[i].after.value)
  }

  lemma StepsAddedApart(before: seq<Item>, after: seq<Item>, keys: seq<Keys>)
    requires KeyFirst(before, after, keys) && UniqueKeys(before) && UniqueKeys(after)
    ensures AddedApart(RowStepsOf(before, after, keys))
  {
    var steps, m, p := RowStepsOf(before, after, keys), MatchOf(before, after, keys), KeptPass(before, after);
    forall i, c | 0 <= i < |steps| && BringsBack(Back(steps[i])) && c in Wants(steps) ensures KeyOf(c) != RowKey(steps[i].after.value) {
      StepsFit(before, after, keys, steps[i]);
      var a :| 0 <= a < |after| && a in m.added && steps[i] == StepAt(before, after, -1, a);
      var b := WantedWasFree(before, after, keys, c);
      if keys != [] && keys[0] == Keys(RowKeys(before), RowKeys(after)) {
        EditedPairsFit(Pairing([], p.freeBefore, p.freeAfter), keys);
        AddedPairsFit(Pairing([], p.freeBefore, p.freeAfter), keys);
        assert keys[0].before[b] == RowKey(before[b]) && keys[0].after[a] == RowKey(after[a]);
      } else {
        assert RowKey(before[b]) == None;
      }
    }
  }

  lemma BackProper(before: seq<Item>, after: seq<Item>, keys: seq<Keys>, s: RowStep)
    requires NoNulls(after) && s in RowStepsOf(before, after, keys)
    ensures Proper(Back(s), after)
  {
    StepsFit(before, after, keys, s);
  }

  lemma BackKeysApart(all: seq<RowStep>, some: seq<RowStep>)
    requires AddedApart(all) && (forall i | 0 <= i < |some| :: some[i] in all) && Wants(some) <= Wants(all)
    ensures KeysApart(BackAll(some))
  {
    var back := BackAll(some);
    BackCounts(some);
    forall i, c | 0 <= i < |back| && BringsBack(back[i]) && c in Haves(back) ensures KeyOf(c) != RowKey(back[i].before.value) {
      KeyApartAt(all, some[i], c);
    }
  }

  lemma KeyApartAt(all: seq<RowStep>, s: RowStep, c: Json)
    requires AddedApart(all) && s in all && BringsBack(Back(s)) && c in Wants(all)
    ensures KeyOf(c) != RowKey(Back(s).before.value)
  {
    var j :| 0 <= j < |all| && all[j] == s;
  }

  lemma BackSeparate(some: seq<RowStep>, rest: seq<RowStep>)
    requires Separate(some + rest)
    ensures Separate(BackAll(some))
  {
    StepsConcat(some, rest);
    BackCounts(some);
    assert Wants(some) <= Wants(some + rest) && Haves(some) <= Haves(some + rest);
  }

  lemma BackAllProper(before: seq<Item>, after: seq<Item>, keys: seq<Keys>, some: seq<RowStep>)
    requires NoNulls(after) && forall i | 0 <= i < |some| :: some[i] in RowStepsOf(before, after, keys)
    ensures forall i | 0 <= i < |some| :: Proper(BackAll(some)[i], after)
  {
    forall i | 0 <= i < |some| ensures Proper(BackAll(some)[i], after) {
      BackProper(before, after, keys, some[i]);
    }
  }

  lemma SomeAreListed(all: seq<RowStep>, some: seq<RowStep>, rest: seq<RowStep>)
    requires multiset(some + rest) == multiset(all)
    ensures (forall i | 0 <= i < |some| :: some[i] in all) && Wants(some) <= Wants(all)
  {
    AnyOrderCounts(some + rest, all);
    StepsConcat(some, rest);
    InAnyOrder(all, some + rest);
    forall i | 0 <= i < |some| ensures some[i] in all {
      assert some[i] == (some + rest)[i];
    }
  }

  // Where the list is once some of the steps are taken back, on the way back to the saved one.
  lemma MidwayBack(rows: seq<Item>, before: seq<Item>, after: seq<Item>, keys: seq<Keys>, kept: multiset<Json>, some: seq<RowStep>, rest: seq<RowStep>)
    requires KeyFirst(before, after, keys) && UniqueKeys(before) && UniqueKeys(after) && NoNulls(after)
    requires multiset(some + rest) == multiset(RowStepsOf(before, after, keys)) && Separate(some + rest)
    requires Counted(rows) == kept + Wants(some) + Haves(rest) && Counted(after) == kept + (Haves(some) + Haves(rest))
    ensures Midway(rows, after, kept + Haves(rest), BackAll(some))
  {
    var all := RowStepsOf(before, after, keys);
    BackCounts(some);
    Swapped(kept, Wants(some), Haves(rest));
    Swapped(kept, Haves(some), Haves(rest));
    Regroup(kept, Haves(some), Haves(rest));
    BackSeparate(some, rest);
    StepsAddedApart(before, after, keys);
    SomeAreListed(all, some, rest);
    BackAllProper(before, after, keys, some);
    BackKeysApart(all, some);
    KeysOfCounted(after);
  }

  /** Whichever of a list's changes are taken back, in whatever order, undoing those gives the saved rows again. */
  lemma UndoingRows(before: seq<Item>, after: seq<Item>, keys: seq<Keys>, some: seq<RowStep>, rest: seq<RowStep>)
    requires KeysFor(keys, before, after) && KeyFirst(before, after, keys) && UniqueKeys(before) && UniqueKeys(after)
    requires NoNulls(before) && NoNulls(after)
    requires multiset(some + rest) == multiset(RowStepsOf(before, after, keys))
    ensures var r := RevertAll(after, some);
            r.Rows? && var u := ReapplyAll(r.rows, some); u.Rows? && Counted(u.rows) == Counted(after)
  {
    var all, m := RowStepsOf(before, after, keys), MatchOf(before, after, keys);
    var kept := Firsts(m.kept, before);
    AnyOrderCounts(some + rest, all);
    StepsCount(before, after, keys);
    MatchMeaning(before, after, keys);
    StepsSeparate(before, after, keys);
    AnyOrderFits(before, after, keys, some + rest);
    KeysOfCounted(before);
    MidwayPrefix(after, before, kept, some, rest);
    var r := RevertAll(after, some);
    StepsConcat(some, rest);
    MidwayBack(r.rows, before, after, keys, kept, some, rest);
    RevertingSteps(r.rows, after, kept + Haves(rest), BackAll(some));
    ReapplyAllIsBack(r.rows, some);
  }
}

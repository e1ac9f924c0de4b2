/** The steps that tell two row lists apart, taken back one at a time against rows that move meanwhile. */
module RowSteps {
  import opened Common
  import opened Sorting
  import opened Json
  import opened RowMatch

  // One row that went, came or changed; or the order of the rows both lists have. beforeRows is the list the row was
  // in, to compare counts with.
  datatype RowStep =
    | Row(before: Option<Item>, after: Option<Item>, beforeAt: int, afterAt: int, beforeRows: seq<Item>, afterRows: seq<Item>)
    | Order(rowsBefore: seq<Item>, rowsAfter: seq<Item>)

  function Counted(rows: seq<Item>): multiset<Json>
  {
    multiset(Classes(rows))
  }

  // ---- The public key of a row ----

  function KeyOf(form: Json): Option<string>
  {
    if form.Obj? && "public_key" in form.fields && form.fields["public_key"].Str? && form.fields["public_key"].text != ""
    then Some(form.fields["public_key"].text) else None
  }

  // A canonical form has the key of its row.
  lemma KeyOfCanon(row: Json)
    ensures KeyOf(Canon(Some(row))) == KeyOf(row)
  {
    if row.Obj? && "public_key" in row.fields {
      var v, s := row.fields["public_key"], Strip(row);
      assert v.Str? ==> Strip(v) == v;
      assert "public_key" in s.fields <==> !EmptyValue(Strip(v));
      assert "public_key" in s.fields ==> s.fields["public_key"] == Strip(v);
    }
  }

  function RowKey(row: Item): Option<string>
  {
    KeyOf(row.form)
  }

  // ---- Moving one row ----

  // countOf.
  function CountOf(rows: seq<Item>, row: Item): nat
  {
    if rows == [] then 0 else CountOf(rows[..|rows| - 1], row) + if Class(rows[|rows| - 1]) == Class(row) then 1 else 0
  }

  // findIndex of a row alike; the length when there is none.
  function FindAlike(rows: seq<Item>, row: Item, i: nat): (r: nat)
    requires i <= |rows|
    ensures i <= r <= |rows| && (r < |rows| ==> Class(rows[r]) == Class(row))
    ensures r == |rows| ==> forall k | i <= k < |rows| :: Class(rows[k]) != Class(row)
    decreases |rows| - i
  {
    if i == |rows| || Class(rows[i]) == Class(row) then i else FindAlike(rows, row, i + 1)
  }

  predicate KeyTaken(rows: seq<Item>, key: Option<string>)
  {
    key.Some? && exists i | 0 <= i < |rows| :: RowKey(rows[i]) == key
  }

  datatype Outcome = Rows(rows: seq<Item>, changed: bool) | Refused

  function Insert(rows: seq<Item>, at: int, row: Item): seq<Item>
  {
    var i := if at < 0 then 0 else if at < |rows| then at else |rows|;
    rows[..i] + [row] + rows[i..]
  }

  /** moveRow, once the list is there: from have to want, want belonging at wantAt of wantRows. Reading the key of a
      null row throws as well. */
  function MoveRow(rows: seq<Item>, have: Option<Item>, want: Option<Item>, wantAt: int, wantRows: seq<Item>): Outcome
  {
    if have == None && want == None then Rows(rows, false)
    else if have == None then
      if CountOf(rows, want.value) >= CountOf(wantRows, want.value) then Rows(rows, false)
      else if want.value.json == Null || KeyTaken(rows, RowKey(want.value)) then Refused
      else Rows(Insert(rows, wantAt, want.value), true)
    else if want == None then
      if CountOf(rows, have.value) <= CountOf(wantRows, have.value) then Rows(rows, false)
      else
        var i := FindAlike(rows, have.value, 0);
        if i == |rows| then Rows(rows, true) else Rows(rows[..i] + rows[i + 1..], true)
    else
      var i := FindAlike(rows, have.value, 0);
      if i < |rows| then Rows(rows[i := want.value], true)
      else if FindAlike(rows, want.value, 0) < |rows| then Rows(rows, false)
      else Refused
  }

  lemma {:induction false} CountIsCounted(rows: seq<Item>, row: Item)
    ensures CountOf(rows, row) == Counted(rows)[Class(row)]
  {
    if rows != [] {
      var before := rows[..|rows| - 1];
      CountIsCounted(before, row);
      assert Classes(rows) == Classes(before) + [Class(rows[|rows| - 1])];
    }
  }

  lemma CountedAround(a: seq<Item>, row: Item, b: seq<Item>)
    ensures Counted(a + [row] + b) == Counted(a + b) + multiset{Class(row)}
  {
    assert Classes(a + [row] + b) == Classes(a) + [Class(row)] + Classes(b);
    assert Classes(a + b) == Classes(a) + Classes(b);
  }

  lemma InsertCounted(rows: seq<Item>, at: int, row: Item)
    ensures Counted(Insert(rows, at, row)) == Counted(rows) + multiset{Class(row)}
  {
    var i := if at < 0 then 0 else if at < |rows| then at else |rows|;
    CountedAround(rows[..i], row, rows[i..]);
    assert rows[..i] + rows[i..] == rows;
  }

  lemma RemoveCounted(rows: seq<Item>, i: nat)
    requires i < |rows|
    ensures Counted(rows) == Counted(rows[..i] + rows[i + 1..]) + multiset{Class(rows[i])}
  {
    CountedAround(rows[..i], rows[i], rows[i + 1..]);
    assert rows == rows[..i] + [rows[i]] + rows[i + 1..];
  }

  lemma ReplaceCounted(rows: seq<Item>, i: nat, row: Item)
    requires i < |rows|
    ensures Counted(rows[i := row]) + multiset{Class(rows[i])} == Counted(rows) + multiset{Class(row)}
  {
    RemoveCounted(rows, i);
    CountedAround(rows[..i], row, rows[i + 1..]);
    assert rows[i := row] == rows[..i] + [row] + rows[i + 1..];
  }

  lemma ClassIn(rows: seq<Item>, c: Json)
    ensures c in Counted(rows) <==> exists i | 0 <= i < |rows| :: Class(rows[i]) == c
  {
    assert c in Counted(rows) <==> c in Classes(rows);
    if i :| 0 <= i < |rows| && Class(rows[i]) == c {
      assert Classes(rows)[i] == c;
    }
  }

  // ---- Putting rows in an order ----

  // Which slots the wanted rows claim, each the first unclaimed row alike; and the rows, in the order wanted.
  datatype Claims = Claims(unclaimed: seq<Option<Json>>, rows: seq<Item>, slots: seq<nat>)

  function FirstUnclaimed(unclaimed: seq<Option<Json>>, c: Json, i: nat): (r: nat)
    requires i <= |unclaimed|
    ensures i <= r <= |unclaimed| && (r < |unclaimed| ==> unclaimed[r] == Some(c))
    decreases |unclaimed| - i
  {
    if i == |unclaimed| || unclaimed[i] == Some(c) then i else FirstUnclaimed(unclaimed, c, i + 1)
  }

  function ClaimAll(rows: seq<Item>, wanted: seq<Item>): (c: Claims)
    ensures |c.unclaimed| == |rows| && |c.rows| == |c.slots|
  {
    if wanted == [] then Claims(Somes(Classes(rows)), [], [])
    else
      var c, row := ClaimAll(rows, wanted[..|wanted| - 1]), wanted[|wanted| - 1];
      var i := FirstUnclaimed(c.unclaimed, Class(row), 0);
      if i == |rows| then c else Claims(c.unclaimed[i := None], c.rows + [row], c.slots + [i])
  }

  // The slots below n in ascending order.
  function Ascending(slots: set<nat>, n: nat): (r: seq<nat>)
    ensures forall i | 0 <= i < |r| :: r[i] < n && r[i] in slots
    ensures forall i, j | 0 <= i < j < |r| :: r[i] < r[j]
  {
    if n == 0 then [] else Ascending(slots, n - 1) + if n - 1 in slots then [n - 1] else []
  }

  // The first n rows, with the rows of order in the slots, in turn.
  function Placed(rows: seq<Item>, slots: set<nat>, order: seq<Item>, n: nat): (r: seq<Item>)
    requires n <= |rows|
    ensures |r| == n
  {
    if n == 0 then []
    else
      var turn := |Ascending(slots, n - 1)|;
      Placed(rows, slots, order, n - 1) + [if n - 1 in slots && turn < |order| then order[turn] else rows[n - 1]]
  }

  function Members(slots: seq<nat>): set<nat>
  {
    set i | i in slots
  }

  /** setRowOrder: the wanted rows, in the order wanted, in the slots they occupy. */
  function SetRowOrder(rows: seq<Item>, wanted: seq<Item>): (r: seq<Item>)
    ensures |r| == |rows|
  {
    var c := ClaimAll(rows, wanted);
    Placed(rows, Members(c.slots), c.rows, |rows|)
  }

  // ---- No row moves in or out ----

  predicate SlotsFit(rows: seq<Item>, c: Claims)
  {
    && |c.unclaimed| == |rows|
    && (forall i | 0 <= i < |c.slots| :: c.slots[i] < |rows| && c.unclaimed[c.slots[i]] == None)
    && (forall i, j | 0 <= i < j < |c.slots| :: c.slots[i] != c.slots[j])
    && (forall i | 0 <= i < |rows| && c.unclaimed[i].Some? :: c.unclaimed[i] == Some(Class(rows[i])))
  }

  lemma {:induction false} ClaimsFit(rows: seq<Item>, wanted: seq<Item>)
    ensures SlotsFit(rows, ClaimAll(rows, wanted))
  {
    if wanted != [] {
      ClaimsFit(rows, wanted[..|wanted| - 1]);
    }
  }

  // What the claimed rows and the claimed slots hold is the same.
  lemma {:induction false} ClaimsCounted(rows: seq<Item>, wanted: seq<Item>)
    ensures var c := ClaimAll(rows, wanted); Counted(c.rows) == FreeClasses(rows, Members(c.slots))
  {
    if wanted == [] {
      PickNone(rows, |rows|);
    } else {
      var c, row := ClaimAll(rows, wanted[..|wanted| - 1]), wanted[|wanted| - 1];
      ClaimsFit(rows, wanted[..|wanted| - 1]);
      ClaimsCounted(rows, wanted[..|wanted| - 1]);
      var i := FirstUnclaimed(c.unclaimed, Class(row), 0);
      if i < |rows| {
        OneMoreSlot(rows, c.slots, i);
        Snoc(c.rows, row);
      }
    }
  }

  lemma OneMoreSlot(rows: seq<Item>, slots: seq<nat>, i: nat)
    requires i < |rows| && i !in slots
    ensures FreeClasses(rows, Members(slots + [i])) == FreeClasses(rows, Members(slots)) + multiset{Class(rows[i])}
  {
    assert Members(slots + [i]) - {i} == Members(slots);
    PickWithout(rows, Members(slots + [i]), i, |rows|);
  }

  lemma {:induction false} PickNone(rows: seq<Item>, n: nat)
    requires n <= |rows|
    ensures Pick(rows, Members([]), n) == multiset{}
  {
    if n > 0 {
      PickNone(rows, n - 1);
    }
  }

  lemma {:induction false} AscendingHas(slots: set<nat>, n: nat, x: nat)
    ensures x in Ascending(slots, n) <==> x < n && x in slots
  {
    if n > 0 {
      AscendingHas(slots, n - 1, x);
    }
  }

  // There are as many slots as claimed rows.
  lemma {:induction false} AscendingSize(slots: seq<nat>, n: nat)
    requires (forall i | 0 <= i < |slots| :: slots[i] < n) && forall i, j | 0 <= i < j < |slots| :: slots[i] != slots[j]
    ensures |Ascending(Members(slots), n)| == |slots|
  {
    var up := Ascending(Members(slots), n);
    forall x: nat ensures x in up <==> x in slots {
      AscendingHas(Members(slots), n, x);
    }
    SameSize(up, slots);
  }

  lemma NoMembers(b: seq<nat>)
    requires forall x: nat :: x !in b
    ensures b == []
  {
    var m: multiset<nat> := multiset(b);
    forall x: nat ensures m[x] == 0 {
      assert x in b <==> x in m;
    }
    assert m == multiset{};
    assert |b| == |m|;
  }

  lemma {:induction false} SameSize(a: seq<nat>, b: seq<nat>)
    requires (forall i, j | 0 <= i < j < |a| :: a[i] != a[j]) && (forall i, j | 0 <= i < j < |b| :: b[i] != b[j])
    requires forall x: nat :: x in a <==> x in b
    ensures |a| == |b|
    decreases |a|
  {
    if a == [] {
      NoMembers(b);
    } else {
      assert a[0] in b;
      var k :| 0 <= k < |b| && b[k] == a[0];
      var rest := b[..k] + b[k + 1..];
      forall x: nat ensures x in a[1..] <==> x in rest {
        assert x in a <==> x == a[0] || x in a[1..];
        assert x in b <==> x == b[k] || x in rest;
        assert a[0] !in a[1..] && b[k] !in rest;
      }
      SameSize(a[1..], rest);
    }
  }

  lemma Balance(a: multiset<Json>, b: multiset<Json>, c: multiset<Json>, d: multiset<Json>, x: multiset<Json>, y: multiset<Json>)
    requires a + b == c + d
    ensures (a + x) + (b + y) == (c + y) + (d + x)
  {
    forall j ensures ((a + x) + (b + y))[j] == ((c + y) + (d + x))[j] {
      assert (a + b)[j] == (c + d)[j];
    }
  }

  predicate PlacedBalances(rows: seq<Item>, slots: set<nat>, order: seq<Item>, n: nat)
    requires n <= |rows| && |Ascending(slots, n)| <= |order|
  {
    Counted(Placed(rows, slots, order, n)) + Pick(rows, slots, n) == Counted(rows[..n]) + Counted(order[..|Ascending(slots, n)|])
  }

  lemma PlacedInSlot(rows: seq<Item>, slots: set<nat>, order: seq<Item>, n: nat)
    requires n < |rows| && n in slots && |Ascending(slots, n)| < |order| && PlacedBalances(rows, slots, order, n)
    ensures |Ascending(slots, n + 1)| == |Ascending(slots, n)| + 1 && PlacedBalances(rows, slots, order, n + 1)
  {
    var turn, row, before := |Ascending(slots, n)|, rows[n], Placed(rows, slots, order, n);
    Snoc(rows[..n], row);
    assert rows[..n + 1] == rows[..n] + [row];
    Snoc(order[..turn], order[turn]);
    assert order[..turn + 1] == order[..turn] + [order[turn]];
    Snoc(before, order[turn]);
    Balance(Counted(before), Pick(rows, slots, n), Counted(rows[..n]), Counted(order[..turn]), multiset{Class(order[turn])}, multiset{Class(row)});
  }

  lemma PlacedOutside(rows: seq<Item>, slots: set<nat>, order: seq<Item>, n: nat)
    requires n < |rows| && n !in slots && |Ascending(slots, n)| <= |order| && PlacedBalances(rows, slots, order, n)
    ensures |Ascending(slots, n + 1)| == |Ascending(slots, n)| && PlacedBalances(rows, slots, order, n + 1)
  {
    var turn, row, before := |Ascending(slots, n)|, rows[n], Placed(rows, slots, order, n);
    var x := multiset{Class(row)};
    Snoc(rows[..n], row);
    assert rows[..n + 1] == rows[..n] + [row];
    Snoc(before, row);
    assert Pick(rows, slots, n + 1) == Pick(rows, slots, n);
    Swapped(Counted(before), x, Pick(rows, slots, n));
    Swapped(Counted(rows[..n]), x, Counted(order[..turn]));
  }

  lemma {:induction false} PlacedCounted(rows: seq<Item>, slots: set<nat>, order: seq<Item>, n: nat)
    requires n <= |rows| && |Ascending(slots, n)| <= |order|
    ensures PlacedBalances(rows, slots, order, n)
  {
    if n > 0 {
      var k := n - 1;
      PlacedCounted(rows, slots, order, k);
      if k in slots {
        PlacedInSlot(rows, slots, order, k);
      } else {
        PlacedOutside(rows, slots, order, k);
      }
      assert k + 1 == n;
    }
  }

  lemma Snoc(rows: seq<Item>, row: Item)
    ensures Counted(rows + [row]) == Counted(rows) + multiset{Class(row)}
  {
    CountedAround(rows, row, []);
    assert rows + [row] + [] == rows + [row] && rows + [] == rows;
  }

  lemma Cancel(a: multiset<Json>, b: multiset<Json>, c: multiset<Json>)
    requires a + c == b + c
    ensures a == b
  {
    assert a == (a + c) - c;
    assert b == (b + c) - c;
  }

  /** Putting rows in an order moves no row in or out. */
  lemma OrderCounted(rows: seq<Item>, wanted: seq<Item>)
    ensures Counted(SetRowOrder(rows, wanted)) == Counted(rows)
  {
    var c := ClaimAll(rows, wanted);
    var some := Members(c.slots);
    ClaimsFit(rows, wanted);
    ClaimsCounted(rows, wanted);
    AscendingSize(c.slots, |rows|);
    PlacedCounted(rows, some, c.rows, |rows|);
    assert rows[..|rows|] == rows && c.rows[..|c.rows|] == c.rows;
    Cancel(Counted(SetRowOrder(rows, wanted)), Counted(rows), FreeClasses(rows, some));
  }

  // ---- In place ----

  lemma {:induction false} AscendingTurn(slots: set<nat>, n: nat, k: nat)
    requires k < |Ascending(slots, n)|
    ensures var x := Ascending(slots, n)[k]; |Ascending(slots, x)| == k && x in slots
  {
    if n - 1 !in slots || k < |Ascending(slots, n - 1)| {
      AscendingTurn(slots, n - 1, k);
    }
  }

  lemma {:induction false} PlacedAt(rows: seq<Item>, slots: set<nat>, order: seq<Item>, n: nat, i: nat)
    requires i < n <= |rows|
    ensures Placed(rows, slots, order, n)[i] ==
            if i in slots && |Ascending(slots, i)| < |order| then order[|Ascending(slots, i)|] else rows[i]
  {
    if i < n - 1 {
      PlacedAt(rows, slots, order, n - 1, i);
    }
  }

  lemma {:induction false} SameAscending(a: seq<nat>, b: seq<nat>)
    requires (forall i, j | 0 <= i < j < |a| :: a[i] < a[j]) && (forall i, j | 0 <= i < j < |b| :: b[i] < b[j])
    requires forall x: nat :: x in a <==> x in b
    ensures a == b
    decreases |a|
  {
    if a == [] {
      NoMembers(b);
    } else {
      assert a[0] in b && b != [] && b[0] in a;
      forall x: nat ensures x in a[1..] <==> x in b[1..] {
        assert x in a <==> x == a[0] || x in a[1..];
        assert x in b <==> x == b[0] || x in b[1..];
      }
      SameAscending(a[1..], b[1..]);
    }
  }

  lemma SortedIsAscending(sorted: seq<nat>, slots: seq<nat>, n: nat)
    requires multiset(sorted) == multiset(slots) && forall i, j | 0 <= i < j < |sorted| :: sorted[i] <= sorted[j]
    requires (forall i | 0 <= i < |slots| :: slots[i] < n) && forall i, j | 0 <= i < j < |slots| :: slots[i] != slots[j]
    ensures sorted == Ascending(Members(slots), n)
  {
    var up := Ascending(Members(slots), n);
    forall x: nat ensures x in sorted <==> x in up {
      AscendingHas(Members(slots), n, x);
      assert x in sorted <==> x in multiset(sorted);
      assert x in slots <==> x in multiset(slots);
    }
    forall i, j | 0 <= i < j < |sorted| ensures sorted[i] < sorted[j] {
      if sorted[i] == sorted[j] {
        Twice(sorted, i, j);
        Once(slots, sorted[i]);
      }
    }
    SameAscending(sorted, up);
  }

  // The claiming half of setRowOrder.
  method ClaimSlots(rows: seq<Item>, wanted: seq<Item>) returns (order: seq<Item>, slots: seq<nat>)
    ensures var c := ClaimAll(rows, wanted); order == c.rows && slots == c.slots
    ensures |slots| == |order| && forall i | 0 <= i < |slots| :: slots[i] < |rows|
    ensures forall i, j | 0 <= i < j < |slots| :: slots[i] != slots[j]
  {
    var unclaimed := Somes(Classes(rows));
    order, slots := [], [];
    for n := 0 to |wanted|
      invariant Claims(unclaimed, order, slots) == ClaimAll(rows, wanted[..n])
    {
      assert wanted[..n + 1][..n] == wanted[..n];
      var c := Class(wanted[n]);
      var i := 0;
      while i < |unclaimed| && unclaimed[i] != Some(c)
        invariant 0 <= i <= |unclaimed| && FirstUnclaimed(unclaimed, c, 0) == FirstUnclaimed(unclaimed, c, i)
      {
        i := i + 1;
      }
      if i < |unclaimed| {
        unclaimed, order, slots := unclaimed[i := None], order + [wanted[n]], slots + [i];
      }
    }
    assert wanted[..|wanted|] == wanted;
    ClaimsFit(rows, wanted);
  }

  // The placing half.
  method PlaceSlots(rows: array<Item>, order: seq<Item>, slots: seq<nat>) returns (moved: bool)
    requires |slots| == |order| && forall i | 0 <= i < |slots| :: slots[i] < rows.Length
    requires forall i, j | 0 <= i < j < |slots| :: slots[i] != slots[j]
    modifies rows
    ensures forall k | 0 <= k < |slots| :: rows[slots[k]] == order[k]
    ensures forall i | 0 <= i < rows.Length && i !in slots :: rows[i] == old(rows[i])
    ensures moved <==> exists i | 0 <= i < rows.Length :: Class(rows[i]) != Class(old(rows[i]))
  {
    moved := false;
    for n := 0 to |order|
      invariant forall k | 0 <= k < n :: rows[slots[k]] == order[k]
      invariant forall i | 0 <= i < rows.Length && i !in slots[..n] :: rows[i] == old(rows[i])
      invariant moved <==> exists i | 0 <= i < rows.Length :: Class(rows[i]) != Class(old(rows[i]))
    {
      var slot := slots[n];
      assert slot !in slots[..n] && slots[..n + 1] == slots[..n] + [slot];
      ghost var other: int := -1;
      if moved {
        other :| 0 <= other < rows.Length && Class(rows[other]) != Class(old(rows[other]));
      }
      if Class(rows[slot]) != Class(order[n]) {
        moved, other := true, slot;
      }
      rows[slot] := order[n];
      assert moved ==> Class(rows[other]) != Class(old(rows[other]));
    }
    assert slots[..|order|] == slots;
  }

  /** setRowOrder, in place. */
  method SetOrderInPlace(rows: array<Item>, wanted: seq<Item>) returns (moved: bool)
    modifies rows
    ensures rows[..] == SetRowOrder(old(rows[..]), wanted)
    ensures moved <==> Classes(rows[..]) != Classes(old(rows[..]))
  {
    ghost var was := rows[..];
    var order, slots := ClaimSlots(rows[..], wanted);
    var up := SortSlots(slots, rows.Length);
    moved := PlaceSlots(rows, order, up);
    AllPlaced(was, rows[..], slots, order);
    if i :| 0 <= i < rows.Length && Class(rows[i]) != Class(was[i]) {
      assert Classes(rows[..])[i] != Classes(was)[i];
    }
  }

  method SortSlots(slots: seq<nat>, ghost n: nat) returns (up: seq<nat>)
    requires (forall i | 0 <= i < |slots| :: slots[i] < n) && forall i, j | 0 <= i < j < |slots| :: slots[i] != slots[j]
    ensures up == Ascending(Members(slots), n) && |up| == |slots|
  {
    var sorted := new nat[|slots|](i requires 0 <= i < |slots| => slots[i]);
    assert sorted[..] == slots;
    SortInPlace(sorted);
    SortedIsAscending(sorted[..], slots, n);
    AscendingSize(slots, n);
    up := sorted[..];
  }

  lemma AllPlaced(was: seq<Item>, now: seq<Item>, slots: seq<nat>, order: seq<Item>)
    requires |now| == |was| && |Ascending(Members(slots), |was|)| == |order|
    requires var up := Ascending(Members(slots), |was|);
             (forall k | 0 <= k < |up| :: now[up[k]] == order[k]) && forall i | 0 <= i < |was| && i !in up :: now[i] == was[i]
    ensures now == Placed(was, Members(slots), order, |was|)
  {
    var some := Members(slots);
    var up := Ascending(some, |was|);
    forall i | 0 <= i < |was| ensures now[i] == Placed(was, some, order, |was|)[i] {
      PlacedAt(was, some, order, |was|, i);
      AscendingHas(some, |was|, i);
      if i in some {
        var k :| 0 <= k < |up| && up[k] == i;
        AscendingTurn(some, |was|, k);
      }
    }
  }
}

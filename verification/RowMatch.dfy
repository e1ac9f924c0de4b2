/** Pairing the rows of two lists, as the change list does before it says what changed. */
module RowMatch {
  import opened Common
  import opened Json

  // A row with its canonical form, which is all that rows are compared by.
  datatype Item = Item(json: Json, form: Json)

  function Class(row: Item): Json
  {
    row.form
  }

  function Classes(rows: seq<Item>): (r: seq<Json>)
    ensures |r| == |rows| && forall i | 0 <= i < |rows| :: r[i] == Class(rows[i])
  {
    seq(|rows|, i requires 0 <= i < |rows| => Class(rows[i]))
  }

  // ---- One pass ----

  // The pairs so far, and the rows of each list still free.
  datatype Pairing = Pairing(pairs: seq<(nat, nat)>, freeBefore: set<nat>, freeAfter: set<nat>)

  function Indexes(n: nat): (r: set<nat>)
    ensures forall i :: i in r <==> 0 <= i < n
  {
    if n == 0 then {} else Indexes(n - 1) + {n - 1}
  }

  // The first free row of the after list with this key, from position a on.
  function FirstFree<K(==)>(key: K, keys: seq<Option<K>>, free: set<nat>, a: nat): (r: Option<nat>)
    requires a <= |keys|
    ensures r.Some? ==> a <= r.value < |keys| && r.value in free && keys[r.value] == Some(key)
    ensures r.Some? ==> forall i | a <= i < r.value && i in free :: keys[i] != Some(key)
    ensures r == None ==> forall i | a <= i < |keys| && i in free :: keys[i] != Some(key)
    decreases |keys| - a
  {
    if a == |keys| then None
    else if a in free && keys[a] == Some(key) then Some(a)
    else FirstFree(key, keys, free, a + 1)
  }

  // What the pass does at row b of the before list.
  function PassAt<K(==)>(p: Pairing, before: seq<Option<K>>, after: seq<Option<K>>, b: nat): Pairing
    requires b < |before|
  {
    if b !in p.freeBefore || before[b] == None then p
    else
      match FirstFree(before[b].value, after, p.freeAfter, 0)
      case None => p
      case Some(a) => Pairing(p.pairs + [(b, a)], p.freeBefore - {b}, p.freeAfter - {a})
  }

  function Pass<K(==)>(p: Pairing, before: seq<Option<K>>, after: seq<Option<K>>, n: nat): Pairing
    requires n <= |before|
  {
    if n == 0 then p else PassAt(Pass(p, before, after, n - 1), before, after, n - 1)
  }

  // matchRows' pass: over the free rows of the before list in order, each taking the first free row with its key.
  method RunPass<K(==)>(p: Pairing, before: seq<Option<K>>, after: seq<Option<K>>) returns (r: Pairing)
    ensures r == Pass(p, before, after, |before|)
  {
    var pairs, freeBefore, freeAfter := p.pairs, p.freeBefore, p.freeAfter;
    for b := 0 to |before|
      invariant Pairing(pairs, freeBefore, freeAfter) == Pass(p, before, after, b)
    {
      if b in freeBefore && before[b].Some? {
        var a := 0;
        while a < |after| && !(a in freeAfter && after[a] == before[b])
          invariant 0 <= a <= |after|
          invariant FirstFree(before[b].value, after, freeAfter, 0) == FirstFree(before[b].value, after, freeAfter, a)
        {
          a := a + 1;
        }
        if a < |after| {
          pairs := pairs + [(b, a)];
          freeBefore := freeBefore - {b};
          freeAfter := freeAfter - {a};
        }
      }
    }
    r := Pairing(pairs, freeBefore, freeAfter);
  }

  // ---- All passes ----

  // The keys of both lists for one pass; None for a key that pairs nothing.
  datatype Keys = Keys(before: seq<Option<string>>, after: seq<Option<string>>)

  predicate KeysFor(keys: seq<Keys>, before: seq<Item>, after: seq<Item>)
  {
    forall i | 0 <= i < |keys| :: |keys[i].before| == |before| && |keys[i].after| == |after|
  }

  function Somes<T>(s: seq<T>): (r: seq<Option<T>>)
    ensures |r| == |s| && forall i | 0 <= i < |s| :: r[i] == Some(s[i])
  {
    seq(|s|, i requires 0 <= i < |s| => Some(s[i]))
  }

  function KeptPass(before: seq<Item>, after: seq<Item>): Pairing
  {
    Pass(Pairing([], Indexes(|before|), Indexes(|after|)), Somes(Classes(before)), Somes(Classes(after)), |before|)
  }

  function EditedPasses(p: Pairing, keys: seq<Keys>): Pairing
  {
    if keys == [] then p
    else
      var q, k := EditedPasses(p, keys[..|keys| - 1]), keys[|keys| - 1];
      Pass(q, k.before, k.after, |k.before|)
  }

  datatype Matching = Matching(kept: seq<(nat, nat)>, edited: seq<(nat, nat)>, removed: set<nat>, added: set<nat>)

  function MatchOf(before: seq<Item>, after: seq<Item>, keys: seq<Keys>): Matching
  {
    var p := KeptPass(before, after);
    var q := EditedPasses(Pairing([], p.freeBefore, p.freeAfter), keys);
    Matching(p.pairs, q.pairs, q.freeBefore, q.freeAfter)
  }

  /** matchRows. */
  method MatchRows(before: seq<Item>, after: seq<Item>, keys: seq<Keys>) returns (m: Matching)
    ensures m == MatchOf(before, after, keys)
  {
    var p := RunPass(Pairing([], Indexes(|before|), Indexes(|after|)), Somes(Classes(before)), Somes(Classes(after)));
    var q := Pairing([], p.freeBefore, p.freeAfter);
    for i := 0 to |keys|
      invariant q == EditedPasses(Pairing([], p.freeBefore, p.freeAfter), keys[..i])
    {
      assert keys[..i + 1][..i] == keys[..i];
      q := RunPass(q, keys[i].before, keys[i].after);
    }
    assert keys[..|keys|] == keys;
    m := Matching(p.pairs, q.pairs, q.freeBefore, q.freeAfter);
  }

  // ---- What a pass keeps ----

  // The classes of the rows in some, up to n.
  function Pick(rows: seq<Item>, some: set<nat>, n: nat): multiset<Json>
    requires n <= |rows|
  {
    if n == 0 then multiset{} else Pick(rows, some, n - 1) + if n - 1 in some then multiset{Class(rows[n - 1])} else multiset{}
  }

  // The classes of the rows of each list that pairs name.
  function Firsts(pairs: seq<(nat, nat)>, rows: seq<Item>): multiset<Json>
  {
    if pairs == [] then multiset{}
    else
      var b := pairs[|pairs| - 1].0;
      Firsts(pairs[..|pairs| - 1], rows) + if b < |rows| then multiset{Class(rows[b])} else multiset{}
  }

  function Seconds(pairs: seq<(nat, nat)>, rows: seq<Item>): multiset<Json>
  {
    if pairs == [] then multiset{}
    else
      var a := pairs[|pairs| - 1].1;
      Seconds(pairs[..|pairs| - 1], rows) + if a < |rows| then multiset{Class(rows[a])} else multiset{}
  }

  lemma {:induction false} PickOthers(rows: seq<Item>, some: set<nat>, b: nat, n: nat)
    requires n <= b && n <= |rows|
    ensures Pick(rows, some - {b}, n) == Pick(rows, some, n)
  {
    if n > 0 {
      PickOthers(rows, some, b, n - 1);
      assert n - 1 in some - {b} <==> n - 1 in some;
    }
  }

  lemma {:induction false} PickWithout(rows: seq<Item>, some: set<nat>, b: nat, n: nat)
    requires b < n <= |rows| && b in some
    ensures Pick(rows, some, n) == Pick(rows, some - {b}, n) + multiset{Class(rows[b])}
  {
    if b == n - 1 {
      PickOthers(rows, some, b, n - 1);
    } else {
      PickWithout(rows, some, b, n - 1);
      var last := if n - 1 in some then multiset{Class(rows[n - 1])} else multiset{};
      Swapped(Pick(rows, some - {b}, n - 1), multiset{Class(rows[b])}, last);
    }
  }

  lemma Swapped(a: multiset<Json>, b: multiset<Json>, c: multiset<Json>)
    ensures a + b + c == a + c + b
  {
  }

  lemma {:induction false} PickAll(rows: seq<Item>, some: set<nat>, n: nat)
    requires n <= |rows| && forall i | 0 <= i < n :: i in some
    ensures Pick(rows, some, n) == multiset(Classes(rows)[..n])
  {
    if n > 0 {
      PickAll(rows, some, n - 1);
      assert Classes(rows)[..n] == Classes(rows)[..n - 1] + [Class(rows[n - 1])];
    }
  }

  function FreeClasses(rows: seq<Item>, free: set<nat>): multiset<Json>
  {
    Pick(rows, free, |rows|)
  }

  // Everything p accounts for, in each list.
  function AllBefore(p: Pairing, before: seq<Item>): multiset<Json>
  {
    Firsts(p.pairs, before) + FreeClasses(before, p.freeBefore)
  }

  function AllAfter(p: Pairing, after: seq<Item>): multiset<Json>
  {
    Seconds(p.pairs, after) + FreeClasses(after, p.freeAfter)
  }

  lemma PassAtAccount<K>(p: Pairing, x: seq<Option<K>>, y: seq<Option<K>>, b: nat, before: seq<Item>, after: seq<Item>)
    requires b < |x| && |x| <= |before| && |y| <= |after|
    ensures var q := PassAt(p, x, y, b); AllBefore(q, before) == AllBefore(p, before) && AllAfter(q, after) == AllAfter(p, after)
  {
    var q := PassAt(p, x, y, b);
    if q != p {
      var a := q.pairs[|p.pairs|].1;
      assert q.pairs[..|q.pairs| - 1] == p.pairs;
      PickWithout(before, p.freeBefore, b, |before|);
      PickWithout(after, p.freeAfter, a, |after|);
      Swapped(Firsts(p.pairs, before), FreeClasses(before, q.freeBefore), multiset{Class(before[b])});
      Swapped(Seconds(p.pairs, after), FreeClasses(after, q.freeAfter), multiset{Class(after[a])});
    }
  }

  /** A pass loses no row: pairs and free rows together stay the same, in both lists. */
  lemma {:induction false} PassAccount<K>(p: Pairing, x: seq<Option<K>>, y: seq<Option<K>>, n: nat, before: seq<Item>, after: seq<Item>)
    requires n <= |x| && |x| <= |before| && |y| <= |after|
    ensures var q := Pass(p, x, y, n); AllBefore(q, before) == AllBefore(p, before) && AllAfter(q, after) == AllAfter(p, after)
  {
    if n > 0 {
      var q := Pass(p, x, y, n - 1);
      PassAccount(p, x, y, n - 1, before, after);
      PassAtAccount(q, x, y, n - 1, before, after);
      assert Pass(p, x, y, n) == PassAt(q, x, y, n - 1);
    }
  }

  // No free row of one list up to n has the key of a free row of the other.
  ghost predicate Apart<K>(freeBefore: set<nat>, freeAfter: set<nat>, before: seq<Option<K>>, after: seq<Option<K>>, n: nat)
  {
    forall b, a | b in freeBefore && a in freeAfter && b < n && b < |before| && a < |after| :: before[b] == None || before[b] != after[a]
  }

  lemma {:induction false} PassApart<K>(p: Pairing, before: seq<Option<K>>, after: seq<Option<K>>, n: nat)
    requires n <= |before|
    ensures var q := Pass(p, before, after, n);
            Apart(q.freeBefore, q.freeAfter, before, after, n) && q.freeBefore <= p.freeBefore && q.freeAfter <= p.freeAfter
  {
    if n > 0 {
      PassApart(p, before, after, n - 1);
    }
  }

  // The pairs a pass adds have equal keys and were free.
  lemma {:induction false} PassPairs<K>(p: Pairing, before: seq<Option<K>>, after: seq<Option<K>>, n: nat)
    requires n <= |before|
    ensures var q := Pass(p, before, after, n);
            && |p.pairs| <= |q.pairs| && q.pairs[..|p.pairs|] == p.pairs
            && forall i | |p.pairs| <= i < |q.pairs| ::
                 && q.pairs[i].0 < n && q.pairs[i].0 in p.freeBefore
                 && q.pairs[i].1 < |after| && q.pairs[i].1 in p.freeAfter
                 && before[q.pairs[i].0].Some? && before[q.pairs[i].0] == after[q.pairs[i].1]
  {
    if n > 0 {
      PassPairs(p, before, after, n - 1);
      PassApart(p, before, after, n - 1);
    }
  }

  // ---- The matching ----

  lemma KeptMeaning(before: seq<Item>, after: seq<Item>)
    ensures var p := KeptPass(before, after);
            && (forall i | 0 <= i < |p.pairs| ::
                  p.pairs[i].0 < |before| && p.pairs[i].1 < |after| && Class(before[p.pairs[i].0]) == Class(after[p.pairs[i].1]))
            && (forall b, a | b in p.freeBefore && a in p.freeAfter :: b < |before| && a < |after| && Class(before[b]) != Class(after[a]))
  {
    var x, y := Somes(Classes(before)), Somes(Classes(after));
    var p0 := Pairing([], Indexes(|before|), Indexes(|after|));
    var p := KeptPass(before, after);
    PassApart(p0, x, y, |before|);
    PassPairs(p0, x, y, |before|);
    forall b, a | b in p.freeBefore && a in p.freeAfter ensures b < |before| && a < |after| && Class(before[b]) != Class(after[a]) {
      assert x[b] == Some(Class(before[b])) && y[a] == Some(Class(after[a]));
    }
  }

  lemma {:induction false} SamePairs(pairs: seq<(nat, nat)>, before: seq<Item>, after: seq<Item>)
    requires forall i | 0 <= i < |pairs| :: pairs[i].0 < |before| && pairs[i].1 < |after| && Class(before[pairs[i].0]) == Class(after[pairs[i].1])
    ensures Firsts(pairs, before) == Seconds(pairs, after)
  {
    if pairs != [] {
      SamePairs(pairs[..|pairs| - 1], before, after);
    }
  }

  lemma {:induction false} EditedAccount(p: Pairing, keys: seq<Keys>, before: seq<Item>, after: seq<Item>)
    requires KeysFor(keys, before, after)
    ensures var q := EditedPasses(p, keys); AllBefore(q, before) == AllBefore(p, before) && AllAfter(q, after) == AllAfter(p, after)
  {
    if keys != [] {
      var rest, k := keys[..|keys| - 1], keys[|keys| - 1];
      EditedAccount(p, rest, before, after);
      PassAccount(EditedPasses(p, rest), k.before, k.after, |k.before|, before, after);
    }
  }

  // What is edited, removed or added was free.
  lemma {:induction false} EditedWereFree(p: Pairing, keys: seq<Keys>)
    requires p.pairs == []
    ensures var q := EditedPasses(p, keys);
            && q.freeBefore <= p.freeBefore && q.freeAfter <= p.freeAfter
            && forall i | 0 <= i < |q.pairs| :: q.pairs[i].0 in p.freeBefore && q.pairs[i].1 in p.freeAfter
  {
    if keys != [] {
      var rest, k := keys[..|keys| - 1], keys[|keys| - 1];
      EditedWereFree(p, rest);
      PassApart(EditedPasses(p, rest), k.before, k.after, |k.before|);
      PassPairs(EditedPasses(p, rest), k.before, k.after, |k.before|);
    }
  }

  lemma KeptAccount(before: seq<Item>, after: seq<Item>)
    ensures AllBefore(KeptPass(before, after), before) == multiset(Classes(before))
    ensures AllAfter(KeptPass(before, after), after) == multiset(Classes(after))
  {
    var p0 := Pairing([], Indexes(|before|), Indexes(|after|));
    PassAccount(p0, Somes(Classes(before)), Somes(Classes(after)), |before|, before, after);
    PickAll(before, Indexes(|before|), |before|);
    PickAll(after, Indexes(|after|), |after|);
    assert Classes(before)[..|before|] == Classes(before) && Classes(after)[..|after|] == Classes(after);
  }

  /** Each list is the kept rows, which are the same in both, with its own edited rows and those it alone has. */
  lemma MatchMeaning(before: seq<Item>, after: seq<Item>, keys: seq<Keys>)
    requires KeysFor(keys, before, after)
    ensures var m := MatchOf(before, after, keys); var kept := Firsts(m.kept, before);
            && multiset(Classes(before)) == kept + (Firsts(m.edited, before) + FreeClasses(before, m.removed))
            && multiset(Classes(after)) == kept + (Seconds(m.edited, after) + FreeClasses(after, m.added))
  {
    var p := KeptPass(before, after);
    KeptAccount(before, after);
    KeptMeaning(before, after);
    SamePairs(p.pairs, before, after);
    EditedAccount(Pairing([], p.freeBefore, p.freeAfter), keys, before, after);
  }

  // ---- The first key ----

  // After the first pass by keys, no removed row has the key of an added or edited row, when keys are distinct.
  ghost predicate DistinctKeys(keys: seq<Option<string>>)
  {
    forall i, j | 0 <= i < j < |keys| && keys[i].Some? :: keys[i] != keys[j]
  }

  lemma {:induction false} EditedPairsFit(p: Pairing, keys: seq<Keys>)
    requires p.pairs == [] && keys != [] && DistinctKeys(keys[0].before)
    ensures var q, k := EditedPasses(p, keys), keys[0];
            && (forall b, a | b in q.freeBefore && b < |k.before| && k.before[b].Some? && a < |k.after| && a in q.freeAfter :: k.before[b] != k.after[a])
            && (forall b, i | b in q.freeBefore && b < |k.before| && k.before[b].Some? && 0 <= i < |q.pairs| && q.pairs[i].1 < |k.after| ::
                  k.before[b] != k.after[q.pairs[i].1])
            && (forall b | b in q.freeBefore :: b in p.freeBefore)
    decreases |keys|
  {
    var k := keys[0];
    if |keys| == 1 {
      assert keys[..0] == [];
      PassApart(p, k.before, k.after, |k.before|);
      PassPairs(p, k.before, k.after, |k.before|);
      var q := Pass(p, k.before, k.after, |k.before|);
      assert EditedPasses(p, keys) == q;
      PassFreesNoPair(p, k.before, k.after, |k.before|);
    } else {
      var before, last := keys[..|keys| - 1], keys[|keys| - 1];
      EditedPairsFit(p, before);
      var q := EditedPasses(p, before);
      PassApart(q, last.before, last.after, |last.before|);
      PassPairs(q, last.before, last.after, |last.before|);
    }
  }

  // Nor has an added row the key of an edited one.
  lemma {:induction false} AddedPairsFit(p: Pairing, keys: seq<Keys>)
    requires p.pairs == [] && keys != [] && DistinctKeys(keys[0].before) && DistinctKeys(keys[0].after)
    ensures var q, k := EditedPasses(p, keys), keys[0];
            forall a, i | a in q.freeAfter && a < |k.after| && k.after[a].Some? && 0 <= i < |q.pairs| && q.pairs[i].0 < |k.before| ::
              k.before[q.pairs[i].0] != k.after[a]
    decreases |keys|
  {
    var k := keys[0];
    if |keys| == 1 {
      assert keys[..0] == [];
      PassPairs(p, k.before, k.after, |k.before|);
      PassTakesPair(p, k.before, k.after, |k.before|);
      assert EditedPasses(p, keys) == Pass(p, k.before, k.after, |k.before|);
    } else {
      var before, last := keys[..|keys| - 1], keys[|keys| - 1];
      var q := EditedPasses(p, before);
      EditedPairsFit(p, before);
      AddedPairsFit(p, before);
      PassApart(q, last.before, last.after, |last.before|);
      PassPairs(q, last.before, last.after, |last.before|);
      LaterPairsFit(q, Pass(q, last.before, last.after, |last.before|), k);
    }
  }

  // When it holds after some passes, and every later pair was free then, it holds later.
  lemma LaterPairsFit(q: Pairing, r: Pairing, k: Keys)
    requires |q.pairs| <= |r.pairs| && r.pairs[..|q.pairs|] == q.pairs && r.freeAfter <= q.freeAfter
    requires forall i | |q.pairs| <= i < |r.pairs| :: r.pairs[i].0 in q.freeBefore
    requires forall b, a | b in q.freeBefore && b < |k.before| && k.before[b].Some? && a < |k.after| && a in q.freeAfter :: k.before[b] != k.after[a]
    requires forall a, i | a in q.freeAfter && a < |k.after| && k.after[a].Some? && 0 <= i < |q.pairs| && q.pairs[i].0 < |k.before| ::
               k.before[q.pairs[i].0] != k.after[a]
    ensures forall a, i | a in r.freeAfter && a < |k.after| && k.after[a].Some? && 0 <= i < |r.pairs| && r.pairs[i].0 < |k.before| ::
              k.before[r.pairs[i].0] != k.after[a]
  {
    forall a, i | a in r.freeAfter && a < |k.after| && k.after[a].Some? && 0 <= i < |r.pairs| && r.pairs[i].0 < |k.before|
      ensures k.before[r.pairs[i].0] != k.after[a]
    {
      if i < |q.pairs| {
        assert r.pairs[i] == q.pairs[i];
      }
    }
  }

  lemma {:induction false} PassTakesPair<K>(p: Pairing, before: seq<Option<K>>, after: seq<Option<K>>, n: nat)
    requires n <= |before|
    ensures var q := Pass(p, before, after, n); forall i | |p.pairs| <= i < |q.pairs| :: q.pairs[i].1 !in q.freeAfter
  {
    if n > 0 {
      PassTakesPair(p, before, after, n - 1);
      PassPairs(p, before, after, n - 1);
    }
  }

  // A row a pass paired is not free after it.
  lemma {:induction false} PassFreesNoPair<K>(p: Pairing, before: seq<Option<K>>, after: seq<Option<K>>, n: nat)
    requires n <= |before|
    ensures var q := Pass(p, before, after, n); forall i | |p.pairs| <= i < |q.pairs| :: q.pairs[i].0 !in q.freeBefore
  {
    if n > 0 {
      PassFreesNoPair(p, before, after, n - 1);
      PassPairs(p, before, after, n - 1);
    }
  }

  // ---- Which key pairs what ----

  // A pass goes over the before list in order, and rows with one key are paired in the order of both lists.
  ghost predicate FirstComeFirst<K>(pairs: seq<(nat, nat)>, from: nat, before: seq<Option<K>>)
  {
    && (forall i | from <= i < |pairs| :: pairs[i].0 < |before|)
    && (forall i, j | from <= i < j < |pairs| :: pairs[i].0 < pairs[j].0 && (before[pairs[i].0] == before[pairs[j].0] ==> pairs[i].1 < pairs[j].1))
  }

  // Every free row of the after list with a paired row's key stands after the row it was paired with.
  ghost predicate TookFirst<K>(q: Pairing, from: nat, before: seq<Option<K>>, after: seq<Option<K>>)
  {
    forall i, a | from <= i < |q.pairs| && q.pairs[i].0 < |before| && a in q.freeAfter && a < |after| && after[a] == before[q.pairs[i].0] ::
      q.pairs[i].1 < a
  }

  // After the rows below n, from pair from on.
  ghost predicate InTurnUpTo<K>(q: Pairing, from: nat, before: seq<Option<K>>, after: seq<Option<K>>, n: nat)
  {
    && from <= |q.pairs| && FirstComeFirst(q.pairs, from, before) && TookFirst(q, from, before, after)
    && forall i | from <= i < |q.pairs| :: q.pairs[i].0 < n
  }

  lemma PassAtIsFirstCome<K>(q: Pairing, from: nat, before: seq<Option<K>>, after: seq<Option<K>>, b: nat)
    requires b < |before| && InTurnUpTo(q, from, before, after, b)
    ensures InTurnUpTo(PassAt(q, before, after, b), from, before, after, b + 1)
  {
    var r := PassAt(q, before, after, b);
    if r != q {
      var a := r.pairs[|q.pairs|].1;
      assert a in q.freeAfter && a < |after| && after[a] == before[b];
      forall i, c | from <= i < |r.pairs| && r.pairs[i].0 < |before| && c in r.freeAfter && c < |after| && after[c] == before[r.pairs[i].0]
        ensures r.pairs[i].1 < c
      {
        assert i < |q.pairs| ==> r.pairs[i] == q.pairs[i];
      }
      forall i, j | from <= i < j < |r.pairs|
        ensures r.pairs[i].0 < r.pairs[j].0 && (before[r.pairs[i].0] == before[r.pairs[j].0] ==> r.pairs[i].1 < r.pairs[j].1)
      {
        assert r.pairs[i] == q.pairs[i];
        assert j < |q.pairs| ==> r.pairs[j] == q.pairs[j];
      }
    }
  }

  lemma {:induction false} PassIsFirstCome<K>(p: Pairing, before: seq<Option<K>>, after: seq<Option<K>>, n: nat)
    requires n <= |before|
    ensures InTurnUpTo(Pass(p, before, after, n), |p.pairs|, before, after, n)
  {
    if n > 0 {
      var q := Pass(p, before, after, n - 1);
      PassIsFirstCome(p, before, after, n - 1);
      PassAtIsFirstCome(q, |p.pairs|, before, after, n - 1);
      assert Pass(p, before, after, n) == PassAt(q, before, after, n - 1);
    }
  }

  // Pair i was made by the key rank[i]: it is one both rows have.
  ghost predicate Ranked(pairs: seq<(nat, nat)>, rank: seq<nat>, keys: seq<Keys>)
  {
    && |rank| == |pairs|
    && (forall i, j | 0 <= i < j < |rank| :: rank[i] <= rank[j])
    && forall i | 0 <= i < |rank| ::
         && rank[i] < |keys| && pairs[i].0 < |keys[rank[i]].before| && pairs[i].1 < |keys[rank[i]].after|
         && keys[rank[i]].before[pairs[i].0].Some? && keys[rank[i]].before[pairs[i].0] == keys[rank[i]].after[pairs[i].1]
  }

  // The rows of each list that no key up to m has paired.
  function OpenBefore(q: Pairing, rank: seq<nat>, m: nat): set<nat>
    requires |rank| == |q.pairs|
  {
    q.freeBefore + set i | 0 <= i < |rank| && rank[i] > m :: q.pairs[i].0
  }

  function OpenAfter(q: Pairing, rank: seq<nat>, m: nat): set<nat>
    requires |rank| == |q.pairs|
  {
    q.freeAfter + set i | 0 <= i < |rank| && rank[i] > m :: q.pairs[i].1
  }

  // Key m pairs nothing that is open after it.
  ghost predicate Settled(q: Pairing, rank: seq<nat>, keys: seq<Keys>, m: nat)
    requires |rank| == |q.pairs| && m < |keys|
  {
    forall b, a | b in OpenBefore(q, rank, m) && a in OpenAfter(q, rank, m) && b < |keys[m].before| && a < |keys[m].after| ::
      keys[m].before[b] == None || keys[m].before[b] != keys[m].after[a]
  }

  ghost predicate InTurn(q: Pairing, rank: seq<nat>, keys: seq<Keys>)
    requires Ranked(q.pairs, rank, keys)
  {
    forall i, j | 0 <= i < j < |rank| && rank[i] == rank[j] ::
      && q.pairs[i].0 < q.pairs[j].0
      && (keys[rank[i]].before[q.pairs[i].0] == keys[rank[i]].before[q.pairs[j].0] ==> q.pairs[i].1 < q.pairs[j].1)
  }

  /** The keys are tried in their order: each edited pair is made by one key, no two rows that a key could pair are both open
      after it, and a key pairs rows in the order of the lists. */
  lemma {:induction false} EditedByRank(p: Pairing, keys: seq<Keys>) returns (rank: seq<nat>)
    requires p.pairs == []
    ensures var q := EditedPasses(p, keys);
            && Ranked(q.pairs, rank, keys) && InTurn(q, rank, keys)
            && forall m | 0 <= m < |keys| :: Settled(q, rank, keys, m)
  {
    if keys == [] {
      rank := [];
    } else {
      var n := |keys| - 1;
      var was := EditedByRank(p, keys[..n]);
      rank := OneMoreKey(EditedPasses(p, keys[..n]), was, keys);
    }
  }

  lemma OneMoreKey(r: Pairing, was: seq<nat>, keys: seq<Keys>) returns (rank: seq<nat>)
    requires keys != []
    requires var front := keys[..|keys| - 1]; Ranked(r.pairs, was, front) && InTurn(r, was, front) && forall m | 0 <= m < |front| :: Settled(r, was, front, m)
    ensures var k := keys[|keys| - 1]; var q := Pass(r, k.before, k.after, |k.before|);
            Ranked(q.pairs, rank, keys) && InTurn(q, rank, keys) && forall m | 0 <= m < |keys| :: Settled(q, rank, keys, m)
  {
    var n := |keys| - 1;
    var k := keys[n];
    var q := Pass(r, k.before, k.after, |k.before|);
    PassPairs(r, k.before, k.after, |k.before|);
    PassApart(r, k.before, k.after, |k.before|);
    PassIsFirstCome(r, k.before, k.after, |k.before|);
    rank := was + seq(|q.pairs| - |was|, i => n);
    RanksGoOn(r, was, q, rank, keys);
    forall m | 0 <= m < n ensures Settled(q, rank, keys, m) {
      OpenShrinks(r, was, q, rank, m);
      assert Settled(r, was, keys[..n], m);
    }
  }

  // The ranks of the pairs there were, and n for the new ones.
  lemma RanksGoOn(r: Pairing, was: seq<nat>, q: Pairing, rank: seq<nat>, keys: seq<Keys>)
    requires keys != [] && Ranked(r.pairs, was, keys[..|keys| - 1]) && InTurn(r, was, keys[..|keys| - 1])
    requires |was| == |r.pairs| <= |q.pairs| == |rank| && q.pairs[..|r.pairs|] == r.pairs && rank[..|was|] == was
    requires forall i | |was| <= i < |rank| :: rank[i] == |keys| - 1
    requires var k := keys[|keys| - 1];
             && FirstComeFirst(q.pairs, |r.pairs|, k.before)
             && forall i | |r.pairs| <= i < |q.pairs| ::
                  q.pairs[i].1 < |k.after| && k.before[q.pairs[i].0].Some? && k.before[q.pairs[i].0] == k.after[q.pairs[i].1]
    ensures Ranked(q.pairs, rank, keys) && InTurn(q, rank, keys)
  {
    assert forall i | 0 <= i < |was| :: rank[i] == was[i] && q.pairs[i] == r.pairs[i];
  }

  lemma OpenShrinks(r: Pairing, was: seq<nat>, q: Pairing, rank: seq<nat>, m: nat)
    requires |was| == |r.pairs| <= |q.pairs| == |rank| && q.pairs[..|r.pairs|] == r.pairs && rank[..|was|] == was
    requires q.freeBefore <= r.freeBefore && q.freeAfter <= r.freeAfter
    requires forall i | |r.pairs| <= i < |q.pairs| :: q.pairs[i].0 in r.freeBefore && q.pairs[i].1 in r.freeAfter
    ensures OpenBefore(q, rank, m) <= OpenBefore(r, was, m) && OpenAfter(q, rank, m) <= OpenAfter(r, was, m)
  {
    forall b | b in OpenBefore(q, rank, m) ensures b in OpenBefore(r, was, m) {
      if b !in q.freeBefore {
        var i :| 0 <= i < |rank| && rank[i] > m && q.pairs[i].0 == b;
        assert i < |was| ==> r.pairs[i] == q.pairs[i] && was[i] == rank[i];
      }
    }
    forall a | a in OpenAfter(q, rank, m) ensures a in OpenAfter(r, was, m) {
      if a !in q.freeAfter {
        var i :| 0 <= i < |rank| && rank[i] > m && q.pairs[i].1 == a;
        assert i < |was| ==> r.pairs[i] == q.pairs[i] && was[i] == rank[i];
      }
    }
  }

  /** The kept pairs come in the order of the before list, and equal rows are kept in the order of both. */
  lemma KeptInOrder(before: seq<Item>, after: seq<Item>)
    ensures var kept := KeptPass(before, after).pairs;
            forall i, j | 0 <= i < j < |kept| ::
              && kept[i].0 < kept[j].0 < |before|
              && (Class(before[kept[i].0]) == Class(before[kept[j].0]) ==> kept[i].1 < kept[j].1)
  {
    PassIsFirstCome(Pairing([], Indexes(|before|), Indexes(|after|)), Somes(Classes(before)), Somes(Classes(after)), |before|);
    KeptMeaning(before, after);
  }

  // ---- Equal lists ----

  lemma {:induction false} EqualListsPass(classes: seq<Option<Json>>, n: nat)
    requires n <= |classes| && forall i | 0 <= i < |classes| :: classes[i].Some?
    ensures var p := Pass(Pairing([], Indexes(|classes|), Indexes(|classes|)), classes, classes, n);
            && |p.pairs| == n && (forall i | 0 <= i < n :: p.pairs[i] == (i, i))
            && (forall i | 0 <= i < |classes| :: (i in p.freeBefore <==> i >= n) && (i in p.freeAfter <==> i >= n))
  {
    if n > 0 {
      EqualListsPass(classes, n - 1);
    }
  }

  /** Row by row equal lists: every row is kept, where it is. */
  lemma EqualListsKeepAll(before: seq<Item>, after: seq<Item>)
    requires Classes(before) == Classes(after)
    ensures var p := KeptPass(before, after);
            |p.pairs| == |before| && (forall i | 0 <= i < |before| :: p.pairs[i] == (i, i)) && p.freeBefore == {} && p.freeAfter == {}
  {
    EqualListsPass(Somes(Classes(before)), |before|);
    var p0 := Pairing([], Indexes(|before|), Indexes(|after|));
    PassApart(p0, Somes(Classes(before)), Somes(Classes(after)), |before|);
  }
}

/** What differs between the applied config and the saved one, as steps that can be taken back one at a time. */
module ConfigChanges {
  import opened Common
  import opened Json
  import opened RowMatch
  import opened RowSteps
  import opened RowChanges

  type Path = seq<Key>

  datatype Step = AtRow(path: Path, row: RowStep) | AtValue(path: Path, before: Option<Json>, after: Option<Json>)

  // A list shown row by row, and the keys its rows have in the two configs.
  datatype RowList = RowList(path: Path, keys: seq<Keys>)

  // ---- Values and lists ----

  function Items(rows: seq<Json>): (r: seq<Item>)
    ensures |r| == |rows| && forall i | 0 <= i < |rows| :: r[i] == Item(rows[i], Canon(Some(rows[i])))
  {
    seq(|rows|, i requires 0 <= i < |rows| => Item(rows[i], Canon(Some(rows[i]))))
  }

  function Values(rows: seq<Item>): (r: seq<Json>)
    ensures |r| == |rows| && forall i | 0 <= i < |rows| :: r[i] == rows[i].json
  {
    seq(|rows|, i requires 0 <= i < |rows| => rows[i].json)
  }

  // listAt, of the value at the path.
  function RowsOf(v: Option<Json>): seq<Item>
  {
    if v.Some? && v.value.Arr? then Items(v.value.items) else []
  }

  function GetAt(v: Option<Json>, path: Path): Option<Json>
    decreases |path|
  {
    if path == [] then v else GetAt(Child(v, path[0]), path[1..])
  }

  // Assigning to a key of v sets it: v is an object, or one takes its place because there is nothing here.
  predicate Parentable(v: Option<Json>)
  {
    v == None || v.value.Obj? || (EmptyValue(v.value) && !v.value.Arr?)
  }

  // setPath. On a list the assignment is lost when the config is written out.
  function SetAt(v: Option<Json>, path: Path, value: Option<Json>): Option<Json>
    decreases |path|
  {
    if path == [] then value
    else if Parentable(v) then
      var k, fields := path[0], if v.Some? && v.value.Obj? then v.value.fields else map[];
      var c := SetAt(Child(v, k), path[1..], value);
      Some(Obj(if c == None then fields - {k} else fields[k := c.value]))
    else v
  }

  // setPath throws: it assigns to a key of a value that is neither an object, nor a list, nor empty.
  predicate Throws(v: Option<Json>, path: Path, value: Option<Json>)
    decreases |path|
  {
    path != [] &&
    if Parentable(v) then Throws(Child(v, path[0]), path[1..], value)
    else !v.value.Arr? && (|path| > 1 || value.Some?)
  }

  // ---- The changes ----

  predicate IsObject(v: Option<Json>)
  {
    v.Some? && v.value.Obj?
  }

  // The part of v that recursion descends into.
  function Fields(v: Option<Json>): Json
  {
    if IsObject(v) then v.value else Null
  }

  function KeySet(v: Option<Json>): set<Key>
  {
    if IsObject(v) then v.value.fields.Keys else {}
  }

  predicate Scalar(v: Json)
  {
    !v.Arr? && !v.Obj?
  }

  predicate ScalarList(v: Option<Json>)
  {
    Empty(v) || (v.value.Arr? && forall i | 0 <= i < |v.value.items| :: Scalar(v.value.items[i]))
  }

  predicate Descends(before: Option<Json>, after: Option<Json>)
  {
    PlainOrEmpty(before) && PlainOrEmpty(after) && (IsObject(before) || IsObject(after))
  }

  predicate HasRoot(lists: seq<RowList>)
  {
    exists i | 0 <= i < |lists| :: lists[i].path == []
  }

  // The lists below key k, seen from there.
  function Under(lists: seq<RowList>, k: Key): seq<RowList>
  {
    if lists == [] then []
    else
      var last := lists[|lists| - 1];
      Under(lists[..|lists| - 1], k) + if last.path != [] && last.path[0] == k then [RowList(last.path[1..], last.keys)] else []
  }

  function Deeper(k: Key, s: Step): Step
  {
    match s
    case AtRow(path, row) => AtRow([k] + path, row)
    case AtValue(path, before, after) => AtValue([k] + path, before, after)
  }

  function AllDeeper(k: Key, steps: seq<Step>): (r: seq<Step>)
    ensures |r| == |steps| && forall i | 0 <= i < |steps| :: r[i] == Deeper(k, steps[i])
  {
    seq(|steps|, i requires 0 <= i < |steps| => Deeper(k, steps[i]))
  }

  function AtRows(path: Path, rows: seq<RowStep>): (r: seq<Step>)
    ensures |r| == |rows| && forall i | 0 <= i < |rows| :: r[i] == AtRow(path, rows[i])
  {
    seq(|rows|, i requires 0 <= i < |rows| => AtRow(path, rows[i]))
  }

  ghost function AnyOf(keys: set<Key>): Key
    requires keys != {}
    ensures AnyOf(keys) in keys
  {
    var k :| k in keys;
    k
  }

  /** describeSettings, from a place in both configs. The row lists are left to their own description. */
  ghost function Settings(before: Option<Json>, after: Option<Json>, lists: seq<RowList>): seq<Step>
    decreases IsObject(before), Fields(before), IsObject(after), Fields(after), 1
  {
    if HasRoot(lists) || Same(before, after) then []
    else if Descends(before, after) then SettingsUnder(before, after, lists, KeySet(before) + KeySet(after))
    else if ScalarList(before) && ScalarList(after) then AtRows([], RowStepsOf(RowsOf(before), RowsOf(after), []))
    else [AtValue([], before, after)]
  }

  // For each of the keys, in some order.
  ghost function SettingsUnder(before: Option<Json>, after: Option<Json>, lists: seq<RowList>, keys: set<Key>): seq<Step>
    requires Descends(before, after)
    decreases IsObject(before), Fields(before), IsObject(after), Fields(after), 0, keys
  {
    if keys == {} then []
    else
      var k := AnyOf(keys);
      AllDeeper(k, Settings(Child(before, k), Child(after, k), Under(lists, k))) + SettingsUnder(before, after, lists, keys - {k})
  }

  // describeRowList for each list.
  function ListSteps(before: Option<Json>, after: Option<Json>, lists: seq<RowList>): seq<Step>
  {
    if lists == [] then []
    else
      var last := lists[|lists| - 1];
      ListSteps(before, after, lists[..|lists| - 1]) +
      AtRows(last.path, RowStepsOf(RowsOf(GetAt(before, last.path)), RowsOf(GetAt(after, last.path)), last.keys))
  }

  /** The steps of describeConfigChanges. */
  ghost function Changes(before: Option<Json>, after: Option<Json>, lists: seq<RowList>): seq<Step>
  {
    ListSteps(before, after, lists) + Settings(before, after, lists)
  }

  // ---- Taking one back ----

  datatype Draft = Draft(value: Option<Json>) | Declined

  /** revertChange's step: applyStep towards the applied config. */
  function RevertStep(d: Option<Json>, s: Step): Draft
  {
    match s
    case AtValue(path, before, after) =>
      var cur := GetAt(d, path);
      if Same(cur, before) then Draft(d)
      else if !Same(cur, after) || Throws(d, path, before) then Declined
      else Draft(SetAt(d, path, before))
    case AtRow(path, Order(rowsBefore, _)) =>
      var cur := GetAt(d, path);
      if cur.Some? && cur.value.Arr? then Draft(SetAt(d, path, Some(Arr(Values(SetRowOrder(RowsOf(cur), rowsBefore)))))) else Draft(d)
    case AtRow(path, row) =>
      // A list takes the place of anything else first.
      var cur := GetAt(d, path);
      var r := Revert(RowsOf(cur), row);
      if !(cur.Some? && cur.value.Arr?) && Throws(d, path, Some(Arr([]))) then Declined
      else if r == Refused then Declined
      else Draft(SetAt(d, path, Some(Arr(Values(r.rows)))))
  }

  function RevertSteps(d: Option<Json>, steps: seq<Step>): Draft
    decreases |steps|
  {
    if steps == [] then Draft(d)
    else
      var r := RevertStep(d, steps[0]);
      if r == Declined then Declined else RevertSteps(r.value, steps[1..])
  }

  // ---- Alike ----

  /** Equal settings; and in every list the same rows, each as often, in the same order when inOrder. */
  ghost predicate Alike(a: Option<Json>, b: Option<Json>, lists: seq<RowList>, inOrder: bool)
    decreases IsObject(a), Fields(a), IsObject(b), Fields(b)
  {
    if HasRoot(lists) then RowsAlike(a, b, inOrder)
    else if Descends(a, b) then forall k :: Alike(Child(a, k), Child(b, k), Under(lists, k), inOrder)
    else if ScalarList(a) && ScalarList(b) then RowsAlike(a, b, inOrder)
    else Same(a, b)
  }

  ghost predicate RowsAlike(a: Option<Json>, b: Option<Json>, inOrder: bool)
  {
    if inOrder then Classes(RowsOf(a)) == Classes(RowsOf(b)) else Counted(RowsOf(a)) == Counted(RowsOf(b))
  }

  // ---- What is asked of the two configs ----

  ghost predicate ListFits(before: seq<Item>, after: seq<Item>, keys: seq<Keys>)
  {
    KeysFor(keys, before, after) && KeyFirst(before, after, keys) && UniqueKeys(before) && UniqueKeys(after) && NoNulls(before)
  }

  /** The row lists are where objects lead to them, public keys are distinct in each config, and no list to bring back
      holds a null. */
  ghost predicate Fits(before: Option<Json>, after: Option<Json>, lists: seq<RowList>)
    decreases IsObject(before), Fields(before), IsObject(after), Fields(after)
  {
    if HasRoot(lists) then |lists| == 1 && ListFits(RowsOf(before), RowsOf(after), lists[0].keys)
    else if Descends(before, after) then forall k :: Fits(Child(before, k), Child(after, k), Under(lists, k))
    else (Empty(before) && Empty(after)) || (lists == [] && (ScalarList(before) && ScalarList(after) ==> NoNulls(RowsOf(before))))
  }

  /** No empty list stands in the saved config where the applied one has an object that differs. */
  ghost predicate Reachable(before: Option<Json>, after: Option<Json>, lists: seq<RowList>)
    decreases IsObject(before), Fields(before), IsObject(after), Fields(after)
  {
    !HasRoot(lists) && Descends(before, after) ==>
      && (Changes(before, after, lists) != [] ==> Parentable(after))
      && forall k :: Reachable(Child(before, k), Child(after, k), Under(lists, k))
  }

  // ---- The config's own lists ----

  /** The lists describeConfigChanges shows row by row. */
  function ConfigLists(peers: seq<Keys>, routes: seq<Keys>, inbound: seq<Keys>): seq<RowList>
  {
    [RowList(["peers"], peers), RowList(["forwarding", "routes"], routes), RowList(["input_allows"], inbound)]
  }
}

/** What taking a change back leaves alone, and when it brings its value back. */
module ConfigKeeps {
  import opened Common
  import opened Json
  import opened RowMatch
  import opened RowSteps
  import opened RowChanges
  import opened ConfigChanges
  import opened ConfigRevert

  // Neither place lies under the other.
  predicate Diverge(p: Path, q: Path)
    decreases |p|
  {
    p != [] && q != [] && (p[0] != q[0] || Diverge(p[1..], q[1..]))
  }

  lemma {:induction false} SetElsewhere(v: Option<Json>, path: Path, value: Option<Json>, q: Path)
    requires Diverge(path, q)
    ensures GetAt(SetAt(v, path, value), q) == GetAt(v, q)
    decreases |path|
  {
    if Parentable(v) {
      SetChild(v, path, value);
      if path[0] == q[0] {
        SetElsewhere(Child(v, path[0]), path[1..], value, q[1..]);
      }
    }
  }

  /** Taking a step back changes nothing beside the place it names: what was saved elsewhere meanwhile stays. */
  lemma RevertStaysInPlace(d: Option<Json>, s: Step, q: Path)
    requires Diverge(s.path, q) && RevertStep(d, s).Draft?
    ensures GetAt(RevertStep(d, s).value, q) == GetAt(d, q)
  {
    if s.AtRow? && s.row.Row? {
      SetElsewhere(d, s.path, Some(Arr(Values(Revert(RowsOf(GetAt(d, s.path)), s.row).rows))), q);
    } else if s.AtRow? {
      SetElsewhere(d, s.path, Some(Arr(Values(SetRowOrder(RowsOf(GetAt(d, s.path)), s.row.rowsBefore)))), q);
    } else {
      SetElsewhere(d, s.path, s.before, q);
    }
  }

  lemma {:induction false} RevertsStayInPlace(d: Option<Json>, steps: seq<Step>, q: Path)
    requires (forall i | 0 <= i < |steps| :: Diverge(steps[i].path, q)) && RevertSteps(d, steps).Draft?
    ensures GetAt(RevertSteps(d, steps).value, q) == GetAt(d, q)
    decreases |steps|
  {
    if steps != [] {
      RevertStaysInPlace(d, steps[0], q);
      RevertsStayInPlace(RevertStep(d, steps[0]).value, steps[1..], q);
    }
  }

  // Objects, or nothing, all the way to the place.
  predicate Settable(v: Option<Json>, path: Path)
    decreases |path|
  {
    path == [] || (Parentable(v) && Settable(Child(v, path[0]), path[1..]))
  }

  lemma {:induction false} SetThere(v: Option<Json>, path: Path, value: Option<Json>)
    ensures GetAt(SetAt(v, path, value), path) == if Settable(v, path) then value else GetAt(v, path)
    decreases |path|
  {
    if path != [] && Parentable(v) {
      SetChild(v, path, value);
      SetThere(Child(v, path[0]), path[1..], value);
    }
  }

  /** A value that moved on since it was listed is never overwritten, and one that cannot be written is refused; a revert
      that is not refused brings the value back exactly when no list stands in the way of writing it. */
  lemma ValueComesBack(d: Option<Json>, path: Path, before: Option<Json>, after: Option<Json>)
    ensures var r, cur := RevertStep(d, AtValue(path, before, after)), GetAt(d, path);
            && (r == Declined <==> !Same(cur, before) && (!Same(cur, after) || Throws(d, path, before)))
            && (r.Draft? ==> (Same(GetAt(r.value, path), before) <==> Same(cur, before) || Settable(d, path)))
            && (Same(cur, before) ==> r == Draft(d))
  {
    SetThere(d, path, before);
  }
}

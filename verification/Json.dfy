/** JSON values, and when the change list takes two of them for the same. */
module Json {
  import opened Common

  type Key = string

  datatype Json = Null | Bool(flag: bool) | Num(number: int) | Str(text: string) | Arr(items: seq<Json>) | Obj(fields: map<Key, Json>)

  // isEmptyValue. A missing value is empty as well.
  predicate EmptyValue(v: Json)
  {
    v == Null || v == Bool(false) || v == Num(0) || v == Str("") || v == Arr([]) || v == Obj(map[])
  }

  predicate Empty(v: Option<Json>)
  {
    v == None || EmptyValue(v.value)
  }

  // stripEmpty: no empty values inside objects. Elements of a list stay, empty or not.
  function Strip(v: Json): Json
  {
    match v
    case Arr(items) => Arr(seq(|items|, i requires 0 <= i < |items| => Strip(items[i])))
    case Obj(fields) => Obj(map k | k in fields && !EmptyValue(Strip(fields[k])) :: Strip(fields[k]))
    case _ => v
  }

  /** canonical, with null for anything empty. */
  function Canon(v: Option<Json>): (c: Json)
    ensures EmptyValue(c) ==> c == Null
  {
    if v == None || EmptyValue(Strip(v.value)) then Null else Strip(v.value)
  }

  predicate Same(a: Option<Json>, b: Option<Json>)
  {
    Canon(a) == Canon(b)
  }

  // o[k] of a value that may be missing.
  function Child(v: Option<Json>, k: Key): Option<Json>
  {
    if v.Some? && v.value.Obj? && k in v.value.fields then Some(v.value.fields[k]) else None
  }

  lemma EmptyIsNull(v: Option<Json>)
    requires Empty(v)
    ensures Canon(v) == Null
  {
  }

  predicate PlainOrEmpty(v: Option<Json>)
  {
    Empty(v) || v.value.Obj?
  }

  function Field(c: Json, k: Key): Json
  {
    if c.Obj? && k in c.fields then c.fields[k] else Null
  }

  // What Strip leaves of an object has the children's canonical forms.
  lemma CanonChild(v: Option<Json>, k: Key)
    requires PlainOrEmpty(v)
    ensures Canon(Child(v, k)) == Field(Canon(v), k)
  {
    if v.Some? && v.value.Obj? && k in v.value.fields && !EmptyValue(Strip(v.value.fields[k])) {
      assert k in Strip(v.value).fields;
    }
  }

  // Values the list takes for the same have the same children.
  lemma SameChildren(a: Option<Json>, b: Option<Json>, k: Key)
    requires PlainOrEmpty(a) && PlainOrEmpty(b) && Same(a, b)
    ensures Same(Child(a, k), Child(b, k))
  {
    CanonChild(a, k);
    CanonChild(b, k);
  }

  predicate CanonicalObject(c: Json)
  {
    c == Null || (c.Obj? && c.fields != map[] && forall k | k in c.fields :: c.fields[k] != Null)
  }

  lemma CanonIsCanonical(v: Option<Json>)
    requires PlainOrEmpty(v)
    ensures CanonicalObject(Canon(v))
  {
  }

  lemma EqualByFields(x: Json, y: Json)
    requires CanonicalObject(x) && CanonicalObject(y) && forall k :: Field(x, k) == Field(y, k)
    ensures x == y
  {
    if x.Obj? {
      var k :| k in x.fields;
      assert Field(y, k) == Field(x, k) != Null;
    }
    if y.Obj? {
      var k :| k in y.fields;
      assert Field(x, k) == Field(y, k) != Null;
    }
    if x.Obj? && y.Obj? {
      forall k ensures (k in x.fields <==> k in y.fields) && (k in x.fields ==> x.fields[k] == y.fields[k]) {
        assert Field(x, k) == Field(y, k);
      }
      assert x.fields == y.fields;
    }
  }

  // And values with the same children are the same.
  lemma ChildrenSame(a: Option<Json>, b: Option<Json>)
    requires PlainOrEmpty(a) && PlainOrEmpty(b) && forall k :: Same(Child(a, k), Child(b, k))
    ensures Same(a, b)
  {
    CanonIsCanonical(a);
    CanonIsCanonical(b);
    forall k ensures Field(Canon(a), k) == Field(Canon(b), k) {
      assert Same(Child(a, k), Child(b, k));
      CanonChild(a, k);
      CanonChild(b, k);
    }
    EqualByFields(Canon(a), Canon(b));
  }

  // ---- What counts as the same ----

  /** A missing value is the same as null, false, 0, an empty text, an empty list, and an object all of whose fields are the
      same as missing; and as nothing else. */
  lemma SameAsMissing(v: Json)
    ensures Same(None, Some(v)) <==>
            match v
            case Null => true
            case Bool(flag) => !flag
            case Num(number) => number == 0
            case Str(text) => text == ""
            case Arr(items) => items == []
            case Obj(fields) => forall k | k in fields :: Same(None, Some(fields[k]))
  {
    if v.Obj? {
      var kept := Strip(v).fields;
      assert forall k :: k in kept <==> k in v.fields && !EmptyValue(Strip(v.fields[k]));
      if k :| k in v.fields && !Same(None, Some(v.fields[k])) {
        assert k in kept;
      }
      if k :| k in kept {
        assert !Same(None, Some(v.fields[k]));
      } else {
        assert kept == map[];
      }
    }
  }

  /** Two texts, numbers or switches are the same exactly when they are equal or both the same as missing. */
  lemma SameWords(a: Json, b: Json)
    requires !a.Arr? && !a.Obj? && !b.Arr? && !b.Obj?
    ensures Same(Some(a), Some(b)) <==> a == b || (Same(None, Some(a)) && Same(None, Some(b)))
  {
  }
}

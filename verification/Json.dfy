/** JSON values as the accounting code sees them after parsing: objects have
    distinct member names, and an integer is told apart from any other number. */
module Json {
  import opened Wrappers

  datatype Json =
    | Null
    | Bool(b: bool)
    | Int(n: int)
    | Float
    | Str(s: string)
    | Arr(items: seq<Json>)
    | Obj(fields: map<string, Json>)

  /** A member path.  No accepted member name contains a slash, so these are the
      slash-joined paths of the program. */
  type Path = seq<string>

  predicate Has(j: Json, key: string) {
    j.Obj? && key in j.fields
  }

  /** Member `key`, or null when it is absent. */
  function Get(j: Json, key: string): Json {
    if Has(j, key) then j.fields[key] else Null
  }

  /** The value at `p`, or null when some step is missing. */
  function At(j: Json, p: Path): Json
    decreases p
  {
    if p == [] then j else At(Get(j, p[0]), p[1..])
  }

  /** The paths that hold integers, looking through objects only. */
  function Leaves(j: Json): set<Path> {
    match j
    case Int(_) => {[]}
    case Obj(m) => set k, q | k in m && q in Leaves(m[k]) :: [k] + q
    case _ => {}
  }

  lemma {:induction false} LeafAt(j: Json, p: Path)
    ensures p in Leaves(j) <==> At(j, p).Int?
  {
    if p == [] {
    } else if Has(j, p[0]) {
      LeafAt(j.fields[p[0]], p[1..]);
      assert p == [p[0]] + p[1..];
    } else {
      NullAt(p[1..]);
      assert forall k: string, q: Path {:trigger [k] + q} :: ([k] + q)[0] == k;
    }
  }

  lemma {:induction false} NullAt(p: Path)
    ensures At(Null, p) == Null
  {
    if p != [] {
      NullAt(p[1..]);
    }
  }

  lemma AtMember(j: Json, a: string, b: string)
    ensures At(j, [a]) == Get(j, a)
    ensures At(j, [a, b]) == Get(Get(j, a), b)
  {
    assert At(j, [a]) == At(Get(j, a), [a][1..]);
    assert [a, b][1..] == [b];
    assert At(Get(j, a), [b]) == At(Get(Get(j, a), b), [b][1..]);
  }

  /** The integer at `p`. */
  function IntAt(j: Json, p: Path): int {
    match At(j, p)
    case Int(n) => n
    case _ => 0
  }

  /** `t` overwritten by `u`: objects are merged member by member, anything else replaces. */
  function Merge(t: Json, u: Json): Json
    decreases u
  {
    if !u.Obj? then u else
    var base := if t.Obj? then t.fields else map[];
    Obj(map k | k in base.Keys + u.fields.Keys ::
          if k in u.fields then Merge(Get(t, k), u.fields[k]) else base[k])
  }

  /** Whether `u` puts a value of its own at `p`, directly or by replacing an enclosing member. */
  predicate Writes(u: Json, p: Path)
    decreases p
  {
    !u.Obj? || (p != [] && Has(u, p[0]) && Writes(u.fields[p[0]], p[1..]))
  }

  lemma {:induction false} MergeAt(t: Json, u: Json, p: Path)
    ensures !At(Merge(t, u), p).Obj? ==> At(Merge(t, u), p) == if Writes(u, p) then At(u, p) else At(t, p)
    ensures At(u, p).Int? ==> Writes(u, p) && !At(Merge(t, u), p).Obj?
    decreases p
  {
    if p != [] {
      if Has(u, p[0]) {
        MergeAt(Get(t, p[0]), u.fields[p[0]], p[1..]);
      } else {
        NullAt(p[1..]);
      }
    }
  }

  lemma {:induction false} MergeIntoNothing(u: Json)
    ensures Merge(Null, u) == u
    ensures u.Obj? ==> Merge(Obj(map[]), u) == u
  {
    if u.Obj? {
      forall k | k in u.fields ensures Merge(Null, u.fields[k]) == u.fields[k] {
        MergeIntoNothing(u.fields[k]);
      }
    }
  }

  function FieldsOf(j: Json): map<string, Json> {
    if j.Obj? then j.fields else map[]
  }

  lemma MergeInto(t: Json, v: Json)
    ensures v.Obj? ==> Merge(Obj(FieldsOf(t)), v) == Merge(t, v)
    ensures !v.Obj? ==> Merge(t, v) == v
  {
    if v.Obj? {
      var base := FieldsOf(t);
      assert forall k :: k in v.fields ==> Get(Obj(base), k) == Get(t, k);
      assert Merge(Obj(base), v).fields == Merge(t, v).fields;
    }
  }

  lemma MergeByMember(target: map<string, Json>, update: map<string, Json>, merged: map<string, Json>)
    requires merged.Keys == target.Keys + update.Keys
    requires forall k :: k in merged.Keys - update.Keys ==> merged[k] == target[k]
    requires forall k :: k in update.Keys ==> merged[k] == Merge(Get(Obj(target), k), update[k])
    ensures Obj(merged) == Merge(Obj(target), Obj(update))
  {
    assert merged == Merge(Obj(target), Obj(update)).fields;
  }

  /** Overwrites `target` member by member; a non-object in the way is replaced by an empty object. */
  method MergeUsage(target: map<string, Json>, update: map<string, Json>) returns (merged: map<string, Json>)
    ensures Obj(merged) == Merge(Obj(target), Obj(update))
    decreases Obj(update)
  {
    hide Merge;
    var done: set<string> := {};
    merged := target;
    while done != update.Keys
      invariant done <= update.Keys && merged.Keys == target.Keys + done
      invariant forall k :: k in merged.Keys - done ==> merged[k] == target[k]
      invariant forall k :: k in done ==> merged[k] == Merge(Get(Obj(target), k), update[k])
      decreases update.Keys - done
    {
      assert update.Keys == done + (update.Keys - done);
      var k :| k in update.Keys - done;
      var v := update[k];
      MergeInto(Get(Obj(target), k), v);
      if v.Obj? {
        var inner := MergeUsage(if k in merged then FieldsOf(merged[k]) else map[], v.fields);
        merged := merged[k := Obj(inner)];
      } else {
        merged := merged[k := v];
      }
      done := done + {k};
    }
    MergeByMember(target, update, merged);
  }
}

/** Cumulative usage over a stream: numeric lower bounds that survive null gaps. */
module UsageHistory {
  import opened Wrappers
  import opened Json
  import opened ProviderUsage

  type Bounds = map<Path, nat>

  /** Record every integer of `j`, refusing one that is out of range or went down. */
  function Observe(j: Json, b: Bounds): Result<Bounds> {
    if !j.Obj? then Ok(b)
    else if exists p | p in Leaves(j) :: !(0 <= IntAt(j, p) <= TOKEN_CAP) then Err("cost_quantity")
    else if exists p | p in Leaves(j) :: p in b && IntAt(j, p) < b[p] then Err("stream_usage_decreased")
    else Ok(map p | p in b.Keys + Leaves(j) :: if p in Leaves(j) then IntAt(j, p) else b[p])
  }

  function Lower(b: Bounds, p: Path): nat {
    if p in b then b[p] else 0
  }

  // ----- Bounds are the last, and the largest, number at each path -----

  lemma ObservedAt(u: Json, b: Bounds, p: Path)
    requires u.Obj? && Observe(u, b).Ok?
    ensures Lower(Observe(u, b).value, p) == Reported(u, p).GetOr(Lower(b, p))
    ensures Lower(b, p) <= Lower(Observe(u, b).value, p)
  {
    LeafAt(u, p);
  }

  /** The bound at a path is the largest number seen there, null gaps included. */
  ghost predicate IsHistory(seen: seq<Json>, b: Bounds) {
    && (forall p, i :: 0 <= i < |seen| ==> Reported(seen[i], p).GetOr(0) <= Lower(b, p))
    && (forall p :: Lower(b, p) != 0 ==> exists i :: 0 <= i < |seen| && Reported(seen[i], p) == Some(Lower(b, p)))
  }

  lemma HistoryGrows(seen: seq<Json>, b: Bounds, u: Json)
    requires IsHistory(seen, b) && u.Obj? && Observe(u, b).Ok?
    ensures IsHistory(seen + [u], Observe(u, b).value)
  {
    var all, b' := seen + [u], Observe(u, b).value;
    forall p ensures Lower(b', p) == Reported(u, p).GetOr(Lower(b, p)) && Lower(b, p) <= Lower(b', p) {
      ObservedAt(u, b, p);
    }
    forall p | Lower(b', p) != 0 ensures exists i :: 0 <= i < |all| && Reported(all[i], p) == Some(Lower(b', p)) {
      if Reported(u, p).Some? {
        assert all[|seen|] == u;
      } else {
        var i :| 0 <= i < |seen| && Reported(seen[i], p) == Some(Lower(b, p));
        assert all[i] == seen[i];
      }
    }
  }

  // ----- The recursive walk -----

  /** `q` leads to an integer of `j`, found below `path`. */
  predicate Under(q: Path, j: Json, path: Path) {
    path <= q && q[|path|..] in Leaves(j)
  }

  function ValueUnder(q: Path, j: Json, path: Path): int
    requires path <= q
  {
    IntAt(j, q[|path|..])
  }

  ghost predicate InRange(j: Json) {
    forall p :: p in Leaves(j) ==> 0 <= IntAt(j, p) <= TOKEN_CAP
  }

  ghost predicate NotDecreased(j: Json, b: Bounds, path: Path) {
    forall q :: q in b && Under(q, j, path) ==> b[q] <= ValueUnder(q, j, path)
  }

  /** `b'` is `b` with every integer of `j` recorded below `path`. */
  ghost predicate Recorded(j: Json, b: Bounds, path: Path, b': Bounds) {
    && (forall q :: q in b' <==> q in b || Under(q, j, path))
    && (forall q :: q in b' ==> b'[q] == if Under(q, j, path) then ValueUnder(q, j, path) else b[q])
  }

  /** The members of `m` visited so far, as an object. */
  ghost function Part(m: map<string, Json>, done: set<string>): Json {
    Obj(map k | k in m && k in done :: m[k])
  }

  lemma PartLeaf(m: map<string, Json>, done: set<string>, p: Path)
    ensures p in Leaves(Part(m, done)) <==> p != [] && p[0] in m && p[0] in done && p[1..] in Leaves(m[p[0]])
    ensures p in Leaves(Part(m, done)) ==> IntAt(Part(m, done), p) == IntAt(m[p[0]], p[1..])
  {
    LeafAt(Part(m, done), p);
    if p != [] && p[0] in m && p[0] in done {
      LeafAt(m[p[0]], p[1..]);
    } else if p != [] {
      NullAt(p[1..]);
    }
  }

  /** Below a member, or below what was visited before it. */
  lemma UnderStep(m: map<string, Json>, done: set<string>, k: string, q: Path, path: Path)
    requires k in m && k !in done
    ensures Under(q, Part(m, done + {k}), path) <==> Under(q, Part(m, done), path) || Under(q, m[k], path + [k])
    ensures !(Under(q, Part(m, done), path) && Under(q, m[k], path + [k]))
    ensures Under(q, Part(m, done), path) ==>
              ValueUnder(q, Part(m, done + {k}), path) == ValueUnder(q, Part(m, done), path)
    ensures Under(q, m[k], path + [k]) ==>
              path <= q && ValueUnder(q, Part(m, done + {k}), path) == ValueUnder(q, m[k], path + [k])
  {
    if path <= q {
      var p := q[|path|..];
      PartLeaf(m, done, p);
      PartLeaf(m, done + {k}, p);
      if p != [] {
        assert q[|path + [k]|..] == p[1..];
        assert p[0] == k <==> path + [k] <= q;
      } else {
        assert !(path + [k] <= q);
      }
    } else {
      assert !(path + [k] <= q);
    }
  }

  lemma RangeStep(m: map<string, Json>, done: set<string>, k: string)
    requires k in m && k !in done
    ensures InRange(Part(m, done + {k})) <==> InRange(Part(m, done)) && InRange(m[k])
  {
    forall p
      ensures p in Leaves(Part(m, done)) ==>
                p in Leaves(Part(m, done + {k})) && IntAt(Part(m, done + {k}), p) == IntAt(Part(m, done), p)
      ensures p in Leaves(Part(m, done + {k})) ==>
                || p in Leaves(Part(m, done))
                || (p != [] && p[1..] in Leaves(m[k]) && IntAt(Part(m, done + {k}), p) == IntAt(m[k], p[1..]))
    {
      PartLeaf(m, done, p);
      PartLeaf(m, done + {k}, p);
    }
    forall p | p in Leaves(m[k]) && InRange(Part(m, done + {k})) ensures 0 <= IntAt(m[k], p) <= TOKEN_CAP {
      PartLeaf(m, done + {k}, [k] + p);
    }
    hide Leaves, IntAt, Part;
  }

  lemma RecordStep(m: map<string, Json>, done: set<string>, k: string, b: Bounds, seen: Bounds, path: Path)
    requires k in m && k !in done
    requires Recorded(Part(m, done), b, path, seen) && NotDecreased(Part(m, done), b, path)
    ensures NotDecreased(Part(m, done + {k}), b, path) <==> NotDecreased(m[k], seen, path + [k])
    ensures forall b' :: Recorded(m[k], seen, path + [k], b') ==> Recorded(Part(m, done + {k}), b, path, b')
  {
    hide Leaves, IntAt, Part;
    forall q
      ensures Under(q, Part(m, done + {k}), path) <==> Under(q, Part(m, done), path) || Under(q, m[k], path + [k])
      ensures !(Under(q, Part(m, done), path) && Under(q, m[k], path + [k]))
      ensures Under(q, Part(m, done), path) ==>
                ValueUnder(q, Part(m, done + {k}), path) == ValueUnder(q, Part(m, done), path)
      ensures Under(q, m[k], path + [k]) ==>
                path <= q && ValueUnder(q, Part(m, done + {k}), path) == ValueUnder(q, m[k], path + [k])
    {
      UnderStep(m, done, k, q, path);
    }
    hide Under, ValueUnder;
  }

  lemma NothingVisited(m: map<string, Json>, b: Bounds, path: Path)
    ensures InRange(Part(m, {})) && NotDecreased(Part(m, {}), b, path) && Recorded(Part(m, {}), b, path, b)
    ensures Part(m, m.Keys) == Obj(m)
  {
    forall p ensures p !in Leaves(Part(m, {})) {
      PartLeaf(m, {}, p);
    }
  }

  lemma PartWithin(m: map<string, Json>, done: set<string>, b: Bounds, path: Path)
    ensures InRange(Obj(m)) ==> InRange(Part(m, done))
    ensures NotDecreased(Obj(m), b, path) ==> NotDecreased(Part(m, done), b, path)
  {
    forall p
      ensures p in Leaves(Part(m, done)) ==> p in Leaves(Obj(m)) && IntAt(Part(m, done), p) == IntAt(Obj(m), p)
    {
      PartLeaf(m, done, p);
      LeafAt(Obj(m), p);
      if p in Leaves(Part(m, done)) {
        LeafAt(m[p[0]], p[1..]);
      }
    }
    hide Leaves, IntAt, Part;
  }

  lemma ScalarStep(v: Json, b: Bounds, path: Path)
    requires !v.Obj?
    ensures InRange(v) <==> (v.Int? ==> 0 <= v.n <= TOKEN_CAP)
    ensures NotDecreased(v, b, path) <==> (v.Int? && path in b ==> b[path] <= v.n)
    ensures v.Int? && v.n >= 0 ==> Recorded(v, b, path, b[path := v.n])
    ensures !v.Int? ==> Recorded(v, b, path, b)
  {
    forall q ensures Under(q, v, path) <==> v.Int? && q == path {
    }
    assert v.Int? ==> [] in Leaves(v) && IntAt(v, []) == v.n;
    assert v.Int? ==> ValueUnder(path, v, path) == v.n;
  }

  /** Walks an object, raising `observed` in place.  The members may be visited
      in any order: acceptance and the resulting bounds do not depend on it. */
  method Monotonic(j: Json, observed: Bounds, path: Path) returns (r: Result<Bounds>)
    requires j.Obj?
    ensures r.Ok? <==> InRange(j) && NotDecreased(j, observed, path)
    ensures r.Ok? ==> Recorded(j, observed, path, r.value)
    ensures r.Err? && r.code != "stream_usage_decreased" ==> r.code == "cost_quantity" && !InRange(j)
    ensures r.Err? && r.code != "cost_quantity" ==> !NotDecreased(j, observed, path)
    decreases j
  {
    var m := j.fields;
    var seen: Bounds := observed;
    var done: set<string> := {};
    NothingVisited(m, observed, path);
    assert Obj(m) == j;
    while done != m.Keys
      invariant done <= m.Keys
      invariant InRange(Part(m, done)) && NotDecreased(Part(m, done), observed, path)
      invariant Recorded(Part(m, done), observed, path, seen)
      decreases m.Keys - done
    {
      hide Leaves, IntAt, InRange, NotDecreased, Recorded, Part;
      assert m.Keys == done + (m.Keys - done);
      var k :| k in m.Keys - done;
      var v, key := m[k], path + [k];
      RangeStep(m, done, k);
      RecordStep(m, done, k, observed, seen, path);
      PartWithin(m, done + {k}, observed, path);
      if v.Obj? {
        seen :- Monotonic(v, seen, key);
      } else {
        ScalarStep(v, seen, key);
        if v.Int? {
          :- Need(0 <= v.n <= TOKEN_CAP, "cost_quantity");
          :- Need(key in seen ==> v.n >= seen[key], "stream_usage_decreased");
          seen := seen[key := v.n];
        }
      }
      done := done + {k};
    }
    r := Ok(seen);
  }

  /** From the root, the walk is `Observe`. */
  lemma WalkIsObserve(j: Json, b: Bounds)
    requires j.Obj?
    ensures Observe(j, b).Ok? <==> InRange(j) && NotDecreased(j, b, [])
    ensures forall b': Bounds :: Observe(j, b).Ok? && Recorded(j, b, [], b') ==> b' == Observe(j, b).value
  {
    forall q: Path ensures Under(q, j, []) <==> q in Leaves(j)
    {
      assert q[0..] == q;
    }
    forall q: Path ensures ValueUnder(q, j, []) == IntAt(j, q) {
      assert q[0..] == q;
    }
    hide Leaves, IntAt, Under, ValueUnder;
  }
}

/** Exact totals over sets of calls.  Totals are a commutative sum of records, so
    they do not depend on the order in which calls are included. */
module Totals {
  import opened ProviderUsage

  datatype Total = Total(calls: nat, failed: nat, unknownOutcomes: nat, retries: nat, known: nat, missing: nat,
                         tokens: Quad<nat>, unknownTokens: Quad<nat>)
  {
    function Plus(o: Total): Total {
      Total(calls + o.calls, failed + o.failed, unknownOutcomes + o.unknownOutcomes, retries + o.retries,
            known + o.known, missing + o.missing, AddQuads(tokens, o.tokens), AddQuads(unknownTokens, o.unknownTokens))
    }
  }

  function AddQuads(a: Quad<nat>, b: Quad<nat>): Quad<nat> {
    Quad(a.uncached + b.uncached, a.cacheRead + b.cacheRead, a.cacheWrite + b.cacheWrite, a.output + b.output)
  }

  const NONE := Quad(0, 0, 0, 0)
  const ZERO := Total(0, 0, 0, 0, 0, 0, NONE, NONE)

  lemma QuadSwap(a: Quad<nat>, b: Quad<nat>, c: Quad<nat>)
    ensures AddQuads(AddQuads(a, b), c) == AddQuads(AddQuads(a, c), b)
  {
  }

  lemma QuadAssociative(a: Quad<nat>, b: Quad<nat>, c: Quad<nat>)
    ensures AddQuads(AddQuads(a, b), c) == AddQuads(a, AddQuads(b, c))
  {
  }

  lemma QuadZero(a: Quad<nat>)
    ensures AddQuads(a, NONE) == a == AddQuads(NONE, a)
  {
  }

  lemma Swap(a: Total, b: Total, c: Total)
    ensures a.Plus(b).Plus(c) == a.Plus(c).Plus(b)
    ensures a.Plus(b).Plus(c) == a.Plus(b.Plus(c))
    ensures a.Plus(ZERO) == a == ZERO.Plus(a)
  {
    hide AddQuads;
    QuadSwap(a.tokens, b.tokens, c.tokens);
    QuadSwap(a.unknownTokens, b.unknownTokens, c.unknownTokens);
    QuadAssociative(a.tokens, b.tokens, c.tokens);
    QuadAssociative(a.unknownTokens, b.unknownTokens, c.unknownTokens);
    QuadZero(a.tokens);
    QuadZero(a.unknownTokens);
  }

  type Parts = map<string, Total>

  /** The total of the parts named in `s`. */
  ghost function SumOver(m: Parts, s: set<string>): Total
    requires s <= m.Keys
    decreases |s|
  {
    if s == {} then ZERO else
    var x :| x in s;
    SumOver(m, s - {x}).Plus(m[x])
  }

  lemma {:induction false} SumInsert(m: Parts, s: set<string>, x: string)
    requires s <= m.Keys && x in m && x !in s
    ensures SumOver(m, s + {x}) == SumOver(m, s).Plus(m[x])
    decreases |s|
  {
    hide Total.Plus;
    var all := s + {x};
    var y :| y in all && SumOver(m, all) == SumOver(m, all - {y}).Plus(m[y]);
    if y == x {
      assert all - {x} == s;
    } else {
      SumInsert(m, s - {y}, x);
      assert all - {y} == (s - {y}) + {x};
      SumInsert(m, s - {y}, y);
      assert (s - {y}) + {y} == s;
      Swap(SumOver(m, s - {y}), m[x], m[y]);
    }
  }

  lemma SumEmpty(m: Parts)
    ensures SumOver(m, {}) == ZERO
  {
  }

  lemma {:induction false} SumUnion(m: Parts, s: set<string>, t: set<string>)
    requires s <= m.Keys && t <= m.Keys && s !! t
    ensures SumOver(m, s + t) == SumOver(m, s).Plus(SumOver(m, t))
    decreases |t|
  {
    hide Total.Plus, SumOver;
    if t == {} {
      assert s + t == s;
      SumEmpty(m);
      Swap(SumOver(m, s), ZERO, ZERO);
    } else {
      var x :| x in t;
      var rest := t - {x};
      var both := s + rest;
      SumUnion(m, s, rest);
      SumInsert(m, both, x);
      SumInsert(m, rest, x);
      assert both + {x} == s + t && rest + {x} == t;
      Swap(SumOver(m, s), SumOver(m, rest), m[x]);
    }
  }

  /** Only the parts in `s` matter. */
  lemma {:induction false} SumAgree(m: Parts, m': Parts, s: set<string>)
    requires s <= m.Keys && s <= m'.Keys && forall x :: x in s ==> m[x] == m'[x]
    ensures SumOver(m, s) == SumOver(m', s)
    decreases |s|
  {
    if s != {} {
      var x :| x in s;
      SumAgree(m, m', s - {x});
      SumInsert(m, s - {x}, x);
      SumInsert(m', s - {x}, x);
      assert (s - {x}) + {x} == s;
    }
  }

  /** The members of `s` that `class` puts in class `c`. */
  function InClass(class_: map<string, string>, s: set<string>, c: string): (r: set<string>)
    requires s <= class_.Keys
    ensures r <= s
  {
    set x | x in s && class_[x] == c
  }

  /** The total of each class. */
  ghost function ClassTotals(m: Parts, class_: map<string, string>, s: set<string>): Parts
    requires s <= m.Keys && s <= class_.Keys
  {
    map c | c in (set x | x in s :: class_[x]) :: SumOver(m, InClass(class_, s, c))
  }

  /** Adding one member changes the total of its own class only. */
  lemma ClassInsert(m: Parts, class_: map<string, string>, rest: set<string>, x: string)
    requires rest + {x} <= m.Keys && rest + {x} <= class_.Keys && x !in rest
    ensures var c, t, u := class_[x], ClassTotals(m, class_, rest + {x}), ClassTotals(m, class_, rest);
            && t.Keys == u.Keys + {c}
            && (forall d :: d in t.Keys - {c} ==> t[d] == u[d])
            && t[c] == (if c in u then u[c] else ZERO).Plus(m[x])
  {
    hide Total.Plus;
    var s, c := rest + {x}, class_[x];
    assert InClass(class_, s, c) == InClass(class_, rest, c) + {x};
    SumInsert(m, InClass(class_, rest, c), x);
    forall d | d != c ensures InClass(class_, s, d) == InClass(class_, rest, d) {
    }
    var t, u := ClassTotals(m, class_, s), ClassTotals(m, class_, rest);
    assert class_[x] in t;
    if c !in u {
      assert InClass(class_, rest, c) == {};
    }
  }

  /** Class totals add up to the overall total: nothing is lost or counted twice. */
  lemma {:induction false} ClassesAddUp(m: Parts, class_: map<string, string>, s: set<string>)
    requires s <= m.Keys && s <= class_.Keys
    ensures var t := ClassTotals(m, class_, s); SumOver(t, t.Keys) == SumOver(m, s)
    decreases |s|
  {
    hide SumOver;
    if s != {} {
      var x :| x in s;
      var rest, c := s - {x}, class_[x];
      assert rest + {x} == s;
      ClassesAddUp(m, class_, rest);
      SumInsert(m, rest, x);
      ClassInsert(m, class_, rest, x);
      hide Total.Plus, ClassTotals;
      var t, u := ClassTotals(m, class_, s), ClassTotals(m, class_, rest);
      var others := t.Keys - {c};
      assert others + {c} == t.Keys;
      SumAgree(t, u, others);
      SumInsert(t, others, c);
      if c in u {
        assert u.Keys == others + {c};
        SumInsert(u, others, c);
        Swap(SumOver(u, others), u[c], m[x]);
      } else {
        assert u.Keys == others;
        Swap(m[x], ZERO, ZERO);
      }
    } else {
      assert ClassTotals(m, class_, s).Keys == {};
      SumEmpty(m);
      SumEmpty(ClassTotals(m, class_, s));
    }
  }

  predicate QuadAtMost(a: Quad<nat>, b: Quad<nat>) {
    a.uncached <= b.uncached && a.cacheRead <= b.cacheRead && a.cacheWrite <= b.cacheWrite && a.output <= b.output
  }

  predicate AtMost(a: Total, b: Total) {
    && a.calls <= b.calls && a.failed <= b.failed && a.unknownOutcomes <= b.unknownOutcomes && a.retries <= b.retries
    && a.known <= b.known && a.missing <= b.missing
    && QuadAtMost(a.tokens, b.tokens) && QuadAtMost(a.unknownTokens, b.unknownTokens)
  }

  /** A part of the calls never totals more than all of them. */
  lemma SumSubset(m: Parts, s: set<string>, t: set<string>)
    requires s <= t <= m.Keys
    ensures AtMost(SumOver(m, s), SumOver(m, t))
  {
    SumUnion(m, s, t - s);
    assert s + (t - s) == t;
  }
}

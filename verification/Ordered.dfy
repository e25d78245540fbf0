/** Map keys in order: a map keyed by strings is visited from its least key up. */
module Ordered {

  /** Lexicographic order. */
  predicate Below(a: string, b: string) {
    a == "" || (b != "" && (a[0] < b[0] || (a[0] == b[0] && Below(a[1..], b[1..]))))
  }

  lemma {:induction false} BelowTotal(a: string, b: string)
    ensures Below(a, b) || Below(b, a)
  {
    if a != "" && b != "" {
      BelowTotal(a[1..], b[1..]);
    }
  }

  lemma {:induction false} BelowAntisymmetric(a: string, b: string)
    requires Below(a, b) && Below(b, a)
    ensures a == b
  {
    if a != "" && b != "" {
      BelowAntisymmetric(a[1..], b[1..]);
      assert a == [a[0]] + a[1..] && b == [b[0]] + b[1..];
    }
  }

  lemma {:induction false} BelowTransitive(a: string, b: string, c: string)
    requires Below(a, b) && Below(b, c)
    ensures Below(a, c)
  {
    if a != "" && b != "" && c != "" && a[0] == b[0] == c[0] {
      BelowTransitive(a[1..], b[1..], c[1..]);
    }
  }

  predicate IsLeast(x: string, s: set<string>) {
    x in s && forall y | y in s :: Below(x, y)
  }

  lemma {:induction false} LeastExists(s: set<string>)
    requires s != {}
    ensures exists x :: IsLeast(x, s)
  {
    var a :| a in s;
    var rest := s - {a};
    if rest == {} {
      BelowTotal(a, a);
      assert s == {a} && IsLeast(a, s);
    } else {
      LeastExists(rest);
      var x :| IsLeast(x, rest);
      BelowTotal(a, x);
      BelowTotal(a, a);
      if Below(a, x) {
        forall y | y in s ensures Below(a, y) {
          if y != a {
            BelowTransitive(a, x, y);
          }
        }
        assert IsLeast(a, s);
      } else {
        assert IsLeast(x, s);
      }
    }
  }

  lemma LeastUnique(s: set<string>)
    ensures forall x, y :: IsLeast(x, s) && IsLeast(y, s) ==> x == y
  {
    forall x, y | IsLeast(x, s) && IsLeast(y, s) ensures x == y {
      BelowAntisymmetric(x, y);
    }
  }

  function Least(s: set<string>): (x: string)
    requires s != {}
    ensures IsLeast(x, s)
  {
    LeastExists(s);
    LeastUnique(s);
    var x :| x in s && IsLeast(x, s);
    x
  }

  /** The elements of `s`, least first. */
  function Sorted(s: set<string>): (r: seq<string>)
    ensures |r| == |s|
    decreases |s|
  {
    if s == {} then [] else
    var x := Least(s);
    [x] + Sorted(s - {x})
  }

  lemma {:induction false} SortedMembers(s: set<string>)
    ensures forall x :: x in Sorted(s) <==> x in s
    decreases |s|
  {
    if s != {} {
      SortedMembers(s - {Least(s)});
    }
  }

  /** Strictly increasing: every element once, in order. */
  lemma {:induction false} SortedOrder(s: set<string>, i: nat, j: nat)
    requires i < j < |s|
    ensures Sorted(s)[i] != Sorted(s)[j] && Below(Sorted(s)[i], Sorted(s)[j])
    decreases |s|
  {
    var x := Least(s);
    var rest := Sorted(s - {x});
    SortedMembers(s - {x});
    assert Sorted(s) == [x] + rest;
    if i > 0 {
      SortedOrder(s - {x}, i - 1, j - 1);
    } else {
      assert Sorted(s)[j] == rest[j - 1] && rest[j - 1] in s - {x};
    }
  }

  /** The elements of a sequence, as a set. */
  function Elements(r: seq<string>): set<string> {
    set x | x in r
  }

  lemma SortedElements(s: set<string>)
    ensures Elements(Sorted(s)) == s
  {
    SortedMembers(s);
  }

  lemma ElementsStep(r: seq<string>, i: nat)
    requires i < |r| && forall j :: 0 <= j < i ==> r[j] != r[i]
    ensures r[i] !in Elements(r[..i]) && Elements(r[..i + 1]) == Elements(r[..i]) + {r[i]}
  {
    assert r[..i + 1] == r[..i] + [r[i]];
  }

  /** The `i`th key is new. */
  lemma NextKey(s: set<string>, i: nat)
    requires i < |s|
    ensures var ks := Sorted(s);
            ks[i] in s && ks[i] !in Elements(ks[..i]) && Elements(ks[..i + 1]) == Elements(ks[..i]) + {ks[i]}
  {
    hide Sorted, Below;
    KeyAt(s, i);
    forall j | 0 <= j < i ensures Sorted(s)[j] != Sorted(s)[i] {
      SortedOrder(s, j, i);
    }
    ElementsStep(Sorted(s), i);
  }

  lemma AllKeys(s: set<string>)
    ensures Elements(Sorted(s)[..|s|]) == s && Elements(Sorted(s)[..0]) == {}
  {
    assert Sorted(s)[..|s|] == Sorted(s);
    SortedElements(s);
  }

  lemma KeyAt(s: set<string>, i: nat)
    requires i < |s|
    ensures Sorted(s)[i] in s
  {
    SortedMembers(s);
  }
}

/** The order in which Python sorts strings, and sorted listings of sets of names. */
module Names {

  /** Lexicographic order by code point. */
  predicate Before(a: string, b: string) {
    b != "" && (a == "" || a[0] < b[0] || (a[0] == b[0] && Before(a[1..], b[1..])))
  }

  lemma {:induction false} Irreflexive(a: string)
    ensures !Before(a, a)
  {
    if a != "" { Irreflexive(a[1..]); }
  }

  lemma {:induction false} Transitive(a: string, b: string, c: string)
    requires Before(a, b) && Before(b, c)
    ensures Before(a, c)
  {
    if a != "" && a[0] == b[0] && b[0] == c[0] { Transitive(a[1..], b[1..], c[1..]); }
  }

  lemma {:induction false} Trichotomy(a: string, b: string)
    ensures Before(a, b) || a == b || Before(b, a)
  {
    if a != "" && b != "" && a[0] == b[0] {
      Trichotomy(a[1..], b[1..]);
      assert a == [a[0]] + a[1..] && b == [b[0]] + b[1..];
    }
  }

  predicate First(names: set<string>, a: string) {
    a in names && forall b :: b in names ==> b == a || Before(a, b)
  }

  lemma {:induction false} FirstExists(names: set<string>)
    requires names != {}
    ensures exists a :: First(names, a)
    decreases |names|
  {
    var x :| x in names;
    var rest := names - {x};
    if rest == {} {
      assert forall b :: b in names ==> b == x || b in rest;
      assert First(names, x);
    } else {
      FirstExists(rest);
      var y :| First(rest, y);
      Trichotomy(x, y);
      if Before(x, y) {
        forall b | b in names ensures b == x || Before(x, b) {
          if b != x && b != y { Transitive(x, y, b); }
        }
        assert First(names, x);
      } else {
        assert First(names, y);
      }
    }
  }

  lemma FirstUnique(names: set<string>)
    ensures forall a, b :: First(names, a) && First(names, b) ==> a == b
  {
    forall a, b | First(names, a) && First(names, b) ensures a == b {
      if a != b { Transitive(a, b, a); Irreflexive(a); }
    }
  }

  predicate Increasing(list: seq<string>) {
    forall i, j :: 0 <= i < j < |list| ==> Before(list[i], list[j])
  }

  /** sorted(names): strictly increasing, the same names. */
  function Sorted(names: set<string>): (list: seq<string>)
    ensures Increasing(list)
    ensures forall a :: a in list <==> a in names
    ensures |list| == |names|
    decreases |names|
  {
    if names == {} then []
    else
      FirstExists(names);
      FirstUnique(names);
      var a :| First(names, a);
      var rest := Sorted(names - {a});
      assert forall i :: 0 <= i < |rest| ==> rest[i] in names && Before(a, rest[i]) by {
        assert forall b :: b in rest ==> b in names && Before(a, b);
      }
      [a] + rest
  }

  /** Two increasing lists of the same names are the same list. */
  lemma {:induction false} IncreasingUnique(a: seq<string>, b: seq<string>)
    requires Increasing(a) && Increasing(b) && forall x :: x in a <==> x in b
    ensures a == b
    decreases |a|
  {
    if a == [] {
      if b != [] { HasElement(b); }
    } else {
      assert a[0] in b && b != [];
      assert b[0] in a;
      if a[0] != b[0] {
        assert Before(b[0], a[0]) && Before(a[0], b[0]);
        Transitive(a[0], b[0], a[0]);
        Irreflexive(a[0]);
      }
      forall x ensures x in a[1..] <==> x in b[1..] {
        TailElements(a, x);
        TailElements(b, x);
      }
      IncreasingUnique(a[1..], b[1..]);
      assert a == [a[0]] + a[1..] && b == [b[0]] + b[1..];
    }
  }

  lemma HasElement(a: seq<string>)
    requires a != []
    ensures exists x :: x in a
  {
    assert a[0] in a;
  }

  lemma TailElements(a: seq<string>, x: string)
    requires Increasing(a) && a != []
    ensures x in a[1..] <==> x in a && x != a[0]
  {
    if x in a[1..] {
      var i :| 0 <= i < |a[1..]| && a[1..][i] == x;
      assert Before(a[0], a[i + 1]);
      Irreflexive(x);
    }
  }

  /** Listing, collecting and listing again changes nothing. */
  lemma SortedAgain(list: seq<string>)
    requires Increasing(list)
    ensures Sorted(set a | a in list) == list
  {
    IncreasingUnique(Sorted(set a | a in list), list);
  }
}

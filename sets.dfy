/** Cardinality facts about finite sets used by the counting handlers. */
module Sets {

  /** A subset is no larger than its superset. */
  lemma SubsetCard<T>(a: set<T>, b: set<T>)
    requires a <= b
    ensures |a| <= |b|
  {
    assert b == a + (b - a);
  }

  /** The image of a set under a function defined on it. */
  ghost function Image<A(!new), B(!new)>(s: set<A>, f: A --> B): (img: set<B>)
    requires forall x :: x in s ==> f.requires(x)
    ensures forall y :: y in img <==> exists x :: x in s && f(x) == y
  {
    set x | x in s :: f(x)
  }

  /** The image of a set is no larger than the set. */
  lemma {:induction false} ImageCard<A(!new), B(!new)>(s: set<A>, f: A --> B)
    requires forall x :: x in s ==> f.requires(x)
    ensures |Image(s, f)| <= |s|
    decreases |s|
  {
    if s != {} {
      var y :| y in s;
      var rest := s - {y};
      ImageCard(rest, f);
      assert Image(s, f) <= Image(rest, f) + {f(y)};
      SubsetCard(Image(s, f), Image(rest, f) + {f(y)});
    }
  }
}

/** Lists as the services keep them: erased from, cut to their newest entries. */
module Lists {
  /** The newest `n` elements. */
  function LastN<F>(s: seq<F>, n: nat): (r: seq<F>)
    ensures |r| == if |s| < n then |s| else n
  {
    if |s| <= n then s else s[|s| - n..]
  }

  lemma LastNOf<F>(s: seq<F>, x: F, n: nat)
    requires |s| <= n && n > 0
    ensures LastN(s + [x], n) == (if |s| == n then s[1..] else s) + [x]
  {
  }

  lemma LastNStep<F>(s: seq<F>, x: F, n: nat)
    requires n > 0
    ensures LastN(LastN(s, n) + [x], n) == LastN(s + [x], n)
  {
  }

  predicate NoDup(s: seq<int>) {
    forall i, j | 0 <= i < j < |s| :: s[i] != s[j]
  }

  /** Erases every occurrence of the members of `gone`, keeping the order of the rest. */
  function Drop(s: seq<int>, gone: set<int>): (r: seq<int>)
    ensures forall x :: x in r <==> x in s && x !in gone
    ensures NoDup(s) ==> NoDup(r)
    ensures s != [] && s[0] !in gone ==> r != [] && r[0] == s[0]
  {
    if s == [] then []
    else
      var rest := Drop(s[1..], gone);
      assert forall x :: x in s <==> x == s[0] || x in s[1..];
      if s[0] in gone then rest else [s[0]] + rest
  }

  lemma {:induction false} DropNothing(s: seq<int>, gone: set<int>)
    requires forall i | 0 <= i < |s| :: s[i] !in gone
    ensures Drop(s, gone) == s
  {
    if s != [] {
      DropNothing(s[1..], gone);
    }
  }

  lemma {:induction false} DropOf(s: seq<int>, x: int, g: set<int>, h: set<int>)
    requires forall y | y in s :: y in g <==> y in h
    ensures Drop(s + [x], h) == Drop(s, g) + if x in h then [] else [x]
  {
    if s == [] {
      assert s + [x] == [x];
    } else {
      assert (s + [x])[1..] == s[1..] + [x];
      DropOf(s[1..], x, g, h);
      assert s[0] in s;
    }
  }

  lemma {:induction false} DropDrop(s: seq<int>, g: set<int>, h: set<int>)
    ensures Drop(Drop(s, g), h) == Drop(s, g + h)
  {
    if s != [] {
      DropDrop(s[1..], g, h);
      if s[0] !in g {
        assert ([s[0]] + Drop(s[1..], g))[1..] == Drop(s[1..], g);
      }
    }
  }
}

/** Value-level operations on an owner's ordered list of member references.

    `Without` is what `branchLeaves.erase(std::remove(begin, end, leaf), end)`
    leaves behind: every occurrence of one entry gone, everything else kept in
    its original order. The lemmas below are the facts the owner/member
    relation relies on. */
module LeafList {

  /** The list `s` with every occurrence of `x` erased. */
  function Without<T(==)>(s: seq<T>, x: T): (r: seq<T>)
    ensures |r| <= |s|
    ensures x !in r
    ensures forall i :: 0 <= i < |s| && s[i] != x ==> s[i] in r
    ensures multiset(r) == multiset(s)[x := 0]
  {
    if s == [] then []
    else
      assert s == [s[0]] + s[1..];
      if s[0] == x then Without(s[1..], x)
      else [s[0]] + Without(s[1..], x)
  }

  /** Erasing distributes over concatenation: entries other than `x` keep
      their relative order, which with the multiset clause of `Without`
      determines the result completely. */
  lemma {:induction false} WithoutConcat<T>(a: seq<T>, b: seq<T>, x: T)
    ensures Without(a + b, x) == Without(a, x) + Without(b, x)
  {
    if a == [] {
      assert a + b == b;
    } else {
      assert (a + b)[1..] == a[1..] + b;
      WithoutConcat(a[1..], b, x);
    }
  }

  /** Erasing an entry that is absent changes nothing. */
  lemma {:induction false} WithoutAbsent<T>(s: seq<T>, x: T)
    requires x !in s
    ensures Without(s, x) == s
  {
    if s != [] {
      WithoutAbsent(s[1..], x);
    }
  }

  /** Erasing is idempotent. */
  lemma {:induction false} WithoutIdempotent<T>(s: seq<T>, x: T)
    ensures Without(Without(s, x), x) == Without(s, x)
  {
    WithoutAbsent(Without(s, x), x);
  }

  /** Appending an entry and then erasing it restores a list that did not
      hold it: registering a member and deregistering it again leaves the
      owner's list as it was. */
  lemma {:induction false} AppendThenWithout<T>(s: seq<T>, x: T)
    requires x !in s
    ensures Without(s + [x], x) == s
  {
    WithoutConcat(s, [x], x);
    WithoutAbsent(s, x);
    assert Without([x], x) == [];
  }

  /** Appending any other entry commutes with erasing `x`. */
  lemma {:induction false} WithoutAppendOther<T>(s: seq<T>, x: T, y: T)
    requires y != x
    ensures Without(s + [y], x) == Without(s, x) + [y]
  {
    WithoutConcat(s, [y], x);
    assert Without([y], x) == [y];
  }

  /** Erasing two entries gives the same list in either order, so the order
      in which members deregister does not matter. */
  lemma {:induction false} WithoutCommutes<T>(s: seq<T>, x: T, y: T)
    ensures Without(Without(s, x), y) == Without(Without(s, y), x)
  {
    if s != [] {
      WithoutCommutes(s[1..], x, y);
    }
  }
}

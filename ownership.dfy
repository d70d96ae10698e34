/** The generic owner/member relation of the ENSDF decay scheme.

    A `Branch` (owner) keeps an ordered, non-owning list of references to its
    members; a `Leaf` (member) keeps one reference back to its owner. A leaf
    registers with its branch when built and deregisters when destroyed; a
    branch that is destroyed first detaches every member it still lists.

    Dafny cannot free objects, so destruction is modelled by the `Arena`: the
    ghost sets of branches and leaves that are still alive. `Arena.Valid()` is
    the two-sided consistency of the relation, and every operation on live
    objects preserves it. */
module Ownership {
  import opened LeafList

  /** Branch equality: every entry of the left list is a non-null reference
      that also occurs in the right list. Only the left list is quantified,
      so the relation is one-directional. */
  predicate Covers(left: seq<Leaf?>, right: seq<Leaf?>)
  {
    forall i :: 0 <= i < |left| ==> left[i] != null && left[i] in right
  }

  class Branch {
    var branchLeaves: seq<Leaf?>

    /** The non-null members this branch lists. */
    function Members(): (ms: set<Leaf>)
      reads this
      ensures forall i :: 0 <= i < |branchLeaves| && branchLeaves[i] != null ==> branchLeaves[i] in ms
    {
      set l: Leaf | l in branchLeaves
    }

    constructor ()
      ensures branchLeaves == []
    {
      branchLeaves := [];
    }

    /** Appends `leaf`; duplicates are not prevented. */
    method AddLeaf(leaf: Leaf?)
      modifies this
      ensures branchLeaves == old(branchLeaves) + [leaf]
    {
      branchLeaves := branchLeaves + [leaf];
    }

    /** Erases every occurrence of `leaf`, keeping the order of the rest. */
    method RemoveLeaf(leaf: Leaf?)
      modifies this
      ensures branchLeaves == Without(old(branchLeaves), leaf)
    {
      branchLeaves := Without(branchLeaves, leaf);
    }

    /** A copy of the member list (a sequence is a value, so later changes
        to this branch do not reach the copy). */
    function GetLeaves(): (s: seq<Leaf?>)
      reads this
      ensures s == branchLeaves
    {
      branchLeaves
    }

    /** `operator==`: scans the left list, and for each entry the whole
        right list, looking for the same non-null reference. */
    method Equals(rhs: Branch) returns (r: bool)
      ensures r <==> Covers(branchLeaves, rhs.branchLeaves)
    {
      var i := 0;
      while i < |branchLeaves|
        invariant 0 <= i <= |branchLeaves|
        invariant Covers(branchLeaves[..i], rhs.branchLeaves)
      {
        var it := branchLeaves[i];
        var foundLeaf := false;
        var j := 0;
        while j < |rhs.branchLeaves|
          invariant 0 <= j <= |rhs.branchLeaves|
          invariant foundLeaf <==> it != null && it in rhs.branchLeaves[..j]
        {
          var irhs := rhs.branchLeaves[j];
          if irhs != null && it != null {
            if irhs == it {
              foundLeaf := true;
            }
          }
          assert rhs.branchLeaves[..j + 1] == rhs.branchLeaves[..j] + [irhs];
          j := j + 1;
        }
        assert rhs.branchLeaves[..j] == rhs.branchLeaves;
        if !foundLeaf {
          assert !(it != null && it in rhs.branchLeaves);
          return false;
        }
        i := i + 1;
      }
      assert branchLeaves[..i] == branchLeaves;
      return true;
    }

    /** The destructor: every listed member has its back-reference cleared,
        then the list is emptied. Each entry is dereferenced, so none may be
        null. Only this branch and its listed members change. */
    method Destroy()
      requires null !in branchLeaves
      modifies this, Members()
      ensures branchLeaves == []
      ensures forall l :: l in old(Members()) ==> l.branch == null
    {
      var i := 0;
      while i < |branchLeaves|
        invariant 0 <= i <= |branchLeaves|
        invariant branchLeaves == old(branchLeaves)
        invariant forall j :: 0 <= j < i ==> branchLeaves[j] != null && branchLeaves[j].branch == null
      {
        branchLeaves[i].RemoveBranch();
        i := i + 1;
      }
      branchLeaves := [];
    }
  }

  class Leaf {
    var branch: Branch?

    /** Stores the owner and, when there is one, appends this leaf to its
        list. */
    constructor (existingBranch: Branch?)
      modifies existingBranch
      ensures branch == existingBranch
      ensures existingBranch != null ==>
                existingBranch.branchLeaves == old(existingBranch.branchLeaves) + [this]
    {
      branch := existingBranch;
      new;
      if branch != null {
        branch.AddLeaf(this);
      }
    }

    /** The destructor: deregisters from the owner, if any, and clears the
        back-reference. */
    method Destroy()
      modifies this, branch
      ensures branch == null
      ensures old(branch) != null ==>
                old(branch).branchLeaves == Without(old(branch.branchLeaves), this)
    {
      if branch != null {
        branch.RemoveLeaf(this);
      }
      branch := null;
    }

    function GetBranch(): (b: Branch?)
      reads this
      ensures b == branch
    {
      branch
    }

    /** Called by the owner's destructor: forgets the owner without touching
        its list. */
    method RemoveBranch()
      modifies this
      ensures branch == null
    {
      branch := null;
    }

    /** `operator==`: two detached leaves are equal, a detached and an
        attached leaf are not, and two attached leaves are equal when their
        owners are equal as branches. */
    function Equals(rhs: Leaf): (r: bool)
      reads this, rhs, branch, rhs.branch
      ensures branch == null || rhs.branch == null ==> (r <==> branch == rhs.branch)
      ensures branch != null && rhs.branch != null ==>
                (r <==> Covers(branch.branchLeaves, rhs.branch.branchLeaves))
    {
      if branch == null && rhs.branch == null then true
      else if branch == null && rhs.branch != null then false
      else if branch != null && rhs.branch == null then false
      else
        // both attached: the only case left, so no input reaches the end of
        // the C++ `operator==` if-chain without a result
        Covers(branch.branchLeaves, rhs.branch.branchLeaves)
    }
  }

  /** The live objects of the relation. A destroyed object leaves its set. */
  class Arena {
    ghost var branches: set<Branch>
    ghost var leaves: set<Leaf>

    /** A live leaf with an owner points at a live branch that lists it, and
        a live branch lists only live leaves that point back at it. */
    ghost predicate Valid()
      reads this, branches, leaves
    {
      && (forall l :: l in leaves && l.branch != null ==>
            l.branch in branches && l in l.branch.branchLeaves)
      && (forall b, i :: b in branches && 0 <= i < |b.branchLeaves| ==>
            b.branchLeaves[i] != null && b.branchLeaves[i] in leaves &&
            b.branchLeaves[i].branch == b)
    }

    constructor ()
      ensures Valid() && branches == {} && leaves == {}
    {
      branches, leaves := {}, {};
    }

    /** `new Branch()`. */
    method NewBranch() returns (b: Branch)
      requires Valid()
      modifies this
      ensures Valid() && fresh(b)
      ensures b.branchLeaves == []
      ensures branches == old(branches) + {b} && leaves == old(leaves)
    {
      b := new Branch();
      branches := branches + {b};
    }

    /** `new Leaf(b)` for a live branch `b` or for null. */
    method NewLeaf(b: Branch?) returns (l: Leaf)
      requires Valid() && (b != null ==> b in branches)
      modifies this, b
      ensures Valid() && fresh(l)
      ensures l.branch == b
      ensures b != null ==> b.branchLeaves == old(b.branchLeaves) + [l]
      ensures leaves == old(leaves) + {l} && branches == old(branches)
    {
      l := new Leaf(b);
      leaves := leaves + {l};
      forall b', i | b' in branches && 0 <= i < |b'.branchLeaves|
        ensures b'.branchLeaves[i] != null && b'.branchLeaves[i] in leaves &&
                b'.branchLeaves[i].branch == b'
      {
        if b' == b && i == |b'.branchLeaves| - 1 {
          assert b'.branchLeaves[i] == l;
        } else {
          assert b'.branchLeaves[i] == old(b'.branchLeaves)[i];
        }
      }
    }

    /** `delete l` for a live leaf: it deregisters from its owner. No other
        leaf changes, and only the owner's list (if any) among the branches. */
    method DestroyLeaf(l: Leaf)
      requires Valid() && l in leaves
      modifies this, l, l.branch
      ensures Valid()
      ensures leaves == old(leaves) - {l} && branches == old(branches)
      ensures l.branch == null
      ensures old(l.branch) != null ==>
                old(l.branch).branchLeaves == Without(old(l.branch.branchLeaves), l)
      ensures forall l' :: l' in leaves ==> l'.branch == old(l'.branch)
      ensures forall b' :: b' in branches ==> b'.branchLeaves == Without(old(b'.branchLeaves), l)
    {
      ghost var b := l.branch;
      forall b' | b' in branches && b' != b
        ensures Without(b'.branchLeaves, l) == b'.branchLeaves
      {
        ListedIffOwned(this, l, b');
        WithoutAbsent(b'.branchLeaves, l);
      }
      l.Destroy();
      leaves := leaves - {l};
      forall b', i | b' in branches && 0 <= i < |b'.branchLeaves|
        ensures b'.branchLeaves[i] != null && b'.branchLeaves[i] in leaves &&
                b'.branchLeaves[i].branch == b'
      {
        var x := b'.branchLeaves[i];
        if b' == b {
          assert x in multiset(b'.branchLeaves);
          assert x in multiset(old(b'.branchLeaves));
        }
        assert x in old(b'.branchLeaves) && x != l;
        var k :| 0 <= k < |old(b'.branchLeaves)| && old(b'.branchLeaves)[k] == x;
      }
      forall l' | l' in leaves && l'.branch != null
        ensures l'.branch in branches && l' in l'.branch.branchLeaves
      {
        assert l' != l;
      }
    }

    /** `delete b` for a live branch: each leaf it lists is detached; every
        other leaf and every other branch is unchanged. */
    method DestroyBranch(b: Branch)
      requires Valid() && b in branches
      modifies this, b, b.Members()
      ensures Valid()
      ensures branches == old(branches) - {b} && leaves == old(leaves)
      ensures b.branchLeaves == []
      ensures forall l :: l in old(b.Members()) ==> l.branch == null
      ensures forall l :: l in leaves && l !in old(b.Members()) ==> l.branch == old(l.branch)
      ensures forall b' :: b' in branches ==> b'.branchLeaves == old(b'.branchLeaves)
    {
      assert null !in b.branchLeaves by {
        forall i | 0 <= i < |b.branchLeaves| ensures b.branchLeaves[i] != null { }
      }
      b.Destroy();
      branches := branches - {b};
    }
  }

  /** A leaf's owner is `b` exactly when `b` lists it. */
  lemma ListedIffOwned(a: Arena, l: Leaf, b: Branch)
    requires a.Valid() && l in a.leaves && b in a.branches
    ensures l.branch == b <==> l in b.branchLeaves
  {
  }

  /** No leaf is listed by two different live branches. */
  lemma AtMostOneOwner(a: Arena, l: Leaf, b1: Branch, b2: Branch)
    requires a.Valid() && b1 in a.branches && b2 in a.branches
    requires l in b1.branchLeaves && l in b2.branchLeaves
    ensures b1 == b2
  {
  }

  /** Between live branches, branch equality holds exactly when the left
        branch is empty or both are the same branch. */
  lemma BranchEqualityIsIdentity(a: Arena, b1: Branch, b2: Branch)
    requires a.Valid() && b1 in a.branches && b2 in a.branches
    ensures Covers(b1.branchLeaves, b2.branchLeaves) <==> b1.branchLeaves == [] || b1 == b2
  {
    if b1.branchLeaves != [] && Covers(b1.branchLeaves, b2.branchLeaves) {
      var l := b1.branchLeaves[0];
      AtMostOneOwner(a, l, b1, b2);
    }
  }

  /** Between live leaves, leaf equality holds exactly when both have the
      same owner (or both have none). */
  lemma LeafEqualityIsSameOwner(a: Arena, l1: Leaf, l2: Leaf)
    requires a.Valid() && l1 in a.leaves && l2 in a.leaves
    ensures l1.Equals(l2) <==> l1.branch == l2.branch
  {
  }

  /** Branch equality is reflexive exactly for lists without null. */
  lemma CoversSelf(s: seq<Leaf?>)
    ensures Covers(s, s) <==> null !in s
  {
  }

  /** Branch equality is not symmetric: an empty branch equals every branch,
      but a branch with a member does not equal an empty one. */
  lemma CoversNotSymmetric(l: Leaf)
    ensures (forall s: seq<Leaf?> :: Covers([], s)) && !Covers([l], [])
  {
    assert [l][0] == l;
  }
}

/** How the decay-scheme records use the owner/member relation.

    A parent, normalization or level record is an owner (it carries a
    `Branch`); a normalization record is also a member of its parent; every
    beta, gamma and alpha emission record is a member of a parent, a
    normalization and a level record at once, through three independent
    `Leaf` parts. The decoded physics fields of the records are not part of
    this model. */
module Records {
  import opened LeafList
  import opened Ownership

  datatype EmissionKind = BetaMinus | BetaPlus | Gamma | Alpha

  class ParentRecord {
    const members: Branch

    constructor (arena: Arena)
      requires arena.Valid()
      modifies arena
      ensures arena.Valid() && fresh(members)
      ensures members.branchLeaves == []
      ensures arena.branches == old(arena.branches) + {members}
      ensures arena.leaves == old(arena.leaves)
    {
      var b := arena.NewBranch();
      members := b;
    }

    /** The destructor: the owner part detaches every remaining member. */
    method Destroy(arena: Arena)
      requires arena.Valid() && members in arena.branches
      modifies arena, members, members.Members()
      ensures arena.Valid()
      ensures arena.branches == old(arena.branches) - {members}
      ensures arena.leaves == old(arena.leaves)
      ensures forall l :: l in old(members.Members()) ==> l.branch == null
      ensures forall l :: l in arena.leaves && l !in old(members.Members()) ==>
                l.branch == old(l.branch)
    {
      arena.DestroyBranch(members);
    }
  }

  /** The owner part of a parent record, or null. */
  function ParentBranch(p: ParentRecord?): (b: Branch?)
    ensures b == null <==> p == null
  {
    if p == null then null else p.members
  }

  class NormalizationRecord {
    const members: Branch
    const parentLeaf: Leaf

    constructor (arena: Arena, parent: ParentRecord?)
      requires arena.Valid() && (parent != null ==> parent.members in arena.branches)
      modifies arena, ParentBranch(parent)
      ensures arena.Valid() && fresh(members) && fresh(parentLeaf)
      ensures members.branchLeaves == [] && parentLeaf.branch == ParentBranch(parent)
      ensures parent != null ==>
                parent.members.branchLeaves == old(parent.members.branchLeaves) + [parentLeaf]
      ensures arena.branches == old(arena.branches) + {members}
      ensures arena.leaves == old(arena.leaves) + {parentLeaf}
    {
      var b := arena.NewBranch();
      var l := arena.NewLeaf(ParentBranch(parent));
      members, parentLeaf := b, l;
    }

    /** The destructor: the member part leaves its parent first, then the
        owner part detaches the emission records that remain. */
    method Destroy(arena: Arena)
      requires arena.Valid() && members in arena.branches && parentLeaf in arena.leaves
      modifies arena, parentLeaf, parentLeaf.branch, members, members.Members()
      ensures arena.Valid()
      ensures arena.branches == old(arena.branches) - {members}
      ensures arena.leaves == old(arena.leaves) - {parentLeaf}
      ensures parentLeaf.branch == null
      ensures old(parentLeaf.branch) != null ==> parentLeaf !in old(parentLeaf.branch).branchLeaves
      ensures forall b :: b in arena.branches ==> b.branchLeaves == Without(old(b.branchLeaves), parentLeaf)
      ensures forall l :: l in old(members.Members()) ==> l.branch == null
      ensures forall l :: l in arena.leaves && l !in old(members.Members()) ==>
                l.branch == old(l.branch)
    {
      arena.DestroyLeaf(parentLeaf);
      arena.DestroyBranch(members);
    }
  }

  /** The owner part of a normalization record, or null. Like `ParentBranch`
      and `LevelBranch`: the three record classes share no base type, so each
      needs its own accessor. */
  function NormalizationBranch(n: NormalizationRecord?): (b: Branch?)
    ensures b == null <==> n == null
  {
    if n == null then null else n.members
  }

  class LevelRecord {
    const members: Branch

    constructor (arena: Arena)
      requires arena.Valid()
      modifies arena
      ensures arena.Valid() && fresh(members)
      ensures members.branchLeaves == []
      ensures arena.branches == old(arena.branches) + {members}
      ensures arena.leaves == old(arena.leaves)
    {
      var b := arena.NewBranch();
      members := b;
    }

    method Destroy(arena: Arena)
      requires arena.Valid() && members in arena.branches
      modifies arena, members, members.Members()
      ensures arena.Valid()
      ensures arena.branches == old(arena.branches) - {members}
      ensures arena.leaves == old(arena.leaves)
      ensures forall l :: l in old(members.Members()) ==> l.branch == null
      ensures forall l :: l in arena.leaves && l !in old(members.Members()) ==>
                l.branch == old(l.branch)
    {
      arena.DestroyBranch(members);
    }
  }

  /** The owner part of a level record, or null (see `NormalizationBranch`). */
  function LevelBranch(v: LevelRecord?): (b: Branch?)
    ensures b == null <==> v == null
  {
    if v == null then null else v.members
  }

  /** The three owners are records of three different types, so their owner
      parts are different objects. */
  predicate DistinctOwners(p: Branch?, n: Branch?, v: Branch?)
  {
    && (p != null && n != null ==> p != n)
    && (p != null && v != null ==> p != v)
    && (n != null && v != null ==> n != v)
  }

  /** A beta-minus, beta-plus, gamma or alpha record: one record that is a
      member of three relations. */
  class EmissionRecord {
    const kind: EmissionKind
    const parentLeaf: Leaf
    const normalizationLeaf: Leaf
    const levelLeaf: Leaf

    /** The three member parts are separate objects. */
    ghost predicate PartsDistinct()
    {
      parentLeaf != normalizationLeaf && parentLeaf != levelLeaf && normalizationLeaf != levelLeaf
    }

    /** Registers with each non-null owner, in the order of the C++ base
        classes; the three parts are independent objects. */
    constructor (arena: Arena, kind: EmissionKind, parent: ParentRecord?,
                 normalization: NormalizationRecord?, level: LevelRecord?)
      requires arena.Valid()
      requires parent != null ==> parent.members in arena.branches
      requires normalization != null ==> normalization.members in arena.branches
      requires level != null ==> level.members in arena.branches
      requires DistinctOwners(ParentBranch(parent), NormalizationBranch(normalization), LevelBranch(level))
      modifies arena, ParentBranch(parent), NormalizationBranch(normalization), LevelBranch(level)
      ensures arena.Valid() && PartsDistinct()
      ensures fresh(parentLeaf) && fresh(normalizationLeaf) && fresh(levelLeaf)
      ensures this.kind == kind
      ensures parentLeaf.branch == ParentBranch(parent)
      ensures normalizationLeaf.branch == NormalizationBranch(normalization)
      ensures levelLeaf.branch == LevelBranch(level)
      ensures parent != null ==>
                parent.members.branchLeaves == old(parent.members.branchLeaves) + [parentLeaf]
      ensures normalization != null ==>
                normalization.members.branchLeaves ==
                old(normalization.members.branchLeaves) + [normalizationLeaf]
      ensures level != null ==>
                level.members.branchLeaves == old(level.members.branchLeaves) + [levelLeaf]
      ensures arena.branches == old(arena.branches)
      ensures arena.leaves == old(arena.leaves) + {parentLeaf, normalizationLeaf, levelLeaf}
    {
      this.kind := kind;
      var p := arena.NewLeaf(ParentBranch(parent));
      var n := arena.NewLeaf(NormalizationBranch(normalization));
      var v := arena.NewLeaf(LevelBranch(level));
      parentLeaf, normalizationLeaf, levelLeaf := p, n, v;
    }

    /** The destructor: the three member parts deregister, in the reverse
        order of construction. Every live branch ends up without any of the
        three leaves, and nothing else in it changes. */
    method Destroy(arena: Arena)
      requires arena.Valid() && PartsDistinct()
      requires parentLeaf in arena.leaves && normalizationLeaf in arena.leaves
      requires levelLeaf in arena.leaves
      modifies arena, parentLeaf, normalizationLeaf, levelLeaf
      modifies parentLeaf.branch, normalizationLeaf.branch, levelLeaf.branch
      ensures arena.Valid()
      ensures arena.branches == old(arena.branches)
      ensures arena.leaves == old(arena.leaves) - {parentLeaf, normalizationLeaf, levelLeaf}
      ensures parentLeaf.branch == null && normalizationLeaf.branch == null
      ensures levelLeaf.branch == null
      ensures forall b :: b in arena.branches ==>
                b.branchLeaves ==
                Without(Without(Without(old(b.branchLeaves), levelLeaf), normalizationLeaf), parentLeaf)
    {
      arena.DestroyLeaf(levelLeaf);
      arena.DestroyLeaf(normalizationLeaf);
      arena.DestroyLeaf(parentLeaf);
    }
  }
}

/** One emission record attached to a parent, a normalization and a level,
    torn down in two different orders. Whichever side goes first, no member
    is left pointing at a destroyed owner, and the relations the destroyed
    object was not part of are untouched. */
module Teardown {
  import opened LeafList
  import opened Ownership
  import opened Records

  /** Builds the scheme: a parent, a normalization under it, a level, and one
      emission record that is a member of all three. */
  method BuildScheme(kind: EmissionKind)
    returns (arena: Arena, p: ParentRecord, n: NormalizationRecord, v: LevelRecord, e: EmissionRecord)
    ensures fresh(arena) && fresh(p.members) && fresh(n.members) && fresh(v.members)
    ensures fresh(n.parentLeaf) && fresh(e.parentLeaf) && fresh(e.normalizationLeaf) && fresh(e.levelLeaf)
    ensures arena.Valid() && e.PartsDistinct() && e.kind == kind
    ensures n.parentLeaf !in {e.parentLeaf, e.normalizationLeaf, e.levelLeaf}
    ensures arena.branches == {p.members, n.members, v.members}
    ensures arena.leaves == {n.parentLeaf, e.parentLeaf, e.normalizationLeaf, e.levelLeaf}
    ensures p.members.branchLeaves == [n.parentLeaf, e.parentLeaf]
    ensures n.members.branchLeaves == [e.normalizationLeaf]
    ensures v.members.branchLeaves == [e.levelLeaf]
    ensures n.parentLeaf.branch == p.members && e.parentLeaf.branch == p.members
    ensures e.normalizationLeaf.branch == n.members && e.levelLeaf.branch == v.members
  {
    arena := new Arena();
    p := new ParentRecord(arena);
    n := new NormalizationRecord(arena, p);
    v := new LevelRecord(arena);
    e := new EmissionRecord(arena, kind, p, n, v);
  }

  method OwnerFirst()
  {
    var arena, p, n, v, g := BuildScheme(Gamma);
    assert p.members.Members() == {n.parentLeaf, g.parentLeaf};
    p.Destroy(arena);
    assert n.parentLeaf.branch == null && g.parentLeaf.branch == null;
    assert g.normalizationLeaf.branch == n.members && g.levelLeaf.branch == v.members;
    assert n.members.branchLeaves == [g.normalizationLeaf];
  }

  method MemberFirst()
  {
    var arena, p, n, v, a := BuildScheme(Alpha);
    ghost var listed := [n.parentLeaf, a.parentLeaf];
    WithoutAbsent(listed, a.levelLeaf);
    WithoutAbsent(listed, a.normalizationLeaf);
    assert [n.parentLeaf] + [a.parentLeaf] == listed;
    AppendThenWithout([n.parentLeaf], a.parentLeaf);
    a.Destroy(arena);
    assert p.members.branchLeaves == [n.parentLeaf];
    assert n.members.branchLeaves == [] && v.members.branchLeaves == [];
    assert n.parentLeaf.branch == p.members;
  }
}

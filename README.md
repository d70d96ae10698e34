# Owner/member relation of the EGSnrc ENSDF decay scheme

EGSnrc's ENSDF reader (`egs_ensdf.h`) links its decay-scheme records with a
generic, non-owning, two-sided relation. A `Branch<T>` (owner) keeps an ordered
`vector` of member pointers. A `Leaf<T>` (member) keeps one pointer back to its
owner. These are the operations:

- A leaf registers with its owner in its constructor and deregisters in its
  destructor.
- An owner's destructor clears the back-pointer of every member it still lists.
- Both templates define their own `operator==`.

The records use the relation as a composite:

- Parent, normalization and level records are owners.
- A normalization record is also a member of its parent.
- Every beta, gamma and alpha emission record is a member of a parent, a
  normalization and a level at the same time.

This project models the relation in Dafny, with classes that are updated in
place:

- `leaf_list.dfy`, module `LeafList`. It defines `Without`, the list that
  `erase(std::remove(...))` leaves behind, and the lemmas about it: order is
  kept, the operation is idempotent, an absent entry changes nothing,
  append-then-remove is a round trip, and removals commute.
- `ownership.dfy`, module `Ownership`. It has the classes `Branch` and `Leaf`,
  with the fields (`branchLeaves`, `branch`) and operations of the C++ templates.
  - `Branch.Equals` keeps the nested loops of the C++ `operator==` and is proved against the
    predicate `Covers`.
  - Objects cannot be freed in Dafny, so "destroyed" is modelled by `Arena`.
    It is the ghost set of live branches and live leaves.
  - `Arena.Valid()` is the consistency invariant. A live leaf's owner is a
    live branch that lists it. A live branch lists only live leaves that point
    back at it.
  - `Branch()`, `Leaf(T*)`, `~Branch` and `~Leaf` each preserve `Valid()`, so
    the invariant holds under any sequence of them. In particular no leaf ever
    holds a destroyed owner. The implicit copy operations are not among them
    (see "Left out").
- `records.dfy`, modules `Records` and `Teardown`.
  - `Records` has the owner parts of the parent, normalization and level
    records, and the emission record with its three independent member parts.
    Beta-minus and beta-plus records (lines 272-275, 313, 329), gamma records
    (357-361) and alpha records (413-416) all have the same three member
    bases. One `EmissionRecord` class with an `EmissionKind` tag stands for
    all of them.
  - Their destructors are modelled in the order C++ destroys base classes,
    which is the reverse of declaration order.
  - The header declares the record constructors but does not define them.
    The model assumes each one hands the owners it receives to the
    `Leaf(T*)` of the matching base (see "Left out").
  - `Teardown` builds one such scheme. `OwnerFirst` and `MemberFirst` then
    state what each of two teardown orders leaves behind.

The code keeps an ordered `vector` that accepts duplicates and null, and this model follows
the code.

`Branch.GetLeaves` and `Leaf.GetBranch` return the field. A Dafny sequence is a
value, so the copy that `getLeaves` makes is automatic.

## Model

| member | source | states |
|---|---|---|
| `Ownership.Branch.constructor` | HEN_HOUSE/egs++/egs_ensdf.h:58 | a new branch lists no leaves |
| `Ownership.Branch.AddLeaf` | HEN_HOUSE/egs++/egs_ensdf.h:68-70 | the leaf is appended at the end; earlier entries and their order are unchanged; duplicates and null are accepted |
| `Ownership.Branch.RemoveLeaf` | HEN_HOUSE/egs++/egs_ensdf.h:72-76 | the new list is `Without(old list, leaf)` |
| `LeafList.Without` | HEN_HOUSE/egs++/egs_ensdf.h:72-76 | no occurrence of the erased entry is left; every other entry survives, with its multiplicity unchanged; the list never grows |
| `LeafList.WithoutConcat` | HEN_HOUSE/egs++/egs_ensdf.h:72-76 | erasing distributes over concatenation, so the remaining entries keep their relative order |
| `LeafList.WithoutAbsent` | HEN_HOUSE/egs++/egs_ensdf.h:72-76 | removing a leaf that is not listed leaves the list unchanged |
| `LeafList.WithoutIdempotent` | HEN_HOUSE/egs++/egs_ensdf.h:72-76 | removing the same leaf twice is the same as removing it once |
| `LeafList.AppendThenWithout` | HEN_HOUSE/egs++/egs_ensdf.h:68-76 | adding a leaf that was not listed and then removing it restores the original list |
| `LeafList.WithoutAppendOther` | HEN_HOUSE/egs++/egs_ensdf.h:68-76 | appending one leaf and removing another commute |
| `LeafList.WithoutCommutes` | HEN_HOUSE/egs++/egs_ensdf.h:72-76 | removing two leaves gives the same list in either order, so the order in which members deregister does not matter |
| `Ownership.Branch.GetLeaves` | HEN_HOUSE/egs++/egs_ensdf.h:78-80 | returns the member list; a sequence is a value, so the result is the copy `getLeaves` makes |
| `Ownership.Leaf.GetBranch` | HEN_HOUSE/egs++/egs_ensdf.h:127-129 | returns the stored owner, or null when detached |
| `Ownership.Branch.Equals` | HEN_HOUSE/egs++/egs_ensdf.h:83-104 | the nested scan returns true exactly when every entry of the left list is non-null and occurs in the right list (`Covers`) |
| `Ownership.CoversSelf` | HEN_HOUSE/egs++/egs_ensdf.h:83-104 | a branch equals itself exactly when its list holds no null |
| `Ownership.CoversNotSymmetric` | HEN_HOUSE/egs++/egs_ensdf.h:83-104 | an empty left list equals every list, but a list with one non-null member does not equal an empty one, so branch equality is not symmetric |
| `Ownership.BranchEqualityIsIdentity` | HEN_HOUSE/egs++/egs_ensdf.h:83-104 | between live branches of a consistent relation, equality holds exactly when the left branch is empty or both are the same branch |
| `Ownership.Branch.Destroy` | HEN_HOUSE/egs++/egs_ensdf.h:60-66 | every listed leaf has its owner cleared, the list ends empty, and only this branch and its listed leaves change; each entry is dereferenced, so none may be null |
| `Ownership.Leaf.constructor` | HEN_HOUSE/egs++/egs_ensdf.h:113-118 | the leaf stores the given owner and is appended to that owner's list; with null, no branch changes |
| `Ownership.Leaf.Destroy` | HEN_HOUSE/egs++/egs_ensdf.h:120-125 | an attached leaf is erased from its owner's list; afterwards its owner is null; a detached leaf touches no branch |
| `Ownership.Leaf.RemoveBranch` | HEN_HOUSE/egs++/egs_ensdf.h:131-133 | the owner becomes null and nothing else changes |
| `Ownership.Leaf.Equals` | HEN_HOUSE/egs++/egs_ensdf.h:136-149 | when at least one leaf is detached, they are equal exactly when both are; when both are attached, they are equal when their owners are equal as branches; the function is total |
| `Ownership.LeafEqualityIsSameOwner` | HEN_HOUSE/egs++/egs_ensdf.h:136-149 | between live leaves of a consistent relation, leaf equality holds exactly when both have the same owner or both have none |
| `Ownership.Arena.constructor` | HEN_HOUSE/egs++/egs_ensdf.h:55-153 | the empty relation is consistent |
| `Ownership.Arena.NewBranch` | HEN_HOUSE/egs++/egs_ensdf.h:58 | a new branch is live and empty, and consistency is preserved |
| `Ownership.Arena.NewLeaf` | HEN_HOUSE/egs++/egs_ensdf.h:113-118 | a new leaf attached to a live branch or to none is appended to that branch's list, and consistency is preserved |
| `Ownership.Arena.DestroyLeaf` | HEN_HOUSE/egs++/egs_ensdf.h:120-125 | the leaf leaves the live set; every live branch's list becomes `Without(old list, leaf)`; no other leaf changes; consistency is preserved |
| `Ownership.Arena.DestroyBranch` | HEN_HOUSE/egs++/egs_ensdf.h:60-66 | every leaf the branch listed is detached; every other leaf and every other branch is unchanged; consistency is preserved, so no leaf holds the destroyed branch |
| `Ownership.ListedIffOwned` | HEN_HOUSE/egs++/egs_ensdf.h:60-66 | in a consistent relation, a live leaf points at a live branch exactly when that branch lists it |
| `Ownership.AtMostOneOwner` | HEN_HOUSE/egs++/egs_ensdf.h:113-125 | in a consistent relation, no leaf is listed by two different live branches |
| `Records.ParentRecord.constructor` | HEN_HOUSE/egs++/egs_ensdf.h:187-189 | a parent record's owner part is a new, empty, live branch |
| `Records.ParentRecord.Destroy` | HEN_HOUSE/egs++/egs_ensdf.h:187 | destroying a parent detaches all its members (normalization and emission parts) and nothing else |
| `Records.NormalizationRecord.constructor` | HEN_HOUSE/egs++/egs_ensdf.h:208-211 | a normalization record is a new, empty owner and a member appended to its parent's list; the constructor body is not in the header, so this is the assumed registration (see "Left out") |
| `Records.NormalizationRecord.Destroy` | HEN_HOUSE/egs++/egs_ensdf.h:208-209 | its member part leaves the parent's list, which becomes `Without(old list, member part)` while every other live list is unchanged; then its owner part detaches the remaining emission parts |
| `Records.LevelRecord.constructor` | HEN_HOUSE/egs++/egs_ensdf.h:243-246 | a level record's owner part is a new, empty, live branch |
| `Records.LevelRecord.Destroy` | HEN_HOUSE/egs++/egs_ensdf.h:243 | destroying a level detaches all its members and nothing else |
| `Records.EmissionRecord.constructor` | HEN_HOUSE/egs++/egs_ensdf.h:357-361 | one emission record registers three separate member parts, each appended to its own owner's list; the constructor body is not in the header, so this is the assumed registration (see "Left out") |
| `Records.EmissionRecord.Destroy` | HEN_HOUSE/egs++/egs_ensdf.h:357-358 | the three member parts deregister, and every live branch's list loses exactly those three leaves |
| `Teardown.BuildScheme` | HEN_HOUSE/egs++/egs_ensdf.h:413-416 | a parent, a normalization under it, a level and one emission record give the expected lists and back-pointers |

## Left out

- Fixed-column decoding is not modelled (`recordToDouble`, `recordToString`,
  `getTag`, `parseHalfLife`, `parseStdUncertainty`, `getStringAfter`). The
  header only declares these functions; their bodies are not part of this
  model.
- The decoded record fields and their getters and setters are not modelled:
  half-life, Q-value, multipliers, energies, intensities, charges, sampled
  counters, and the gamma's final level. They are declared without bodies, and
  they play no part in the relation.
- `EGS_Ensdf` is not modelled: its construction, `parseEnsdf`, `buildRecords`,
  `normalizeIntensities`, `getEmissionsFromComments` and `findAtomicWeight`.
  They are declarations without bodies, and the normalization and comment
  merging are floating-point arithmetic.
- The `relax(...)` methods are not modelled. They call the atomic-relaxation
  tables and the random-number generator, which are outside this code.
- `setSpectrum`/`getSpectrum` are not modelled. They wrap the alias-table
  sampling library.
- File reading and verbosity are not modelled. They are I/O and logging.
- The template parameter is not modelled. EGSnrc instantiates `Branch<T>`
  and `Leaf<T>` once per record type. Here one `Branch` class and one `Leaf`
  class serve all three relations. C++ types keep a parent, a normalization
  and a level apart. Here `Records.DistinctOwners` and
  `Records.EmissionRecord.PartsDistinct` do that job.
- `Leaf::operator==` takes `const T&` and reads `rhs.branch`. It is modelled
  by its evident intent, a comparison of two leaves. The end of its if-chain
  has no `return`, but the four guards leave no input there, so the modelled
  function is total.
- Destruction is modelled by removal from the arena's live sets. The model
  does not capture the release of memory. It captures the consequence that
  matters: no live leaf points at a branch outside the live set.
- The implicit copy constructor and copy assignment of `Branch<T>` and
  `Leaf<T>` are not modelled. The templates declare destructors but no copy
  operations, so C++ generates member-wise copies. A copied leaf points at an
  owner that does not list it. A copied branch lists leaves that do not point
  back at it. Either breaks the two-sided invariant, so `Arena.Valid()` is
  proved only for construction and destruction.
- The record constructor bodies are not in `egs_ensdf.h`; only their
  declarations are: `ParentRecordLeaf(ParentRecord*)` (line 203),
  `NormalizationRecord(ensdf, parent)` (211), `NormalizationRecordLeaf`
  (238), `LevelRecordLeaf` (267), `BetaRecordLeaf` (275-276),
  `BetaMinusRecord` and `BetaPlusRecord` (315, 331), `GammaRecord` (360-362)
  and `AlphaRecord` (416-417). `Leaf<T>` has no default constructor, so each
  base must be built through `Leaf(T*)`. The record constructors in
  `Records` assume that each `*RecordLeaf(T *myRecord)` passes `myRecord` to
  `Leaf(T*)`, and that each record constructor passes on the owners it
  receives.
- The second gamma constructor `GammaRecord(GammaRecord *gamma)` (line 363)
  is not modelled. It is only declared, so which owners the copy registers
  with is not visible.

/** One block directory of a new archive while jobs fill it, next to the directory of its base archive.
    A claim is one place of the new archive that needs a block: a chunk of a file, or a file's FInfo.
    Every action of a job on its claim is one atomic step; the jobs interleave freely. */
module BlockStores {
  import opened Common

  datatype Claim = Claim(file: nat, part: nat)

  /** How far the job of a claim has come (`HashAndCompressJob`, and the FInfo part of `Create`). */
  datatype Phase =
    | Waiting
    | Freed
    | Owned(idx: int)
    | Linked(idx: int)
    | Written(idx: int, data: string)

  /** The base archive: block index to inode, inode to bytes, and the base block each claim starts from. */
  datatype Base = Base(dir: map<int, int>, disk: map<int, string>, claims: map<Claim, Option<int>>)

  /** `alloc` is the allocator's set; `dir` and `disk` are what the file system holds; `fault` records an exception. */
  datatype Store = Store(
    alloc: set<int>, dir: map<int, int>, disk: map<int, string>, phase: map<Claim, Phase>, fault: bool)

  /** After `ReverseAlloc` of the base directory, with nothing linked or written yet. */
  function Fresh(b: Base): Store {
    Store(b.dir.Keys, map[], b.disk, map c | c in b.claims :: Waiting, false)
  }

  ghost predicate At(b: Base, s: Store, c: Claim, p: Phase) {
    c in b.claims && c in s.phase && s.phase[c] == p
  }

  /** `BlockList::Link`: the new name becomes a hard link to the base block; an existing name or a missing target throws. */
  ghost predicate LinkStep(b: Base, s: Store, c: Claim, s': Store) {
    && At(b, s, c, Waiting) && b.claims[c].Some?
    && var i := b.claims[c].value;
       if i in b.dir && i !in s.dir
       then s' == s.(dir := s.dir[i := b.dir[i]], phase := s.phase[c := Linked(i)])
       else s' == s.(fault := true)
  }

  ghost predicate FreeStep(b: Base, s: Store, c: Claim, s': Store) {
    && At(b, s, c, Waiting) && b.claims[c].Some?
    && var i := b.claims[c].value;
       if i in s.alloc
       then s' == s.(alloc := s.alloc - {i}, phase := s.phase[c := Freed])
       else s' == s.(fault := true)
  }

  predicate Lowest(alloc: set<int>, i: int) {
    0 <= i && i !in alloc && forall j :: 0 <= j < i ==> j in alloc
  }

  ghost predicate AllocStep(b: Base, s: Store, c: Claim, s': Store) {
    && (At(b, s, c, Freed) || (At(b, s, c, Waiting) && b.claims[c].None?))
    && exists i :: Lowest(s.alloc, i) && s' == s.(alloc := s.alloc + {i}, phase := s.phase[c := Owned(i)])
  }

  /** `SpitBlock` opens with "wb": an existing name keeps its inode and loses its bytes, wherever else it is linked. */
  ghost predicate SpitStep(b: Base, s: Store, c: Claim, data: string, s': Store) {
    && c in b.claims && c in s.phase && s.phase[c].Owned?
    && var i := s.phase[c].idx;
       var done := s.phase[c := Written(i, data)];
       if i in s.dir
       then s' == s.(disk := s.disk[s.dir[i] := data], phase := done)
       else exists n :: n !in s.disk && s' == s.(disk := s.disk[n := data], dir := s.dir[i := n], phase := done)
  }

  /** One action of a job that has decided to keep its base block, or to write `data` into a fresh one. */
  ghost predicate Action(b: Base, s: Store, c: Claim, keep: bool, data: string, s': Store) {
    if keep then LinkStep(b, s, c, s')
    else FreeStep(b, s, c, s') || AllocStep(b, s, c, s') || SpitStep(b, s, c, data, s')
  }

  ghost predicate Step(b: Base, s: Store, c: Claim, s': Store) {
    exists keep, data :: Action(b, s, c, keep, data, s')
  }

  ghost predicate SomeAction(b: Base, s: Store, s': Store) {
    exists c, keep, data :: Action(b, s, c, keep, data, s')
  }

  /** Claims start from different base blocks, all of which exist. */
  ghost predicate Disjoint(b: Base) {
    && (forall c :: c in b.claims && b.claims[c].Some? ==> b.claims[c].value in b.dir)
    && (forall c, d :: c in b.claims && d in b.claims && b.claims[c].Some? && b.claims[c] == b.claims[d] ==> c == d)
    && (forall i :: i in b.dir ==> b.dir[i] in b.disk)
  }

  /** The index that a claim currently answers for. */
  ghost function Held(b: Base, s: Store, c: Claim): Option<int>
    requires c in b.claims && c in s.phase
  {
    match s.phase[c]
    case Waiting => b.claims[c]
    case Freed => None
    case Owned(i) => Some(i)
    case Linked(i) => Some(i)
    case Written(i, _) => Some(i)
  }

  ghost predicate PhaseInv(b: Base, s: Store, c: Claim)
    requires c in b.claims && c in s.phase
  {
    match s.phase[c]
    case Waiting => b.claims[c].Some? ==> b.claims[c].value in s.alloc && b.claims[c].value !in s.dir
    case Freed => b.claims[c].Some?
    case Owned(i) => 0 <= i && i in s.alloc && i !in s.dir
    case Linked(i) => b.claims[c] == Some(i) && i in s.dir && i in b.dir && s.dir[i] == b.dir[i]
    case Written(i, data) => 0 <= i && i in s.dir && s.dir[i] in s.disk && s.dir[i] !in b.disk && s.disk[s.dir[i]] == data
  }

  predicate Fills(p: Phase, i: int) { (p.Linked? || p.Written?) && p.idx == i }

  ghost predicate PhasesHold(b: Base, s: Store) {
    s.phase.Keys == b.claims.Keys && forall c :: c in b.claims ==> PhaseInv(b, s, c)
  }

  ghost predicate HeldOnce(b: Base, s: Store)
    requires s.phase.Keys == b.claims.Keys
  {
    forall c, d :: c in b.claims && d in b.claims && Held(b, s, c).Some? && Held(b, s, c) == Held(b, s, d) ==> c == d
  }

  /** Every name in the new directory was put there by a claim. */
  ghost predicate Filled(s: Store) {
    forall i :: i in s.dir ==> exists c :: c in s.phase && Fills(s.phase[c], i)
  }

  ghost predicate BaseKept(b: Base, s: Store) {
    forall n :: n in b.disk ==> n in s.disk && s.disk[n] == b.disk[n]
  }

  ghost predicate Inv(b: Base, s: Store) {
    && !s.fault
    && s.dir.Keys <= s.alloc
    && PhasesHold(b, s)
    && HeldOnce(b, s)
    && Filled(s)
    && BaseKept(b, s)
  }

  /** Only claim `c` can have moved. */
  ghost predicate OnlyMoved(s: Store, c: Claim, s': Store) {
    && s'.phase.Keys == s.phase.Keys
    && (forall d :: d in s.phase && d != c ==> s'.phase[d] == s.phase[d])
  }

  /** How far an action takes its claim; an exception leaves it where it was. */
  ghost predicate Advances(b: Base, s: Store, c: Claim, keep: bool, data: string, s': Store) {
    && c in b.claims && c in s.phase && c in s'.phase
    && !s.phase[c].Linked? && !s.phase[c].Written?
    && var p := s'.phase[c];
       || (p == s.phase[c] && s'.fault)
       || if keep then b.claims[c].Some? && p == Linked(b.claims[c].value)
          else p.Freed? || p.Owned? || (p.Written? && p.data == data)
  }

  /** This much holds of any base, whatever its claims. */
  lemma ActionMovesOne(b: Base, s: Store, c: Claim, keep: bool, data: string, s': Store)
    requires Action(b, s, c, keep, data, s')
    ensures OnlyMoved(s, c, s') && Advances(b, s, c, keep, data, s') && (s.fault ==> s'.fault)
  {
  }

  /** What no step of another job, and no later step, takes back. */
  ghost predicate Extends(s: Store, c: Claim, s': Store) {
    && OnlyMoved(s, c, s')
    && (forall n :: n in s.disk ==> n in s'.disk && s'.disk[n] == s.disk[n])
    && (forall i :: i in s.dir ==> i in s'.dir && s'.dir[i] == s.dir[i])
  }

  lemma FreshInv(b: Base)
    requires Disjoint(b)
    ensures Inv(b, Fresh(b))
  {
  }

  /** Allocator and directory change at index `i` only, and no inode changes. */
  ghost predicate Frame(s: Store, i: int, s': Store) {
    && (forall j :: j != i ==> (j in s'.alloc <==> j in s.alloc))
    && (forall j :: j != i ==> (j in s'.dir <==> j in s.dir))
    && (forall j :: j in s.dir ==> j in s'.dir && s'.dir[j] == s.dir[j])
    && (forall n :: n in s.disk ==> n in s'.disk && s'.disk[n] == s.disk[n])
  }

  /** The claim `c` moves on and nobody else answers for index `i`. */
  ghost predicate Moves(b: Base, s: Store, c: Claim, i: int, s': Store) {
    && Inv(b, s) && c in b.claims && c in s'.phase
    && s'.phase == s.phase[c := s'.phase[c]] && !s'.fault
    && Frame(s, i, s')
    && (forall d :: d in b.claims && d != c ==> Held(b, s, d) != Some(i))
    && !s.phase[c].Linked? && !s.phase[c].Written?
  }

  lemma OtherPhases(b: Base, s: Store, c: Claim, i: int, s': Store)
    requires Moves(b, s, c, i, s')
    ensures forall d :: d in b.claims && d != c ==> PhaseInv(b, s', d) && Held(b, s', d) == Held(b, s, d)
  {
    forall d | d in b.claims && d != c ensures PhaseInv(b, s', d) && Held(b, s', d) == Held(b, s, d) {
      assert PhaseInv(b, s, d) && s'.phase[d] == s.phase[d];
      var h := Held(b, s, d);
      assert h != Some(i);
      if h.Some? { assert h.value != i && (h.value in s'.alloc <==> h.value in s.alloc) && (h.value in s'.dir <==> h.value in s.dir); }
    }
  }

  lemma StaysFilled(b: Base, s: Store, c: Claim, i: int, s': Store)
    requires Moves(b, s, c, i, s')
    requires i in s'.dir ==> Fills(s'.phase[c], i)
    ensures Filled(s')
  {
    forall j | j in s'.dir ensures exists d :: d in s'.phase && Fills(s'.phase[d], j) {
      if j == i {
        assert Fills(s'.phase[c], i);
      } else {
        var d :| d in s.phase && Fills(s.phase[d], j);
        assert d != c && Fills(s'.phase[d], j);
      }
    }
  }

  lemma MovesKeepsInv(b: Base, s: Store, c: Claim, i: int, s': Store)
    requires Moves(b, s, c, i, s')
    requires PhaseInv(b, s', c) && (Held(b, s', c) == None || Held(b, s', c) == Some(i))
    requires i in s'.dir ==> i in s'.alloc && Fills(s'.phase[c], i)
    ensures Inv(b, s') && Extends(s, c, s')
  {
    OtherPhases(b, s, c, i, s');
    StaysFilled(b, s, c, i, s');
    forall j | j in s'.dir ensures j in s'.alloc {
      if j != i { assert j in s.dir && j in s.alloc; }
    }
  }

  /** The index a claim holds belongs to nobody else. */
  lemma HeldAlone(b: Base, s: Store, c: Claim, i: int)
    requires Inv(b, s) && c in b.claims && Held(b, s, c) == Some(i)
    ensures forall d :: d in b.claims && d != c ==> Held(b, s, d) != Some(i)
  {
  }

  lemma LinkKeepsInv(b: Base, s: Store, c: Claim, s': Store)
    requires Disjoint(b) && Inv(b, s) && LinkStep(b, s, c, s')
    ensures Inv(b, s') && Extends(s, c, s') && s'.phase[c] == Linked(b.claims[c].value)
  {
    var i := b.claims[c].value;
    assert PhaseInv(b, s, c);
    HeldAlone(b, s, c, i);
    MovesKeepsInv(b, s, c, i, s');
  }

  lemma FreeKeepsInv(b: Base, s: Store, c: Claim, s': Store)
    requires Disjoint(b) && Inv(b, s) && FreeStep(b, s, c, s')
    ensures Inv(b, s') && Extends(s, c, s') && s'.phase[c] == Freed
  {
    var i := b.claims[c].value;
    assert PhaseInv(b, s, c);
    HeldAlone(b, s, c, i);
    MovesKeepsInv(b, s, c, i, s');
  }

  /** A free index is held by no claim. */
  lemma FreeIndexUnheld(b: Base, s: Store, i: int)
    requires Inv(b, s) && i !in s.alloc
    ensures forall d :: d in b.claims ==> Held(b, s, d) != Some(i)
  {
    forall d | d in b.claims ensures Held(b, s, d) != Some(i) {
      assert PhaseInv(b, s, d);
    }
  }

  lemma AllocKeepsInv(b: Base, s: Store, c: Claim, s': Store)
    requires Disjoint(b) && Inv(b, s) && AllocStep(b, s, c, s')
    ensures Inv(b, s') && Extends(s, c, s') && s'.phase[c].Owned?
  {
    var i :| Lowest(s.alloc, i) && s' == s.(alloc := s.alloc + {i}, phase := s.phase[c := Owned(i)]);
    FreeIndexUnheld(b, s, i);
    MovesKeepsInv(b, s, c, i, s');
  }

  lemma SpitKeepsInv(b: Base, s: Store, c: Claim, data: string, s': Store)
    requires Disjoint(b) && Inv(b, s) && SpitStep(b, s, c, data, s')
    ensures Inv(b, s') && Extends(s, c, s') && s'.phase[c] == Written(s.phase[c].idx, data)
  {
    var i := s.phase[c].idx;
    assert PhaseInv(b, s, c);
    var n :| n !in s.disk && s' == s.(disk := s.disk[n := data], dir := s.dir[i := n], phase := s.phase[c := Written(i, data)]);
    HeldAlone(b, s, c, i);
    MovesKeepsInv(b, s, c, i, s');
  }

  lemma ActionKeepsInv(b: Base, s: Store, c: Claim, keep: bool, data: string, s': Store)
    requires Disjoint(b) && Inv(b, s) && Action(b, s, c, keep, data, s')
    ensures Inv(b, s') && Extends(s, c, s') && c in s.phase && c in b.claims
    ensures !s.phase[c].Linked? && !s.phase[c].Written?
    ensures var p := s'.phase[c];
            if keep then b.claims[c].Some? && p == Linked(b.claims[c].value)
            else p.Freed? || p.Owned? || (p.Written? && p.data == data)
  {
    if keep {
      LinkKeepsInv(b, s, c, s');
    } else if FreeStep(b, s, c, s') {
      FreeKeepsInv(b, s, c, s');
    } else if AllocStep(b, s, c, s') {
      AllocKeepsInv(b, s, c, s');
    } else {
      SpitKeepsInv(b, s, c, data, s');
    }
  }

  lemma StepKeepsInv(b: Base, s: Store, c: Claim, s': Store)
    requires Disjoint(b) && Inv(b, s) && Step(b, s, c, s')
    ensures Inv(b, s') && Extends(s, c, s')
  {
    var keep, data :| Action(b, s, c, keep, data, s');
    ActionKeepsInv(b, s, c, keep, data, s');
  }
}

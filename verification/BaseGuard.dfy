/** Why base blocks are out of reach, whatever the base archive holds: no index of the base is both linked and released. */
module BaseGuards {
  import opened Common
  import opened BlockStores

  /** The claim has given its base block up, or never had one. */
  predicate Loose(p: Phase) { p.Freed? || p.Owned? || p.Written? }

  /** A linked index is one that no other claim has released. */
  ghost predicate NoClash(b: Base, s: Store) {
    forall c, d :: c in s.phase && d in s.phase && d in b.claims && s.phase[c].Linked? && Loose(s.phase[d]) ==>
      b.claims[d] != Some(s.phase[c].idx)
  }

  ghost predicate Released(b: Base, s: Store, i: int) {
    exists d :: d in s.phase && d in b.claims && b.claims[d] == Some(i) && Loose(s.phase[d])
  }

  /** Allocated, and no job is about to write to it. */
  ghost predicate Settled(s: Store, i: int) {
    i in s.alloc && forall d :: d in s.phase ==> s.phase[d] != Owned(i)
  }

  /** A job owns an index whose name already leads to an inode of the base: its write would land there. */
  ghost predicate Threatened(b: Base, s: Store) {
    exists c :: c in s.phase && s.phase[c].Owned? && s.phase[c].idx in s.dir && s.dir[s.phase[c].idx] in b.disk
  }

  /** Linked names are base blocks under their own indices, each linked once. */
  ghost predicate LinksInv(b: Base, s: Store) {
    && (forall c :: c in s.phase && s.phase[c].Linked? ==>
          var i := s.phase[c].idx; c in b.claims && b.claims[c] == Some(i) && i in b.dir && i in s.dir)
    && (forall c, d :: c in s.phase && d in s.phase && s.phase[c].Linked? && s.phase[c] == s.phase[d] ==> c == d)
  }

  ghost predicate LinkedBySome(s: Store, i: int) { exists c :: c in s.phase && s.phase[c] == Linked(i) }

  ghost predicate Guard(b: Base, s: Store) {
    && BaseKept(b, s)
    && (forall c :: c in s.phase && s.phase[c].Linked? ==> Settled(s, s.phase[c].idx))
    && (forall i :: i in s.dir && s.dir[i] in b.disk ==> LinkedBySome(s, i))
    && (forall i :: i in b.dir ==> Released(b, s, i) || Settled(s, i))
  }

  lemma FreshGuard(b: Base)
    ensures LinksInv(b, Fresh(b)) && Guard(b, Fresh(b))
  {
  }

  /** A name is linked only where there is none yet. */
  lemma LinkKeepsLinks(b: Base, s: Store, c: Claim, s': Store)
    requires LinksInv(b, s) && LinkStep(b, s, c, s')
    ensures LinksInv(b, s')
  {
  }

  lemma OthersKeepLinks(b: Base, s: Store, c: Claim, s': Store)
    requires LinksInv(b, s) && c in s.phase && c in s'.phase && !s'.phase[c].Linked?
    requires s'.phase == s.phase[c := s'.phase[c]] && s.dir.Keys <= s'.dir.Keys
    ensures LinksInv(b, s')
  {
  }

  lemma ActionKeepsLinks(b: Base, s: Store, c: Claim, keep: bool, data: string, s': Store)
    requires LinksInv(b, s) && Action(b, s, c, keep, data, s')
    ensures LinksInv(b, s')
  {
    if keep { LinkKeepsLinks(b, s, c, s'); } else { OthersKeepLinks(b, s, c, s'); }
  }

  lemma Unthreatened(b: Base, s: Store)
    requires Guard(b, s)
    ensures !Threatened(b, s)
  {
    forall c | c in s.phase && s.phase[c].Owned? ensures s.phase[c].idx in s.dir ==> s.dir[s.phase[c].idx] !in b.disk {
      var i := s.phase[c].idx;
      assert i in s.dir && s.dir[i] in b.disk ==> LinkedBySome(s, i);
    }
  }

  lemma ReleasedStays(b: Base, s: Store, c: Claim, s': Store, i: int)
    requires c in s.phase && c in s'.phase && s'.phase == s.phase[c := s'.phase[c]]
    requires Loose(s.phase[c]) ==> Loose(s'.phase[c])
    requires Released(b, s, i)
    ensures Released(b, s', i)
  {
    var d :| d in s.phase && d in b.claims && b.claims[d] == Some(i) && Loose(s.phase[d]);
    assert d in s'.phase && Loose(s'.phase[d]);
  }

  lemma NotReleased(b: Base, s: Store, c: Claim, s': Store, i: int)
    requires c in s.phase && c in s'.phase && s'.phase == s.phase[c := Linked(i)] && s.phase[c] == Waiting && NoClash(b, s')
    ensures !Released(b, s, i)
  {
    forall d | d in s.phase && d in b.claims && Loose(s.phase[d]) ensures b.claims[d] != Some(i) {
      assert d in s'.phase && Loose(s'.phase[d]) && s'.phase[c].Linked?;
    }
  }

  lemma LinkKeepsGuard(b: Base, s: Store, c: Claim, s': Store)
    requires Guard(b, s) && LinkStep(b, s, c, s') && NoClash(b, s')
    ensures Guard(b, s')
  {
    if !(b.claims[c].value in b.dir && b.claims[c].value !in s.dir) { return; }
    var i := b.claims[c].value;
    assert s'.phase[c] == Linked(i);
    NotReleased(b, s, c, s', i);
    forall j | j in s'.dir && s'.dir[j] in b.disk ensures LinkedBySome(s', j) {
      if j != i {
        var d :| d in s.phase && s.phase[d] == Linked(j);
        assert s'.phase[d] == Linked(j);
      }
    }
    forall j | j in b.dir ensures Released(b, s', j) || Settled(s', j) {
      if Released(b, s, j) { ReleasedStays(b, s, c, s', j); }
    }
  }

  lemma FreeKeepsGuard(b: Base, s: Store, c: Claim, s': Store)
    requires Guard(b, s) && FreeStep(b, s, c, s') && NoClash(b, s')
    ensures Guard(b, s')
  {
    if b.claims[c].value !in s.alloc { return; }
    var i := b.claims[c].value;
    assert s'.phase[c] == Freed && Released(b, s', i);
    forall d | d in s'.phase && s'.phase[d].Linked? ensures Settled(s', s'.phase[d].idx) {
      assert s.phase[d] == s'.phase[d] && Settled(s, s.phase[d].idx);
    }
    forall j | j in s'.dir && s'.dir[j] in b.disk ensures LinkedBySome(s', j) {
      var d :| d in s.phase && s.phase[d] == Linked(j);
      assert s'.phase[d] == Linked(j);
    }
    forall j | j in b.dir ensures Released(b, s', j) || Settled(s', j) {
      if Released(b, s, j) { ReleasedStays(b, s, c, s', j); }
    }
  }

  lemma AllocKeepsGuard(b: Base, s: Store, c: Claim, s': Store)
    requires Guard(b, s) && AllocStep(b, s, c, s')
    ensures Guard(b, s')
  {
    var i :| Lowest(s.alloc, i) && s' == s.(alloc := s.alloc + {i}, phase := s.phase[c := Owned(i)]);
    forall d | d in s'.phase && s'.phase[d].Linked? ensures Settled(s', s'.phase[d].idx) {
      assert s.phase[d] == s'.phase[d] && Settled(s, s.phase[d].idx);
    }
    forall j | j in s'.dir && s'.dir[j] in b.disk ensures LinkedBySome(s', j) {
      var d :| d in s.phase && s.phase[d] == Linked(j);
      assert s'.phase[d] == Linked(j);
    }
    forall j | j in b.dir ensures Released(b, s', j) || Settled(s', j) {
      if Released(b, s, j) { ReleasedStays(b, s, c, s', j); }
    }
  }

  lemma SpitKeepsGuard(b: Base, s: Store, c: Claim, data: string, s': Store)
    requires Guard(b, s) && SpitStep(b, s, c, data, s')
    ensures Guard(b, s')
  {
    Unthreatened(b, s);
    var i := s.phase[c].idx;
    forall d | d in s'.phase && s'.phase[d].Linked? ensures Settled(s', s'.phase[d].idx) {
      assert s.phase[d] == s'.phase[d] && Settled(s, s.phase[d].idx);
    }
    forall j | j in s'.dir && s'.dir[j] in b.disk ensures LinkedBySome(s', j) {
      assert j in s.dir && s.dir[j] == s'.dir[j];
      var d :| d in s.phase && s.phase[d] == Linked(j);
      assert s'.phase[d] == Linked(j);
    }
    forall j | j in b.dir ensures Released(b, s', j) || Settled(s', j) {
      if Released(b, s, j) { ReleasedStays(b, s, c, s', j); }
    }
  }

  /** As long as no linked index is released, the guard stands. */
  lemma ActionKeepsGuard(b: Base, s: Store, c: Claim, keep: bool, data: string, s': Store)
    requires Guard(b, s) && Action(b, s, c, keep, data, s') && NoClash(b, s')
    ensures Guard(b, s')
  {
    if keep { LinkKeepsGuard(b, s, c, s'); }
    else if FreeStep(b, s, c, s') { FreeKeepsGuard(b, s, c, s'); }
    else if AllocStep(b, s, c, s') { AllocKeepsGuard(b, s, c, s'); }
    else { SpitKeepsGuard(b, s, c, data, s'); }
  }

  lemma ActedKeepsGuard(b: Base, s: Store, s': Store)
    requires LinksInv(b, s) && (s' == s || SomeAction(b, s, s'))
    ensures LinksInv(b, s')
    ensures Guard(b, s) && NoClash(b, s') ==> Guard(b, s')
  {
    if s' != s {
      var c, keep, data :| Action(b, s, c, keep, data, s');
      ActionKeepsLinks(b, s, c, keep, data, s');
      if Guard(b, s) && NoClash(b, s') { ActionKeepsGuard(b, s, c, keep, data, s'); }
    }
  }
}

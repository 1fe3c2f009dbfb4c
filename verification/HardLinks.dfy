/** Hard links from the live file system through the archive to the extracted files. */
module HardLinks {
  import opened Numbers
  import C = LinkCreates
  import X = LinkExtracts

  /** The FInfo indices that the `Create` calls found, by first visit. Calls that archive data or an empty file get
      indices of their own; directories and symbolic links have none. */
  predicate Indexed(vs: seq<C.Visit>, idx: seq<int>) {
    && |idx| == |vs|
    && (forall u: nat, v: nat :: u < v < |vs| && C.First(vs, u) == u && C.First(vs, v) == v ==>
          idx[u] != idx[v] || idx[u] == INT64_MIN)
    && (forall v: nat :: v < |vs| && C.First(vs, v) == v ==> (idx[v] == INT64_MIN <==> vs[v].dir || vs[v].slink))
  }

  /** The list lines in the order in which the threads pushed them, as indices. */
  function Lines(list: seq<C.Item>, idx: seq<int>): (es: seq<int>)
    ensures |es| == |list| && forall k :: 0 <= k < |list| && list[k].entry < |idx| ==> es[k] == idx[list[k].entry]
  {
    seq(|list|, k requires 0 <= k < |list| => if list[k].entry < |idx| then idx[list[k].entry] else INT64_MIN)
  }

  /** One name in the live file system is another name of the same file. */
  predicate SameFile(v: C.Visit, w: C.Visit) { v.dev == w.dev && v.ino == w.ino }

  /** What a file system guarantees: names of one file agree on its kind, and its link count covers two names.
      Inode numbers are not zero, and a directory has one name. */
  ghost predicate FileSystem(vs: seq<C.Visit>) {
    && (forall v :: 0 <= v < |vs| ==> vs[v].ino != 0)
    && forall v, w :: 0 <= v < w < |vs| && SameFile(vs[v], vs[w]) ==>
         !vs[v].dir && !vs[w].dir && vs[v].slink == vs[w].slink && vs[v].nlink >= 2 && vs[w].nlink >= 2
  }

  /** A tracked name, before narrowing. */
  predicate Tracked(v: C.Visit) { !v.dir && !v.slink && v.nlink >= 2 }

  /** No symbolic link has two names, and narrowing device and inode numbers loses nothing that matters. */
  ghost predicate Narrow(vs: seq<C.Visit>) {
    forall v, w :: 0 <= v < w < |vs| ==> PairNarrow(vs[v], vs[w])
  }

  predicate PairNarrow(v: C.Visit, w: C.Visit) {
    if SameFile(v, w) then !v.slink && v.ino % 0x1_0000_0000 != 0
    else !(&& Tracked(v) && Tracked(w) && v.ino % 0x1_0000_0000 == w.ino % 0x1_0000_0000 != 0
           && v.dev % 0x1_0000 == w.dev % 0x1_0000)
  }

  /** The visits of lines `a` and `b` of a list. */
  predicate SharesInode(s: X.State, a: nat, b: nat) { a in s.fs && b in s.fs && s.fs[a] == s.fs[b] }

  /** A pair of names is treated as one file exactly if narrowing is harmless for it. */
  lemma KeysMatch(vs: seq<C.Visit>, v: nat, w: nat)
    requires FileSystem(vs) && v < w < |vs|
    ensures (C.Key(vs[v]).Some? && C.Key(vs[v]) == C.Key(vs[w]) <==> SameFile(vs[v], vs[w])) <==> PairNarrow(vs[v], vs[w])
  {
  }

  /** In the list no line comes twice. */
  lemma LinesAreDistinct(vs: seq<C.Visit>, run: seq<C.State>, a: nat, b: nat)
    requires C.Run(vs, run) && var l := run[|run| - 1].list; a < |l| && b < |l| && l[a].visit == l[b].visit
    ensures a == b
  {
    var l := run[|run| - 1].list;
    C.ListIsSound(vs, run, |run| - 1, l[a]);
    C.ListIsSound(vs, run, |run| - 1, l[b]);
    assert l[a] == l[b];
    if a != b { Twice(l, a, b); }
  }

  lemma Twice<T>(l: seq<T>, a: nat, b: nat)
    requires a < |l| && b < |l| && a != b && l[a] == l[b]
    ensures multiset(l)[l[a]] >= 2
  {
    var i, j := if a < b then a else b, if a < b then b else a;
    assert l == l[..j] + l[j..];
    assert l[i] in multiset(l[..j]) by { assert l[..j][i] == l[i]; }
    assert l[i] in multiset(l[j..]) by { assert l[j..][0] == l[i]; }
  }

  /** Lines `a` and `b` come from names tracked under one key. */
  predicate SameKey(vs: seq<C.Visit>, l: seq<C.Item>, a: nat, b: nat)
    requires a < |l| && b < |l|
  {
    && l[a].visit < |vs| && l[b].visit < |vs|
    && C.Key(vs[l[a].visit]).Some? && C.Key(vs[l[a].visit]) == C.Key(vs[l[b].visit])
  }

  /** A finished create run and a finished extraction of what it listed. */
  ghost predicate Carried(vs: seq<C.Visit>, idx: seq<int>, created: seq<C.State>, extracted: seq<X.State>) {
    && C.Run(vs, created) && C.Finished(created[|created| - 1]) && Indexed(vs, idx)
    && X.Run(Lines(created[|created| - 1].list, idx), extracted) && X.Finished(extracted[|extracted| - 1])
  }

  /** After create and extract, whatever the interleavings, two lines share an inode exactly if their names were
      tracked under one key. */
  lemma ExtractedByKey(vs: seq<C.Visit>, idx: seq<int>, created: seq<C.State>, extracted: seq<X.State>, a: nat, b: nat)
    requires Carried(vs, idx, created, extracted)
    requires var l := created[|created| - 1].list; a < |l| && b < |l|
    ensures var l := created[|created| - 1].list;
            SharesInode(extracted[|extracted| - 1], a, b) <==> a == b || SameKey(vs, l, a, b)
  {
    var es := Lines(created[|created| - 1].list, idx);
    X.EveryLineExtracted(es, extracted, a);
    X.EveryLineExtracted(es, extracted, b);
    X.OneCreatorPerIndex(es, extracted, |extracted| - 1, a, b);
    ItemFacts(vs, created, a);
    ItemFacts(vs, created, b);
    var l := created[|created| - 1].list;
    if l[a].visit == l[b].visit { LinesAreDistinct(vs, created, a, b); }
    SameIndex(vs, idx, l, a, b);
  }

  lemma FirstIsFirst(vs: seq<C.Visit>, v: nat)
    requires v < |vs|
    ensures C.First(vs, C.First(vs, v)) == C.First(vs, v)
  {
    C.FirstIsShared(vs, v, C.First(vs, v));
  }

  /** Different visits share the index of their `Create` calls exactly if they have one key. */
  lemma IndexByKey(vs: seq<C.Visit>, idx: seq<int>, v: nat, w: nat)
    requires Indexed(vs, idx) && v < |vs| && w < |vs| && v != w
    ensures idx[C.First(vs, v)] == idx[C.First(vs, w)] && idx[C.First(vs, v)] != INT64_MIN
            <==> C.Key(vs[v]).Some? && C.Key(vs[v]) == C.Key(vs[w])
  {
    FirstIsFirst(vs, v);
    FirstIsFirst(vs, w);
    C.FirstIsShared(vs, v, w);
  }

  lemma ItemFacts(vs: seq<C.Visit>, run: seq<C.State>, a: nat)
    requires C.Run(vs, run) && a < |run[|run| - 1].list|
    ensures var i := run[|run| - 1].list[a]; i.visit < |vs| && i.entry == C.First(vs, i.visit)
  {
    C.ListIsSound(vs, run, |run| - 1, run[|run| - 1].list[a]);
  }

  lemma SameIndex(vs: seq<C.Visit>, idx: seq<int>, l: seq<C.Item>, a: nat, b: nat)
    requires Indexed(vs, idx) && a < |l| && b < |l| && l[a].visit < |vs| && l[b].visit < |vs|
    requires l[a].entry == C.First(vs, l[a].visit) && l[b].entry == C.First(vs, l[b].visit)
    requires l[a].visit == l[b].visit ==> a == b
    ensures X.Together(Lines(l, idx), a, b) <==> a == b || SameKey(vs, l, a, b)
  {
    if l[a].visit != l[b].visit { IndexByKey(vs, idx, l[a].visit, l[b].visit); }
  }

  lemma LineOf(vs: seq<C.Visit>, run: seq<C.State>, v: nat) returns (a: nat)
    requires C.Run(vs, run) && C.Finished(run[|run| - 1]) && v < |vs|
    ensures a < |run[|run| - 1].list| && run[|run| - 1].list[a].visit == v
  {
    var l, i := run[|run| - 1].list, C.Item(v, C.First(vs, v));
    C.ListIsComplete(vs, run, i);
    assert i in multiset(l);
    a :| a < |l| && l[a] == i;
  }

  /** Lines share inodes exactly as the names share files. */
  ghost predicate Preserved(vs: seq<C.Visit>, l: seq<C.Item>, s: X.State) {
    forall a: nat, b: nat :: a < b < |l| ==> PairPreserved(vs, l, s, a, b)
  }

  predicate PairPreserved(vs: seq<C.Visit>, l: seq<C.Item>, s: X.State, a: nat, b: nat)
    requires a < |l| && b < |l|
  {
    && l[a].visit < |vs| && l[b].visit < |vs|
    && (SharesInode(s, a, b) <==> SameFile(vs[l[a].visit], vs[l[b].visit]))
  }

  lemma PairSurvives(vs: seq<C.Visit>, idx: seq<int>, created: seq<C.State>, extracted: seq<X.State>, a: nat, b: nat)
    requires FileSystem(vs) && Carried(vs, idx, created, extracted)
    requires var l := created[|created| - 1].list; a < |l| && b < |l| && a != b
    ensures var l, s := created[|created| - 1].list, extracted[|extracted| - 1];
            && l[a].visit < |vs| && l[b].visit < |vs| && l[a].visit != l[b].visit
            && (PairPreserved(vs, l, s, a, b) <==> PairNarrow(vs[l[a].visit], vs[l[b].visit]))
  {
    var l := created[|created| - 1].list;
    ItemFacts(vs, created, a);
    ItemFacts(vs, created, b);
    ExtractedByKey(vs, idx, created, extracted, a, b);
    if l[a].visit == l[b].visit { LinesAreDistinct(vs, created, a, b); }
    else if l[a].visit < l[b].visit { KeysMatch(vs, l[a].visit, l[b].visit); }
    else { KeysMatch(vs, l[b].visit, l[a].visit); }
  }

  /** The hard-link partition of the live file system survives exactly if no hard-linked symbolic link and no
      harmful narrowing occurs among the names. */
  lemma PartitionSurvives(vs: seq<C.Visit>, idx: seq<int>, created: seq<C.State>, extracted: seq<X.State>)
    requires FileSystem(vs) && Carried(vs, idx, created, extracted)
    ensures Preserved(vs, created[|created| - 1].list, extracted[|extracted| - 1]) <==> Narrow(vs)
  {
    var l, s := created[|created| - 1].list, extracted[|extracted| - 1];
    if Narrow(vs) {
      forall a: nat, b: nat | a < b < |l| ensures PairPreserved(vs, l, s, a, b) {
        PairSurvives(vs, idx, created, extracted, a, b);
        NarrowAnyway(vs, l[a].visit, l[b].visit);
      }
    }
    if Preserved(vs, l, s) {
      forall v: nat, w: nat | v < w < |vs| ensures PairNarrow(vs[v], vs[w]) {
        var a := LineOf(vs, created, v);
        var b := LineOf(vs, created, w);
        PairSurvives(vs, idx, created, extracted, a, b);
        assert a < b ==> PairPreserved(vs, l, s, a, b);
        assert b < a ==> PairPreserved(vs, l, s, b, a);
      }
    }
  }

  lemma NarrowAnyway(vs: seq<C.Visit>, v: nat, w: nat)
    requires FileSystem(vs) && Narrow(vs) && v < |vs| && w < |vs| && v != w
    ensures PairNarrow(vs[v], vs[w])
  {
    if v < w { assert PairNarrow(vs[v], vs[w]); } else { assert PairNarrow(vs[w], vs[v]); }
  }

  /** Runs that carry the names through to the end exist for all names. */
  lemma Carriable(vs: seq<C.Visit>, idx: seq<int>) returns (created: seq<C.State>, extracted: seq<X.State>)
    requires Indexed(vs, idx)
    ensures Carried(vs, idx, created, extracted)
  {
    created := C.Completes(vs, [C.Init(vs)]);
    var es := Lines(created[|created| - 1].list, idx);
    extracted := X.Completes(es, [X.Init(es)]);
  }

  lemma HarmIsDone(vs: seq<C.Visit>, idx: seq<int>) returns (created: seq<C.State>, extracted: seq<X.State>)
    requires FileSystem(vs) && Indexed(vs, idx) && !Narrow(vs)
    ensures Carried(vs, idx, created, extracted)
    ensures !Preserved(vs, created[|created| - 1].list, extracted[|extracted| - 1])
  {
    created, extracted := Carriable(vs, idx);
    PartitionSurvives(vs, idx, created, extracted);
  }

  /** Two names of one symbolic link. */
  lemma LinkedSymlinksSplit() returns (vs: seq<C.Visit>, idx: seq<int>, created: seq<C.State>, extracted: seq<X.State>)
    ensures FileSystem(vs) && |vs| == 2 && SameFile(vs[0], vs[1]) && vs[0].slink
    ensures Carried(vs, idx, created, extracted)
    ensures !Preserved(vs, created[|created| - 1].list, extracted[|extracted| - 1])
  {
    vs, idx := [C.Visit("a", 1, 7, false, true, 2), C.Visit("b", 1, 7, false, true, 2)], [INT64_MIN, INT64_MIN];
    assert !PairNarrow(vs[0], vs[1]);
    created, extracted := HarmIsDone(vs, idx);
  }

  /** Two names of one file whose inode number is a multiple of 2^32. */
  lemma UntrackedInodeSplits() returns (vs: seq<C.Visit>, idx: seq<int>, created: seq<C.State>, extracted: seq<X.State>)
    ensures FileSystem(vs) && |vs| == 2 && SameFile(vs[0], vs[1]) && !vs[0].slink
    ensures Carried(vs, idx, created, extracted)
    ensures !Preserved(vs, created[|created| - 1].list, extracted[|extracted| - 1])
  {
    vs, idx := [C.Visit("a", 1, U32, false, false, 2), C.Visit("b", 1, U32, false, false, 2)], [0, 1];
    assert !PairNarrow(vs[0], vs[1]);
    created, extracted := HarmIsDone(vs, idx);
  }

  /** Two files whose inode numbers agree in their low 32 bits. */
  lemma TwoFilesMerge() returns (vs: seq<C.Visit>, idx: seq<int>, created: seq<C.State>, extracted: seq<X.State>)
    ensures FileSystem(vs) && |vs| == 2 && !SameFile(vs[0], vs[1])
    ensures Carried(vs, idx, created, extracted)
    ensures !Preserved(vs, created[|created| - 1].list, extracted[|extracted| - 1])
  {
    vs, idx := [C.Visit("a", 1, 5, false, false, 2), C.Visit("b", 1, U32 + 5, false, false, 2)], [0, 1];
    assert !PairNarrow(vs[0], vs[1]);
    created, extracted := HarmIsDone(vs, idx);
  }
}

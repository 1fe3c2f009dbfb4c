/** From live files to an archive and back: all the parts together. */
module Backups {
  import opened Common
  import opened Numbers
  import opened FInfos
  import opened ListLines
  import opened LiveFiles
  import opened CreateRuns
  import opened ReadBacks
  import C = LinkCreates
  import X = LinkExtracts
  import ExtractChunks
  import HardLinks
  import Snapshots

  /** `files[f]` is the visit whose `Create` call archives file `f` of the configuration; `zeros` are the visits of
      empty files, fifos and sockets, in the order in which their calls drew a number from `ZeroLenIdx`. */
  datatype Calls = Calls(files: seq<nat>, zeros: seq<nat>)

  function Position(a: seq<nat>, v: nat): (p: int)
    ensures -1 <= p < |a| && (p >= 0 ==> a[p] == v) && (p == -1 ==> v !in a)
  {
    if a == [] then -1
    else if a[|a| - 1] == v then |a| - 1
    else Position(a[..|a| - 1], v)
  }

  predicate NoRepeats(a: seq<nat>) { forall i, j :: 0 <= i < j < |a| ==> a[i] != a[j] }

  /** Each `Create` call is for one first visit and archives data, draws a number, or is for a directory or link. */
  ghost predicate Assigned(vs: seq<C.Visit>, calls: Calls, n: nat) {
    && |calls.files| == n && |calls.zeros| < I63 - 2
    && NoRepeats(calls.files) && NoRepeats(calls.zeros)
    && (forall v :: v in calls.files ==> v !in calls.zeros)
    && (forall v :: v in calls.files || v in calls.zeros ==> v < |vs| && C.First(vs, v) == v)
    && (forall v: nat :: v < |vs| && C.First(vs, v) == v ==>
          (v in calls.files || v in calls.zeros <==> !vs[v].dir && !vs[v].slink))
  }

  /** What the `Create` call of visit `v` leaves in its list entry. */
  function FoundIdx(calls: Calls, s: State, v: nat): int {
    var f, z := Position(calls.files, v), Position(calls.zeros, v);
    if f >= 0 && f < |s.job| && s.job[f].Listed? then s.job[f].idx
    else if z >= 0 then Snapshots.ZeroMember(z).idx
    else INT64_MIN
  }

  function FoundFlag(calls: Calls, s: State, v: nat): char {
    var f := Position(calls.files, v);
    if f >= 0 && f < |s.job| && s.job[f].Listed? then s.job[f].flag else UNCOMPRESSED
  }

  function Content(calls: Calls, contents: seq<string>, v: nat): string {
    var f := Position(calls.files, v);
    if 0 <= f < |contents| then contents[f] else ""
  }

  function Indices(vs: seq<C.Visit>, calls: Calls, s: State): (idx: seq<int>)
    ensures |idx| == |vs| && forall v :: 0 <= v < |vs| ==> idx[v] == FoundIdx(calls, s, v)
  {
    seq(|vs|, v requires 0 <= v => FoundIdx(calls, s, v))
  }

  /** `PushListEntry` for a line: the name of one visit, flag and index of its first visit's call, and any stats. */
  ghost predicate Pushed(vs: seq<C.Visit>, calls: Calls, s: State, i: C.Item, e: Entry) {
    && i.visit < |vs| && e.name == vs[i.visit].name
    && e.finfo == FoundIdx(calls, s, i.entry) && e.flag == FoundFlag(calls, s, i.entry)
    && Listable(e)
  }

  /** A finished run of all file and chunk jobs. */
  ghost predicate Stored(cfg: Config, run: seq<State>) {
    && Hypotheses(cfg) && CreateRuns.Run(cfg, run)
    && Snapshots.Finished(cfg, run[|run| - 1]) && Fits(run[|run| - 1])
  }

  /** A finished create command: the visits with their hard links, the files with their blocks, and the list. */
  ghost predicate Archived(cfg: Config, run: seq<State>, vs: seq<C.Visit>, calls: Calls, created: seq<C.State>,
                           contents: seq<string>, size: nat, es: seq<Entry>) {
    && Stored(cfg, run) && Assigned(vs, calls, |cfg.files|)
    && C.Run(vs, created) && C.Finished(created[|created| - 1])
    && size > 0 && |contents| == |cfg.files|
    && (forall f :: 0 <= f < |cfg.files| ==> cfg.files[f].live == Chunked(contents[f], size))
    && var l := created[|created| - 1].list;
       |es| == |l| && forall k :: 0 <= k < |l| ==> Pushed(vs, calls, run[|run| - 1], l[k], es[k])
  }

  /** A file's index is at least zero, and different files have different ones. */
  lemma FileIndices(cfg: Config, run: seq<State>, f: nat, g: nat)
    requires Stored(cfg, run) && f < |cfg.files| && g < |cfg.files|
    ensures var s := run[|run| - 1];
            && |s.job| == |cfg.files| && s.job[f].Listed? && s.job[g].Listed? && s.job[f].idx >= 0
            && (s.job[f].idx == s.job[g].idx ==> f == g)
  {
    var s := run[|run| - 1];
    CreateRuns.RunKeepsInv(cfg, run, |run| - 1);
    Snapshots.FInfoIsHeld(cfg, s, f);
    if s.job[f].idx == s.job[g].idx { Snapshots.NewIndicesDistinct(cfg, s, f, g); }
  }

  /** The three kinds of calls find indices of three kinds. */
  lemma KindOfIndex(cfg: Config, run: seq<State>, vs: seq<C.Visit>, calls: Calls, v: nat)
    requires Stored(cfg, run) && Assigned(vs, calls, |cfg.files|)
    ensures var i, f, z := FoundIdx(calls, run[|run| - 1], v), Position(calls.files, v), Position(calls.zeros, v);
            && (f >= 0 ==> z == -1 && i >= 0 && i == run[|run| - 1].job[f].idx && i != INT64_MIN)
            && (f == -1 && z >= 0 ==> i == -2 - z && i > INT64_MIN)
            && (f == -1 && z == -1 ==> i == INT64_MIN)
  {
    var f := Position(calls.files, v);
    if f >= 0 {
      FileIndices(cfg, run, f, f);
      assert calls.files[f] in calls.files && v !in calls.zeros;
    }
  }

  lemma DistinctIndices(cfg: Config, run: seq<State>, vs: seq<C.Visit>, calls: Calls, u: nat, v: nat)
    requires Stored(cfg, run) && Assigned(vs, calls, |cfg.files|)
    requires FoundIdx(calls, run[|run| - 1], u) == FoundIdx(calls, run[|run| - 1], v) != INT64_MIN
    ensures u == v
  {
    KindOfIndex(cfg, run, vs, calls, u);
    KindOfIndex(cfg, run, vs, calls, v);
    var f, g := Position(calls.files, u), Position(calls.files, v);
    if f >= 0 && g >= 0 { FileIndices(cfg, run, f, g); }
  }

  /** Separate `Create` calls find different FInfo indices, and only directories and links find none. */
  lemma FoundIndexed(cfg: Config, run: seq<State>, vs: seq<C.Visit>, calls: Calls)
    requires Stored(cfg, run) && Assigned(vs, calls, |cfg.files|)
    ensures HardLinks.Indexed(vs, Indices(vs, calls, run[|run| - 1]))
  {
    var idx := Indices(vs, calls, run[|run| - 1]);
    forall u: nat, v: nat | u < v < |vs| && C.First(vs, u) == u && C.First(vs, v) == v
      ensures idx[u] != idx[v] || idx[u] == INT64_MIN
    {
      if idx[u] == idx[v] && idx[u] != INT64_MIN { DistinctIndices(cfg, run, vs, calls, u, v); }
    }
    forall v: nat | v < |vs| && C.First(vs, v) == v ensures idx[v] == INT64_MIN <==> vs[v].dir || vs[v].slink {
      KindOfIndex(cfg, run, vs, calls, v);
    }
  }

  lemma FileReads(cfg: Config, run: seq<State>, f: nat)
    requires Stored(cfg, run) && f < |cfg.files|
    ensures var s := run[|run| - 1];
            && |s.job| == |cfg.files| && s.job[f].Listed?
            && ReadEntry(cfg, s, s.job[f].flag, s.job[f].idx) == Some(Concat(cfg.files[f].live))
  {
    ReadsBackExactly(cfg, run, |run| - 1, f);
  }

  /** The entry of a call reads back as the content of its file; without data it reads back empty. */
  lemma CallReads(cfg: Config, run: seq<State>, vs: seq<C.Visit>, calls: Calls, contents: seq<string>, size: nat, v: nat)
    requires Stored(cfg, run) && Assigned(vs, calls, |cfg.files|) && size > 0 && |contents| == |cfg.files|
    requires forall f :: 0 <= f < |cfg.files| ==> cfg.files[f].live == Chunked(contents[f], size)
    ensures var s := run[|run| - 1];
            ReadEntry(cfg, s, FoundFlag(calls, s, v), FoundIdx(calls, s, v)) == Some(Content(calls, contents, v))
  {
    var f := Position(calls.files, v);
    KindOfIndex(cfg, run, vs, calls, v);
    if f >= 0 {
      FileReads(cfg, run, f);
      ConcatOfChunked(contents[f], size);
    }
  }

  lemma ListReads(vs: seq<C.Visit>, calls: Calls, s: State, l: seq<C.Item>, es: seq<Entry>, blank: Entry)
    requires |es| == |l| && forall k :: 0 <= k < |l| ==> Pushed(vs, calls, s, l[k], es[k])
    ensures ReadList(ListText(es), blank) == Ok(es)
  {
    forall e | e in es ensures Listable(e) {
      var k: nat :| k < |es| && es[k] == e;
      assert Pushed(vs, calls, s, l[k], es[k]);
    }
    ListRoundTrip(es, blank);
  }

  /** Reading the list file gives the entries back, and reading an entry's blocks gives the live file of its name. */
  lemma BackupRoundTrip(cfg: Config, run: seq<State>, vs: seq<C.Visit>, calls: Calls, created: seq<C.State>,
                        contents: seq<string>, size: nat, es: seq<Entry>, blank: Entry, k: nat)
    requires Archived(cfg, run, vs, calls, created, contents, size, es) && k < |es|
    ensures ReadList(ListText(es), blank) == Ok(es)
    ensures var i := created[|created| - 1].list[k];
            && i.visit < |vs| && es[k].name == vs[i.visit].name
            && ReadEntry(cfg, run[|run| - 1], es[k].flag, es[k].finfo)
               == Some(Content(calls, contents, C.First(vs, i.visit)))
  {
    var l := created[|created| - 1].list;
    ListReads(vs, calls, run[|run| - 1], l, es, blank);
    HardLinks.ItemFacts(vs, created, k);
    assert Pushed(vs, calls, run[|run| - 1], l[k], es[k]);
    CallReads(cfg, run, vs, calls, contents, size, l[k].entry);
  }

  /** Every name has its line. */
  lemma EveryNameIsListed(cfg: Config, run: seq<State>, vs: seq<C.Visit>, calls: Calls, created: seq<C.State>,
                          contents: seq<string>, size: nat, es: seq<Entry>, v: nat) returns (k: nat)
    requires Archived(cfg, run, vs, calls, created, contents, size, es) && v < |vs|
    ensures k < |es| && created[|created| - 1].list[k].visit == v && es[k].name == vs[v].name
  {
    k := HardLinks.LineOf(vs, created, v);
    assert Pushed(vs, calls, run[|run| - 1], created[|created| - 1].list[k], es[k]);
  }

  /** Whatever its threads do, extracting an entry writes the live file of its name. */
  lemma ExtractionRestores(cfg: Config, run: seq<State>, vs: seq<C.Visit>, calls: Calls, created: seq<C.State>,
                           contents: seq<string>, size: nat, es: seq<Entry>, k: nat,
                           threads: nat, chunks: seq<Chunk>, extraction: seq<ExtractChunks.State>)
    requires Archived(cfg, run, vs, calls, created, contents, size, es) && k < |es|
    requires var s := run[|run| - 1];
             && ReadFInfo(cfg.codec, s.finfos.dir, s.finfos.disk, es[k].flag, es[k].finfo) == Some(chunks)
             && var data := ExtractChunks.Loads(cfg.codec, s.chunks.dir, s.chunks.disk, chunks);
                ExtractChunks.Run(threads, data, extraction) && ExtractChunks.Finished(data, extraction[|extraction| - 1])
    ensures var i := created[|created| - 1].list[k];
            i.visit < |vs| && extraction[|extraction| - 1].out == Content(calls, contents, C.First(vs, i.visit))
  {
    var s := run[|run| - 1];
    BackupRoundTrip(cfg, run, vs, calls, created, contents, size, es, es[k], k);
    ExtractChunks.ExtractionIsReadAll(threads, cfg.codec, s.chunks.dir, s.chunks.disk, chunks, extraction);
  }

  function FInfoIndices(es: seq<Entry>): (r: seq<int>)
    ensures |r| == |es| && forall k :: 0 <= k < |es| ==> r[k] == es[k].finfo
  {
    seq(|es|, k requires 0 <= k < |es| => es[k].finfo)
  }

  lemma ListedIndices(vs: seq<C.Visit>, calls: Calls, s: State, created: seq<C.State>, es: seq<Entry>)
    requires C.Run(vs, created) && |es| == |created[|created| - 1].list|
    requires forall k :: 0 <= k < |es| ==> Pushed(vs, calls, s, created[|created| - 1].list[k], es[k])
    ensures FInfoIndices(es) == HardLinks.Lines(created[|created| - 1].list, Indices(vs, calls, s))
  {
    var l := created[|created| - 1].list;
    forall k: nat | k < |es| ensures es[k].finfo == HardLinks.Lines(l, Indices(vs, calls, s))[k] {
      HardLinks.ItemFacts(vs, created, k);
      assert Pushed(vs, calls, s, l[k], es[k]);
    }
  }

  /** Extracting the listed entries brings the hard links back, exactly if no names are harmed by narrowing. */
  lemma LinksSurvive(cfg: Config, run: seq<State>, vs: seq<C.Visit>, calls: Calls, created: seq<C.State>,
                     contents: seq<string>, size: nat, es: seq<Entry>, extracted: seq<X.State>)
    requires Archived(cfg, run, vs, calls, created, contents, size, es) && HardLinks.FileSystem(vs)
    requires X.Run(FInfoIndices(es), extracted) && X.Finished(extracted[|extracted| - 1])
    ensures HardLinks.Preserved(vs, created[|created| - 1].list, extracted[|extracted| - 1]) <==> HardLinks.Narrow(vs)
  {
    FoundIndexed(cfg, run, vs, calls);
    ListedIndices(vs, calls, run[|run| - 1], created, es);
    HardLinks.PartitionSurvives(vs, Indices(vs, calls, run[|run| - 1]), created, extracted);
  }
}

/** Where a create run's allocator comes from: `ReverseAlloc` walks the directory tree of the base archive
    (BlockList.cpp:284-301), and the run starts with what the walk found. */
module Allocators {
  import opened Numbers
  import opened BlockLists
  import opened BlockWalks
  import opened BlockStores
  import CreateRuns
  import ReadBacks

  /** The names of a directory, in the order in which its blocks were written or linked. */
  ghost predicate InOrder(dir: map<int, int>, idxs: seq<nat>) { forall i :: i in dir <==> i >= 0 && i in idxs }

  /** A finished walk of the tree that holds the base blocks, however they got there and in whatever order the tasks run,
      leaves the allocator that the run starts from. */
  lemma WalkStartsRun(b: Base, idxs: seq<nat>, m: nat, walk: seq<State>)
    requires m >= 2 && InOrder(b.dir, idxs) && (forall i :: i in b.dir ==> i < I63)
    requires BlockWalks.Run(TreeOf(idxs, m), walk) && walk[|walk| - 1].pending == {}
    ensures !walk[|walk| - 1].thrown && WellFormed(walk[|walk| - 1].ranges)
    ensures Indices(walk[|walk| - 1].ranges) == Fresh(b).alloc
  {
    forall i | i in idxs ensures i < I63 { assert i in b.dir; }
    WrittenBlocksAreFound(idxs, m, walk);
    forall i ensures i in Indices(walk[|walk| - 1].ranges) <==> i in Fresh(b).alloc {}
  }

  /** So the chunk directory that one create run leaves is what the next one's allocator knows. */
  lemma NextRunKnows(cfg: CreateRuns.Config, run: seq<CreateRuns.State>, next: CreateRuns.Config, idxs: seq<nat>, m: nat, walk: seq<State>)
    requires CreateRuns.Run(cfg, run) && ReadBacks.Fits(run[|run| - 1]) && next.chunkBase.dir == run[|run| - 1].chunks.dir
    requires m >= 2 && InOrder(run[|run| - 1].chunks.dir, idxs)
    requires BlockWalks.Run(TreeOf(idxs, m), walk) && walk[|walk| - 1].pending == {}
    ensures !walk[|walk| - 1].thrown && Indices(walk[|walk| - 1].ranges) == CreateRuns.Init(next).chunks.alloc
  {
    WalkStartsRun(next.chunkBase, idxs, m, walk);
  }
}

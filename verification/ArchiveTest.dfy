/** Testing an archive: every listed block is read, every block file found must have been listed. What the jobs of
    `ArchiveRead::DoTest` have to find out, and what follows from it. */
module ArchiveTests {
  import opened Common
  import opened FInfos
  import opened CreateRuns
  import opened ReadBacks
  import opened Snapshots

  /** An archive's two block directories with the inodes behind them. */
  datatype Shelf = Shelf(codec: Codec, chunkDir: map<int, int>, chunkDisk: map<int, string>,
                         finfoDir: map<int, int>, finfoDisk: map<int, string>)

  /** Hash mismatches are warned about; the first unused FInfo block, or else the first unused chunk block, ends the
      program with an error. */
  datatype Report = Report(mismatched: set<int>, unusedFInfo: Option<int>, unusedChunk: Option<int>)

  const CLEAN := Report({}, None, None)

  /** The chunks of a list entry; None where the constructor of `ArchFileRead` throws. */
  function Chunks(sh: Shelf, e: (char, int)): Option<seq<Chunk>> { ReadFInfo(sh.codec, sh.finfoDir, sh.finfoDisk, e.0, e.1) }

  /** The chunk task: a missing or undecompressable block throws, otherwise the hash is compared. */
  function CheckChunk(sh: Shelf, c: Chunk): (r: Result<bool>)
    ensures r == Ok(true) <==> ReadChunk(sh.codec, sh.chunkDir, sh.chunkDisk, c).Some?
    ensures r.Ok? <==> c.idx in sh.chunkDir && sh.chunkDir[c.idx] in sh.chunkDisk
                       && Unpack(sh.codec, c.flag, sh.chunkDisk[sh.chunkDir[c.idx]]).Some?
  {
    match ReadBlock(sh.chunkDir, sh.chunkDisk, c.idx)
    case None => Err("Can't open")
    case Some(bytes) =>
      match Unpack(sh.codec, c.flag, bytes)
      case None => Err("Decompress error")
      case Some(data) => Ok(sh.codec.hash(data) == c.hash)
  }

  ghost predicate Uses(sh: Shelf, entries: seq<(char, int)>, i: int) {
    exists e, c :: e in entries && LeadsTo(sh.codec, sh.finfoDir, sh.finfoDisk, e, c) && c.idx == i
  }

  /** Every entry's chunk list can be read, and every chunk of it but those in `mismatched` is good. */
  ghost predicate Passes(sh: Shelf, entries: seq<(char, int)>, mismatched: set<int>) {
    && (forall e :: e in entries ==> Chunks(sh, e).Some?)
    && (forall e, c :: e in entries && LeadsTo(sh.codec, sh.finfoDir, sh.finfoDisk, e, c) ==> CheckChunk(sh, c).Ok?)
    && (forall e, c :: e in entries && LeadsTo(sh.codec, sh.finfoDir, sh.finfoDisk, e, c) && CheckChunk(sh, c) == Ok(false) ==>
          c.idx in mismatched)
    && (forall i :: i in mismatched ==>
          exists e, c :: e in entries && LeadsTo(sh.codec, sh.finfoDir, sh.finfoDisk, e, c) && c.idx == i && CheckChunk(sh, c) == Ok(false))
  }

  /** Entries of one FInfo index carry one flag, as the lines of hard links do. */
  predicate SameFlags(entries: seq<(char, int)>) {
    forall a, b :: a in entries && b in entries && a.1 == b.1 ==> a.0 == b.0
  }

  /** The blocks that the jobs saw, and whether they liked them. */
  datatype Seen = Seen(finfos: set<int>, chunks: set<int>, mismatched: set<int>)

  ghost predicate Records(sh: Shelf, entries: seq<(char, int)>, seen: Seen) {
    && (forall i :: i in seen.finfos <==> i >= 0 && exists e :: e in entries && e.1 == i)
    && (forall i :: i in seen.chunks <==> Uses(sh, entries, i))
    && Passes(sh, entries, seen.mismatched)
  }

  lemma {:induction false} LeastOf(s: set<int>) returns (i: int)
    requires s != {}
    ensures i in s && forall j :: j in s ==> i <= j
  {
    assert (forall j :: j !in s) ==> s == {};
    i :| i in s;
    var rest := s - {i};
    assert s == rest + {i};
    if rest != {} {
      var j := LeastOf(rest);
      if j < i { i := j; }
    }
  }

  /** The loop over the block files found, in the order of the map: the program ends at the first unused one. */
  method FirstUnused(found: set<int>, used: set<int>) returns (r: Option<int>)
    ensures if r.Some? then r.value in found && r.value !in used else found <= used
    ensures r.Some? ==> forall j :: j in found && j < r.value ==> j in used
  {
    var rest := found;
    while rest != {}
      invariant rest <= found && found - rest <= used
      decreases |rest|
    {
      ghost var least := LeastOf(rest);
      var i :| i in rest && forall j :: j in rest ==> i <= j;
      if i !in used {
        return Some(i);
      }
      rest := rest - {i};
    }
    return None;
  }

  lemma NotClean(sh: Shelf, entries: seq<(char, int)>)
    requires exists e :: e in entries && (Chunks(sh, e) == None || exists c :: c in Chunks(sh, e).value && CheckChunk(sh, c).Err?)
    ensures !TestsClean(sh.codec, sh.chunkDir, sh.chunkDisk, sh.finfoDir, sh.finfoDisk, entries)
  {
  }

  lemma CleanOrNot(sh: Shelf, entries: seq<(char, int)>, seen: Seen)
    requires Records(sh, entries, seen) && forall i :: i in sh.finfoDir ==> i >= 0
    ensures TestsClean(sh.codec, sh.chunkDir, sh.chunkDisk, sh.finfoDir, sh.finfoDisk, entries)
            <==> seen.mismatched == {} && sh.finfoDir.Keys <= seen.finfos && sh.chunkDir.Keys <= seen.chunks
  {
    AllGood(sh, entries, seen.mismatched);
    AllFInfosUsed(sh, entries, seen.finfos);
    AllChunksUsed(sh, entries, seen.chunks);
  }

  lemma AllGood(sh: Shelf, entries: seq<(char, int)>, mismatched: set<int>)
    requires Passes(sh, entries, mismatched)
    ensures mismatched == {} <==>
              forall e :: e in entries ==>
                var r := ReadFInfo(sh.codec, sh.finfoDir, sh.finfoDisk, e.0, e.1);
                r.Some? && forall c :: c in r.value ==> ReadChunk(sh.codec, sh.chunkDir, sh.chunkDisk, c).Some?
  {
    if mismatched == {} {
      forall e, c | e in entries && LeadsTo(sh.codec, sh.finfoDir, sh.finfoDisk, e, c)
        ensures ReadChunk(sh.codec, sh.chunkDir, sh.chunkDisk, c).Some?
      {
        assert CheckChunk(sh, c) == Ok(true);
      }
      forall e | e in entries ensures Chunks(sh, e).Some? &&
        forall c :: c in Chunks(sh, e).value ==> ReadChunk(sh.codec, sh.chunkDir, sh.chunkDisk, c).Some?
      {
        forall c | c in Chunks(sh, e).value ensures ReadChunk(sh.codec, sh.chunkDir, sh.chunkDisk, c).Some? {
          assert LeadsTo(sh.codec, sh.finfoDir, sh.finfoDisk, e, c);
        }
      }
    } else {
      var i := LeastOf(mismatched);
      var e, c :| e in entries && LeadsTo(sh.codec, sh.finfoDir, sh.finfoDisk, e, c) && c.idx == i && CheckChunk(sh, c) == Ok(false);
      assert c in Chunks(sh, e).value && ReadChunk(sh.codec, sh.chunkDir, sh.chunkDisk, c) == None;
    }
  }

  lemma AllFInfosUsed(sh: Shelf, entries: seq<(char, int)>, finfos: set<int>)
    requires forall i :: i in finfos <==> i >= 0 && exists e :: e in entries && e.1 == i
    requires forall i :: i in sh.finfoDir ==> i >= 0
    ensures sh.finfoDir.Keys <= finfos <==> forall i :: i in sh.finfoDir ==> exists e :: e in entries && e.1 == i
  {
    if forall i :: i in sh.finfoDir ==> exists e :: e in entries && e.1 == i {
      forall i | i in sh.finfoDir.Keys ensures i in finfos {
        assert i in sh.finfoDir;
        var e :| e in entries && e.1 == i;
      }
    }
    if sh.finfoDir.Keys <= finfos {
      forall i | i in sh.finfoDir ensures exists e :: e in entries && e.1 == i {
        assert i in sh.finfoDir.Keys;
        assert i in finfos;
      }
    }
  }

  lemma AllChunksUsed(sh: Shelf, entries: seq<(char, int)>, chunks: set<int>)
    requires forall i :: i in chunks <==> Uses(sh, entries, i)
    ensures sh.chunkDir.Keys <= chunks <==> forall i :: i in sh.chunkDir ==> Uses(sh, entries, i)
  {
    if sh.chunkDir.Keys <= chunks {
      forall i | i in sh.chunkDir ensures Uses(sh, entries, i) {
        assert i in sh.chunkDir.Keys;
        assert i in chunks;
      }
    }
    if forall i :: i in sh.chunkDir ==> Uses(sh, entries, i) {
      forall i | i in sh.chunkDir.Keys ensures i in chunks { assert Uses(sh, entries, i); }
    }
  }

  lemma GoodShelf(codec: Codec, sn: Snapshot, chunkDisk: map<int, string>, finfoDisk: map<int, string>)
    requires SnapshotOK(codec, sn, chunkDisk, finfoDisk)
    ensures SameFlags(Entries(sn)) && forall i :: i in sn.finfoDir ==> i >= 0
  {
    forall x, y | x in Entries(sn) && y in Entries(sn) && x.1 == y.1 ensures x.0 == y.0 {
      var a: nat :| a < |sn.members| && Entries(sn)[a] == x;
      var b: nat :| b < |sn.members| && Entries(sn)[b] == y;
      assert sn.members[a].idx == sn.members[b].idx;
    }
  }
}

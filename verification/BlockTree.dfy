/** Where block files lie on disk, and the walk that rebuilds the allocator from them (BlockList.cpp). */
module BlockTrees {
  import opened Measures
  import opened Text
  import opened Numbers
  import opened BlockLists

  /** Digits of `v`, least significant first. */
  function Digits(v: nat, m: nat): seq<nat>
    requires m >= 2
  {
    if v == 0 then [] else [v % m] + Digits(v / m, m)
  }

  function Value(digits: seq<nat>, m: nat): nat {
    if digits == [] then 0 else digits[0] + m * Value(digits[1..], m)
  }

  function DirName(part: nat): string { "d" + Print(part, 10) }

  function DirNames(parts: seq<nat>): seq<string> {
    if parts == [] then [] else [DirName(parts[0])] + DirNames(parts[1..])
  }

  /** The directories below the top in which block `idx` lies. */
  function SubDirs(idx: nat, m: nat): seq<string>
    requires m >= 2
  {
    DirNames(Digits(idx / m, m))
  }

  function FileName(idx: nat): string { Print(idx, 10) }

  function FullName(top: string, idx: nat, m: nat): string
    requires m >= 2
  {
    top + "/" + Join(SubDirs(idx, m), "/") + "/" + FileName(idx)
  }

  /** `GetSubDirs`. With modulus 1 the quotient never shrinks and the source's loop does not end. */
  method GetSubDirs(idx: nat, m: nat) returns (subDirs: seq<string>)
    requires m >= 2
    ensures subDirs == SubDirs(idx, m)
  {
    subDirs := [];
    assert idx / m >= 0;
    var tmp: nat := idx / m;
    while tmp != 0
      invariant subDirs + DirNames(Digits(tmp, m)) == SubDirs(idx, m)
      decreases tmp
    {
      NextSubDir(subDirs, tmp, m);
      Shrinks(tmp, m);
      var part: nat := tmp % m;
      tmp := tmp / m;
      subDirs := subDirs + [DirName(part)];
    }
  }

  lemma Shrinks(v: nat, m: nat)
    requires m >= 2 && v > 0
    ensures 0 <= v / m < v && 0 <= v % m
    ensures v % m + m * (v / m) == v
  {
  }

  lemma NextSubDir(front: seq<string>, v: nat, m: nat)
    requires m >= 2 && v > 0
    ensures front + DirNames(Digits(v, m)) == front + [DirName(v % m)] + DirNames(Digits(v / m, m))
  {
    assert Digits(v, m)[1..] == Digits(v / m, m);
    Reassociate(front, [DirName(v % m)], DirNames(Digits(v / m, m)));
  }

  /** The digits named by a directory path. */
  function Parts(dirs: seq<string>): seq<nat> {
    if dirs == [] then []
    else [Accumulate(if dirs[0] == "" then "" else dirs[0][1..], 10, 0)] + Parts(dirs[1..])
  }

  lemma {:induction false} PartsOfNames(parts: seq<nat>)
    ensures Parts(DirNames(parts)) == parts
  {
    if parts != [] {
      PartsOfNames(parts[1..]);
      PrintedDigits(parts[0], 10);
      assert DirName(parts[0])[1..] == Print(parts[0], 10);
      assert DirNames(parts)[1..] == DirNames(parts[1..]);
    }
  }

  lemma ValueCons(d: nat, digits: seq<nat>, m: nat)
    ensures Value([d] + digits, m) == d + m * Value(digits, m)
  {
    assert ([d] + digits)[1..] == digits;
  }

  lemma ValueStep(v: nat, q: nat, r: nat, m: nat)
    requires m >= 2 && v > 0 && q == v / m && r == v % m && Value(Digits(q, m), m) == q
    ensures Value(Digits(v, m), m) == v
  {
    Shrinks(v, m);
    ValueCons(r, Digits(q, m), m);
    assert Digits(v, m) == [r] + Digits(q, m);
  }

  lemma {:induction false} ValueOfDigits(v: nat, m: nat)
    requires m >= 2
    ensures Value(Digits(v, m), m) == v
  {
    if v > 0 {
      ValueOfDigits(v / m, m);
      ValueStep(v, v / m, v % m, m);
    }
  }

  /** A directory path read as a little-endian number is the block index divided by the modulus. */
  lemma SubDirsDecode(idx: nat, m: nat)
    requires m >= 2
    ensures Value(Parts(SubDirs(idx, m)), m) == idx / m
  {
    PartsOfNames(Digits(idx / m, m));
    ValueOfDigits(idx / m, m);
  }

  lemma NoSlash(s: string)
    requires AllDigits(s, 10)
    ensures '/' !in s
  {
    assert forall k :: 0 <= k < |s| ==> DigitValue(s[k]) < 10;
  }

  /** The part of a path before its last slash. */
  function DirOf(path: string): string {
    if path == "" then "" else if path[|path| - 1] == '/' then path[..|path| - 1] else DirOf(path[..|path| - 1])
  }

  /** The part of a path after its last slash. */
  function BaseOf(path: string): string {
    if path == "" || path[|path| - 1] == '/' then "" else BaseOf(path[..|path| - 1]) + [path[|path| - 1]]
  }

  lemma {:induction false} DirAndBase(dir: string, file: string)
    requires '/' !in file
    ensures DirOf(dir + "/" + file) == dir && BaseOf(dir + "/" + file) == file
  {
    var path := dir + "/" + file;
    if file == "" {
      assert path[..|path| - 1] == dir;
    } else {
      var front := file[..|file| - 1];
      assert path[..|path| - 1] == dir + "/" + front && front + [file[|file| - 1]] == file;
      DirAndBase(dir, front);
    }
  }

  lemma {:induction false} DigitsInRange(v: nat, m: nat)
    requires m >= 2
    ensures forall d :: d in Digits(v, m) ==> d < m
    ensures v > 0 ==> Digits(v, m) != [] && Digits(v, m)[|Digits(v, m)| - 1] != 0
  {
    if v > 0 {
      Shrinks(v, m);
      DigitsInRange(v / m, m);
    }
  }

  predicate IsDirName(name: string) { |name| > 1 && name[0] == 'd' && AllDigits(name[1..], 10) }

  lemma {:induction false} NamesAreDirNames(parts: seq<nat>)
    ensures |DirNames(parts)| == |parts| && forall name :: name in DirNames(parts) ==> IsDirName(name)
  {
    if parts != [] {
      NamesAreDirNames(parts[1..]);
      PrintedDigits(parts[0], 10);
      assert DirName(parts[0])[1..] == Print(parts[0], 10);
    }
  }

  lemma SplitDirNames(names: seq<string>)
    requires forall name :: name in names ==> IsDirName(name)
    ensures Split(Join(names, "/"), "/") == names
  {
    forall k | 0 <= k < |names| ensures names[k] != "" && Text.Find(names[k], "/") == -1 && Text.Find(names[k] + "/", "/") == |names[k]| {
      assert IsDirName(names[k]);
      NoSlash(names[k][1..]);
      assert names[k] == ['d'] + names[k][1..];
      CharFree(names[k], '/');
    }
    SplitOfJoin(names, "/");
  }

  /** What the path string says: between the top directory and the last component lie directories "d0", "d1", ... whose
      numbers are the digits of index / modulus, the lowest first and without superfluous zeros; the last component is
      the index. */
  lemma FullNameReads(top: string, idx: nat, m: nat)
    requires m >= 2
    ensures top + "/" <= DirOf(FullName(top, idx, m))
    ensures var names := Split(DirOf(FullName(top, idx, m))[|top| + 1..], "/");
            && (forall name :: name in names ==> IsDirName(name))
            && (forall part :: part in Parts(names) ==> part < m)
            && (names != [] ==> Parts(names) != [] && Parts(names)[|Parts(names)| - 1] != 0)
            && Value(Parts(names), m) == idx / m
    ensures var file := BaseOf(FullName(top, idx, m));
            AllDigits(file, 10) && Accumulate(file, 10, 0) == idx
  {
    var digits, dir := Digits(idx / m, m), top + "/" + Join(SubDirs(idx, m), "/");
    PrintedDigits(idx, 10);
    NoSlash(FileName(idx));
    DirAndBase(dir, FileName(idx));
    assert FullName(top, idx, m) == dir + "/" + FileName(idx);
    assert dir[|top| + 1..] == Join(SubDirs(idx, m), "/");
    NamesAreDirNames(digits);
    SplitDirNames(SubDirs(idx, m));
    PartsOfNames(digits);
    SubDirsDecode(idx, m);
    DigitsInRange(idx / m, m);
  }

  /** No two blocks share a path. */
  lemma FullNameInjective(top: string, i: nat, j: nat, m: nat)
    requires m >= 2 && FullName(top, i, m) == FullName(top, j, m)
    ensures i == j
  {
    FullNameReads(top, i, m);
    FullNameReads(top, j, m);
  }

  /** Two blocks lie in one directory exactly if their indices agree up to the modulus. */
  lemma SameDirectory(top: string, i: nat, j: nat, m: nat)
    requires m >= 2
    ensures DirOf(FullName(top, i, m)) == DirOf(FullName(top, j, m)) <==> i / m == j / m
  {
    FullNameReads(top, i, m);
    FullNameReads(top, j, m);
    PrintedDigits(i, 10);
    PrintedDigits(j, 10);
    NoSlash(FileName(i));
    NoSlash(FileName(j));
    DirAndBase(top + "/" + Join(SubDirs(i, m), "/"), FileName(i));
    DirAndBase(top + "/" + Join(SubDirs(j, m), "/"), FileName(j));
  }

  /** A directory is never named like a block file. */
  lemma NamesNeverCollide(part: nat, idx: nat)
    ensures DirName(part) != FileName(idx)
  {
    PrintedDigits(idx, 10);
    assert DigitValue(FileName(idx)[0]) < 10 && DirName(part)[0] == 'd';
  }

  /** The directories and block files below the top directory. */
  datatype Tree = Tree(dirs: set<seq<string>>, files: set<(seq<string>, string)>)

  /** What `SpitBlock` and `Link` leave on disk: all directories on the way, and the file. */
  function AddBlock(t: Tree, idx: nat, m: nat): Tree
    requires m >= 2
  {
    var p := SubDirs(idx, m);
    Tree(t.dirs + (set k | 0 <= k <= |p| :: p[..k]), t.files + {(p, FileName(idx))})
  }

  lemma PathParts(top: string, idx: nat, m: nat)
    requires m >= 2
    ensures |top| + 1 <= |DirOf(FullName(top, idx, m))| && BaseOf(FullName(top, idx, m)) == FileName(idx)
    ensures Split(DirOf(FullName(top, idx, m))[|top| + 1..], "/") == SubDirs(idx, m)
  {
    var dir := top + "/" + Join(SubDirs(idx, m), "/");
    NamesAreDirNames(Digits(idx / m, m));
    SplitDirNames(SubDirs(idx, m));
    PrintedDigits(idx, 10);
    NoSlash(FileName(idx));
    DirAndBase(dir, FileName(idx));
    assert dir[|top| + 1..] == Join(SubDirs(idx, m), "/");
  }

  /** The file that is added is the one that the path string names, with all directories above it. */
  lemma AddBlockPath(t: Tree, top: string, idx: nat, m: nat)
    requires m >= 2
    ensures |top| + 1 <= |DirOf(FullName(top, idx, m))|
    ensures var dir := Split(DirOf(FullName(top, idx, m))[|top| + 1..], "/");
            && AddBlock(t, idx, m).files == t.files + {(dir, BaseOf(FullName(top, idx, m)))}
            && forall p :: p in AddBlock(t, idx, m).dirs <==> p in t.dirs || p <= dir
  {
    PathParts(top, idx, m);
    var dir := SubDirs(idx, m);
    forall p ensures p in AddBlock(t, idx, m).dirs <==> p in t.dirs || p <= dir {
      if p <= dir { assert p == dir[..|p|]; }
    }
  }

  /** The tree that holds exactly the blocks of `s`. */
  ghost predicate Stores(t: Tree, s: set<nat>, m: nat)
    requires m >= 2
  {
    && (forall p :: p in t.dirs <==> p == [] || exists i :: i in s && p <= SubDirs(i, m))
    && (forall f :: f in t.files <==> exists i :: i in s && f == (SubDirs(i, m), FileName(i)))
  }

  lemma StoresNothing(m: nat)
    requires m >= 2
    ensures Stores(Tree({[]}, {}), {}, m)
  {
  }

  lemma StoresGrows(t: Tree, s: set<nat>, idx: nat, m: nat)
    requires m >= 2 && Stores(t, s, m)
    ensures Stores(AddBlock(t, idx, m), s + {idx}, m)
  {
    var u, p := AddBlock(t, idx, m), SubDirs(idx, m);
    forall q ensures q in u.dirs <==> q == [] || exists i :: i in s + {idx} && q <= SubDirs(i, m) {
      if q <= p {
        assert q == p[..|q|];
        assert idx in s + {idx};
      }
      if i :| i in s && q <= SubDirs(i, m) { assert i in s + {idx}; }
    }
    forall f ensures f in u.files <==> exists i :: i in s + {idx} && f == (SubDirs(i, m), FileName(i)) {
      if f == (p, FileName(idx)) { assert idx in s + {idx}; }
      if i :| i in s && f == (SubDirs(i, m), FileName(i)) { assert i in s + {idx}; }
    }
  }

  /** At most `m` block files lie in one directory. */
  lemma FilesPerDirectory(s: set<nat>, dir: seq<string>, m: nat)
    requires m >= 2
    ensures |set i | i in s && SubDirs(i, m) == dir| <= m
  {
    var v := Value(Parts(dir), m);
    var here: set<int> := set i | i in s && SubDirs(i, m) == dir;
    forall i | i in here ensures i in Interval(v * m, v * m + m - 1) {
      SubDirsDecode(i, m);
      Shrinks0(i, m);
    }
    IntervalSize(v * m, v * m + m - 1);
    SubsetSize(here, Interval(v * m, v * m + m - 1));
    assert here == set i | i in s && SubDirs(i, m) == dir;
  }

  lemma Shrinks0(i: nat, m: nat)
    requires m >= 2
    ensures i / m * m <= i <= i / m * m + m - 1
  {
  }

  /** The paths directly below `dir` whose last component is a digit below `k`. */
  ghost function ChildPaths(dir: seq<string>, k: nat): (s: set<seq<string>>)
    ensures |s| <= k
  {
    if k == 0 then {} else ChildPaths(dir, k - 1) + {dir + [DirName(k - 1)]}
  }

  lemma {:induction false} InChildPaths(dir: seq<string>, d: nat, k: nat)
    requires d < k
    ensures dir + [DirName(d)] in ChildPaths(dir, k)
  {
    if d < k - 1 {
      InChildPaths(dir, d, k - 1);
    }
  }

  lemma {:induction false} NamedByDigit(v: nat, m: nat, k: nat) returns (d: nat)
    requires m >= 2 && k < |DirNames(Digits(v, m))|
    ensures d < m && DirNames(Digits(v, m))[k] == DirName(d)
    decreases k
  {
    NextSubDir([], v, m);
    Shrinks(v, m);
    if k == 0 {
      d := v % m;
    } else {
      d := NamedByDigit(v / m, m, k - 1);
    }
  }

  /** At most `m` directories lie directly in one directory. */
  lemma SubDirsPerDirectory(t: Tree, s: set<nat>, dir: seq<string>, m: nat)
    requires m >= 2 && Stores(t, s, m)
    ensures |set p | p in t.dirs && |p| == |dir| + 1 && p[..|dir|] == dir| <= m
  {
    var here := set p | p in t.dirs && |p| == |dir| + 1 && p[..|dir|] == dir;
    forall p | p in here ensures p in ChildPaths(dir, m) {
      var i :| i in s && p <= SubDirs(i, m);
      ChildIsNamed(p, dir, i, m);
    }
    SubsetSize(here, ChildPaths(dir, m));
  }

  lemma ChildIsNamed(p: seq<string>, dir: seq<string>, i: nat, m: nat)
    requires m >= 2 && p <= SubDirs(i, m) && |p| == |dir| + 1 && p[..|dir|] == dir
    ensures p in ChildPaths(dir, m)
  {
    var d := NamedByDigit(i / m, m, |dir|);
    InChildPaths(dir, d, m);
    assert p == dir + [p[|dir|]];
  }
}

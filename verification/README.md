# PhatBak: a verified model of its archives

PhatBak makes incremental backups. A new archive hard-links every block of a base archive that has not changed,
frees the index of every block that has, and writes new blocks at the lowest free index, all from jobs that run
concurrently. This project models that logic in Dafny and proves what a user relies on: when a create run leaves all
older archives as they were, when every archive can be read back, and when hard links survive.

`dafny verify dfyconfig.toml` checks the whole project.

## How the model is built

| files | what they model |
|---|---|
| `BlockList`, `BlockTree`, `BlockWalk`, `Allocator` | the block allocator, block paths, rebuilding the allocator from a directory tree, and that a run starts with what was rebuilt |
| `BlockStore`, `BlockRun`, `BlockUse`, `CreateRun`, `CreateTermination`, `BlockBound` | the jobs of a create run over the two block directories, as step machines that interleave |
| `BaseGuard`, `BaseSafety`, `BaseThreat` | which runs can write to an inode of their base, whatever the base holds |
| `CreateSteps`, `SharedBlock`, `LossyBase`, `CreateWitness` | runs built step by step, in which something is lost |
| `ReadBack`, `Snapshot`, `History` | reading an archive, well-formed archives, chains of archives |
| `ArchiveTest`, `TestRun` | checking an archive, with its jobs and tasks side by side |
| `LinkCreate`, `LinkExtract`, `HardLinks` | hard links on create, on extract, and from end to end |
| `LiveFile`, `ExtractChunk`, `ThreadPool`, `PoolBound` | chunking, parallel extraction of a file, the thread pool |
| `Text`, `PathNames`, `Numbers`, `FInfo`, `ListLine` | splitting and joining, path names, numbers, and the two text formats |
| `Common`, `Measure` | shared datatypes, sums and set sizes for termination proofs |
| `Backup` | create with its hard links, list file, and parallel extraction together |

Code that loops over its own variables is a method with invariants, proved against a function; the allocator is a
class. Code whose point is concurrency is a transition system: a state, one predicate per step, and runs of any
length with any number of files, names, workers and tasks. A locked region, and an unlocked read of one variable, is
one step. Compression and hashing are a record of functions (`Codec`) of which only `CodecOK` is assumed. Strings are
byte strings.

Theorems about create runs assume the following, each stated as a predicate:

* `CodecOK`: decompression undoes compression and fails on a text that begins like an FInfo line ("U-" or "C-");
  hashes are non-empty and without blanks.
* `Trusted` and `Believes`: the base archive can be read; equal size and modification time mean equal content, and so
  do equal hashes of the chunks compared. A base directory or symbolic link with the size and time of a live file
  breaks this, and the file is then listed without data (`SkippedWithoutData`).
* `SpecOK`: the file is not empty, and a base entry without FInfo block has no chunks.
* `Disjoint`: no two create calls start from one base block, and all base blocks named exist. `SafeExactly` shows that
  a block directory is safe under all jobs if and only if this holds. `BasedOn` gives it for a well-formed base
  (`SnapshotOK`) if no two live files find base entries of one FInfo index, as the two halves of a split hard link
  would. On a base with a truncated file it fails.
* `Hypotheses`: all of these together. They are needed for the new archive to be good.
* `Harmless`: needed for the older archives to stay as they are, and for nothing else. It can be checked before a run,
  on any base, from the base entries and the live hashes: no existing base block is to be kept for one place and
  rewritten for another (`Mixed`), and files that find one FInfo block find one list in it (`Coherent`). Nothing is
  asked of codec, stats or the readability of the base.
* `Fits`: block indices stay below 2^63. `SmallRunsFit` derives it from the size of base and live files.

## What turned out to be false

The code does not keep these promises in general. For each there is the exact condition under which it holds, and for
all but the newlines a lemma with inputs that break it.

* A live file that is the base file cut off at a chunk boundary keeps all its chunks, so the longer base FInfo is
  linked and the file cannot be read (`TruncatedFileIsLost`).
* A rewritten FInfo that does not compress goes under the flag inherited from a compressed base FInfo and cannot be
  read (`StaleFileIsLost`). Under `Hypotheses`, thus on a base whose entries are complete, `ReadsBackExactly` shows that
  these two are the only ways to lose a file. `ReadsBackFromInputs` decides from the inputs alone which files are surely
  kept and which are surely lost. Between the two are files of which some possible FInfo texts compress and others do
  not: block indices are part of the text, and the interleaving hands them out.
* The archive of a truncating run counts as finished and is the next base by default. There a third kind of loss
  occurs: the old file frees a base index that the base does not have, but that by then belongs to a new file, and
  writes over the new file's block (`LossyBaseLosesAnother`). If both wrote the same bytes, all files can be read, but
  one block is listed twice, and the run after that can write into this archive (`LossyBaseBreaksNext`).
* Two create calls that find one base entry can also do that on a well-formed base (`SharedBlockIsOverwritten`): one
  keeps the block and one rewrites it. Of two that keep it at most one gets listed (`OneKeeperListed`).
* So older archives do not survive every run. `BaseAloneExactly` has the exact condition: with any base archive, no run
  of these files and any further new files comes to write to an inode of the base, if and only if it is not `Mixed`. A
  run on a well-formed base without shared entries is not `Mixed`, and neither is the next one on the archive it leaves,
  lossy or not (`NextRunIsHarmless`). Under this condition every history keeps all its archives as they were
  (`EveryArchiveSurvives`, `EntriesNeverChange`).
* The list record separator overlaps itself, so some names without the separator do not parse back
  (`OverlappingName`; `LineRoundTrip` has the exact condition, also for link targets). A newline breaks the list
  (`ListRoundTrip` has the exact condition).
* Names of one symbolic link (`LinkedSymlinksSplit`), or with an inode number that is a multiple of 2^32
  (`UntrackedInodeSplits`), are extracted as separate files, and files whose device and inode numbers agree in 16 and
  32 bits are merged into one (`TwoFilesMerge`). `PartitionSurvives` has the exact condition.
* Nanosecond times carry only some time stamps (`EarlyTimeIsLost`; `TimeRoundTrip` has the exact condition).

The comment at BlockList.cpp:157 says that the search compares maxima; the code compares minima, and so does the
model.

## Model

| member | source | states |
|---|---|---|
| BlockLists.Search | BlockList.cpp:163-185 | the recursive search returns the last range that starts at or below the index, or -1 if there is none |
| BlockLists.FindDecides | BlockList.cpp:98-111 | an index is allocated exactly if the range found reaches up to it |
| BlockLists.BlockList.Alloc | BlockList.cpp:22-59 | the result is the least number not allocated, only it is added, and the "list corrupted" exception cannot occur |
| BlockLists.BlockList.Free | BlockList.cpp:62-96 | removes exactly the index, also from inside a range, and throws exactly if it is not allocated |
| BlockLists.BlockList.IsAllocated | BlockList.cpp:98-111 | answers membership in the allocated set |
| BlockLists.BlockList.MarkAllocated | BlockList.cpp:114-155 | adds exactly the index, merging up to three ranges, and throws exactly if it was there |
| BlockLists.BlockList.CountAllocated | BlockList.cpp:187-197 | is the number of allocated indices |
| BlockLists.AllocGrows | BlockList.cpp:25-58 | each of the ways to allocate yields sorted, separated ranges that hold the old set and the least missing number |
| BlockLists.FreeShrinks | BlockList.cpp:62-96 | cutting an index out of a range leaves sorted, separated ranges for the set without it |
| BlockLists.MarkGrows | BlockList.cpp:114-155 | marking leaves sorted, separated ranges for the set with the index, whichever neighbours it touches |
| BlockLists.Canonical | BlockList.cpp:113-155 | two well-formed range vectors for the same set are equal |
| BlockTrees.GetSubDirs | BlockList.cpp:200-212 | the loop ends for every modulus of at least 2 and yields the little-endian digits of index / modulus |
| BlockTrees.SubDirsDecode | BlockList.cpp:200-212 | the directory path, read as a number, is index / modulus |
| BlockTrees.FullNameReads | BlockList.cpp:200-234 | in the path string the components after the top directory are "d" and the digits of index / modulus, lowest first and without superfluous zeros, and the last component is the index |
| BlockTrees.SameDirectory | BlockList.cpp:225-234 | two blocks lie in one directory if and only if their indices divided by the modulus are equal |
| BlockTrees.AddBlockPath | BlockList.cpp:254-282 | writing or linking a block adds the file that its path string names, with all directories above it |
| BlockTrees.FullNameInjective | BlockList.cpp:214-234 | different indices have different paths |
| BlockTrees.NamesNeverCollide | BlockList.cpp:205-208 | a directory is never named like a block file |
| BlockTrees.StoresGrows | BlockList.cpp:254-263 | writing a block into a tree that stores a set gives a tree that stores the set with its index |
| BlockTrees.FilesPerDirectory | BlockList.cpp:200-234 | no directory holds more block files than the modulus |
| BlockTrees.SubDirsPerDirectory | BlockList.cpp:200-234 | no directory holds more subdirectories than the modulus |
| BlockWalks.WalkExactly | BlockList.cpp:284-301 | on any directory tree and in every order of the tasks a finished walk has allocated the numbers of all files, and has thrown if and only if two files have one number |
| BlockWalks.WalkRebuilds | BlockList.cpp:284-301 | in every order of the tasks nothing is thrown, and a finished walk has allocated exactly the stored blocks |
| BlockWalks.WrittenBlocksAreFound | BlockList.cpp:254-301 | whatever blocks were written or linked, in whatever order, a finished walk of the tree they left has allocated exactly them |
| BlockWalks.NotStuck | BlockList.cpp:288-301 | every pending task can run |
| BlockWalks.WalksAreBounded | BlockList.cpp:288-301 | every walk ends: no run has more steps than the tree has directories and files |
| BlockWalks.WalkOrderIsIrrelevant | BlockList.cpp:288-301 | any two finished walks end in the same range vector |
| Allocators.WalkStartsRun | BlockList.cpp:284-301 | a finished walk of the base's tree leaves the allocator that a create run starts from |
| Allocators.NextRunKnows | BlockList.cpp:284-301 | the directory that one create run leaves is what the next one's allocator knows |
| BaseGuards.ActionKeepsGuard | BlockList.cpp:254-282 | while no linked index is released, link, free, allocate and write keep every base inode out of reach |
| BlockStores.ActionKeepsInv | Archive.cpp:637-667 | link, free, allocate or write keeps the store invariant, never throws, and takes nothing back that another claim relies on |
| BlockRuns.RunKeepsInv | BlockList.cpp:254-282 | every state of every interleaving satisfies the store invariant |
| BlockRuns.BaseBlocksSurvive | BlockList.cpp:254-282 | whatever the jobs decide and write, every base block keeps its bytes |
| BlockRuns.BaseKeptAnyway | BlockList.cpp:254-282 | if claims on existing base blocks start from different ones, no base inode changes in any run, even if other named blocks are missing and calls throw |
| BlockRuns.SafeExactly | BlockList.cpp:62-96 | all runs are free of exceptions and keep the base blocks if and only if claims start from different, existing base blocks |
| BlockUses.RunKeepsExact | BlockList.cpp:22-96 | in every interleaving the allocator holds exactly the indices that claims answer for and the unclaimed base blocks, so a changed block's index is free again |
| SharedBlocks.SharedBlockIsOverwritten | Archive.cpp:637-667 | for every codec, a create run of two files that found one base entry, one changed and one not, in which a write lands on the inode of the base block |
| CreateRuns.StepKeeps | Archive.cpp:628-803 | each step of a file or chunk job keeps the run invariant: who did what to which chunk, in order |
| CreateRuns.RunKeepsInv | Archive.cpp:628-803 | the run invariant holds in every state of every interleaving |
| CreateRuns.CollectKeeps | Archive.cpp:719-741 | taking the front result keeps the FInfo text equal to the text of the results so far, each used once, in chunk order |
| CreateRuns.BaseArchiveSurvives | Archive.cpp:628-803 | in every interleaving no call throws and every inode of the base archive keeps its bytes |
| CreateRuns.StepKeepsFiles | Archive.cpp:628-803 | on any base, sound or not, each job keeps to its decisions and the texts describe them |
| BaseSafeties.BaseOutOfReach | Archive.cpp:628-803 | on any base and in every state of every run, after exceptions too: unless one existing base block is to be both kept and rewritten, no job is about to write to a base inode and none has changed |
| BaseSafeties.OneKeeperListed | Archive.cpp:712-783 | of two files that both keep one base entry at most one is ever listed |
| BaseThreats.BaseAloneExactly | Archive.cpp:628-803 | whatever else is new, no run writes to a base inode if and only if no existing base block is to be both kept and rewritten |
| CreateRuns.NotStuck | Archive.cpp:714-803 | a file that is not listed can always make a step |
| CreateTerminations.StepWorks | Archive.cpp:628-803 | every step uses up work |
| CreateTerminations.RunsAreBounded | Archive.cpp:628-803 | no run is longer than its initial work |
| CreateTerminations.Completes | Archive.cpp:628-803 | every run can be carried on until all files are listed |
| BlockBounds.RunKeepsCompact | BlockList.cpp:22-59 | in every run fresh indices are paid for one by one, so each lies below the number of base blocks and chunk places |
| BlockBounds.SmallRunsFit | BlockList.cpp:22-59 | small base and live files keep all indices below 2^63 in every run |
| ReadBacks.OutcomeReads | Archive.cpp:628-671 | the recorded result of a finished chunk reads back as the live chunk |
| ReadBacks.KeptOutcomes | Archive.cpp:735-783 | if all chunks are kept, the results equal the base entries place by place, which is why the base FInfo may be linked |
| ReadBacks.KeptReads | Archive.cpp:780-783 | with the base FInfo linked the file reads back, or is unreadable if the base has more chunks |
| ReadBacks.RewrittenReads | Archive.cpp:784-802 | with a new FInfo the file reads back, or is unreadable if its flag is stale |
| ReadBacks.SkippedReads | Archive.cpp:773-783 | a file skipped for equal size and time reads back as the live file |
| ReadBacks.ReadsBackExactly | Archive.cpp:673-841 | in every run a listed file reads back as the live file if and only if it is neither truncated nor under a stale flag |
| ReadBacks.KeepExactly | Archive.cpp:735-783 | the base FInfo is kept if and only if the file is skipped or each live chunk has the hash of the base chunk at its place, whatever the interleaving |
| ReadBacks.ChunkFate | Archive.cpp:628-667 | in every run, on any base, each chunk of a listed file that was read is the base block if and only if the base has a chunk of the same hash at its place; otherwise it is written anew, compressed if that is shorter |
| ReadBacks.SkippedFate | Archive.cpp:773-779 | a skipped file keeps every base chunk |
| ReadBacks.FInfoFate | Archive.cpp:780-802 | the FInfo is the base block if and only if the file is skipped or no hash differs; otherwise it is the new text, compressed if that is shorter, and only then the flag becomes 'C' |
| ReadBacks.ReadsBackFromInputs | Archive.cpp:673-841 | from the inputs alone: which files read back in every run, and which are lost in every run |
| ReadBacks.SkippedWithoutData | Archive.cpp:700-709 | a file skipped for the stats of a base entry without data is listed without data |
| CreateWitnesses.TruncatedFileIsLost | Archive.cpp:712-783 | for every codec and chunks, a complete run whose truncated file cannot be read |
| CreateWitnesses.StaleFileIsLost | Archive.cpp:700-702 | for every codec and every changed chunk whose FInfo line does not shrink, a complete run whose file with a stale flag cannot be read |
| LossyBases.LossyBaseLosesAnother | Archive.cpp:628-671 | for every codec, a truncating run and a complete run on its archive in which a new file is lost that is neither truncated nor under a stale flag |
| LossyBases.LossyBaseBreaksNext | Archive.cpp:628-671 | for every codec, three runs in a row: one truncates, the next leaves an archive that reads back, the third writes into it |
| Snapshots.OKTestsClean | Archive.cpp:281-358 | a well-formed archive has no missing, unused or mismatching block |
| Snapshots.SnapshotSurvives | Archive.cpp:628-671 | an archive stays well-formed when other archives write into fresh inodes |
| Snapshots.BaseGivesHypotheses | Archive.cpp:684-709 | a well-formed base archive gives a create run all it relies on |
| Snapshots.NewDistinct | Archive.cpp:637-667 | the new archive lists no chunk index twice and no FInfo index for two files |
| Snapshots.NewFInfosExact | Archive.cpp:780-802 | the FInfo blocks on disk are exactly those in the list |
| Snapshots.NewChunksExact | Archive.cpp:637-667 | the chunk blocks on disk are exactly those in the FInfos |
| Snapshots.NewSnapshotOK | Archive.cpp:673-841 | a finished create run yields a well-formed, readable archive |
| Histories.AttemptKeepsRepo | Archive.cpp:628-803 | a harmless create command on any finished archive, cut short at any moment, leaves every archive as it was |
| Histories.LossyKeepsRepo | Archive.cpp:511-529 | so does one that ends normally and has lost files |
| Histories.CreateKeepsRepo | Archive.cpp:673-841 | a create command that loses no file leaves every archive well-formed and readable, and adds one |
| Histories.EveryArchiveSurvives | RepoInfo.cpp:28-52 | over any history of harmless create commands with any finished archives as bases, lossy ones included, every well-formed archive stays well-formed, readable and free of complaints |
| Histories.EntriesNeverChange | RepoInfo.cpp:28-52 | over any such history each entry of each archive, lossy or not, gives for ever what it gave at first: its bytes or the failure |
| Histories.NextRunIsHarmless | Archive.cpp:712-783 | a run from a sound base leaves an archive, lossy or not, on which the next run is harmless if no two live files find one entry |
| TestRuns.StepKeepsInv | Archive.cpp:281-326 | each step of a test job or chunk task keeps the record of who opened, marked and checked what |
| TestRuns.RunOpensOnce | Archive.cpp:292-298 | however the jobs interleave, each FInfo is opened by one job only |
| TestRuns.FaultExactly | Archive.cpp:281-326 | when all jobs are over an exception was thrown exactly if something is missing or broken, in every interleaving |
| TestRuns.IdleRecords | Archive.cpp:281-326 | without an exception the jobs have recorded exactly the used blocks and the mismatching chunks, although repeated FInfo indices are skipped |
| TestRuns.OrderIsIrrelevant | Archive.cpp:281-340 | any two interleavings of one test end alike |
| TestRuns.VerdictExactly | Archive.cpp:328-358 | in every interleaving the verdict is clean if and only if every listed block is there and good and no other block is |
| TestRuns.NotStuck | Archive.cpp:281-326 | until all are over, a job or task can go on |
| TestRuns.RunsAreBounded | Archive.cpp:281-326 | every test ends: no run is longer than the work of its lines and chunks |
| TestRuns.DoTest | Archive.cpp:328-358 | after any interleaving of the jobs: the mismatches reported are exactly the listed chunks that can be read and have the wrong hash; the lowest unused FInfo block is reported, or without one the lowest unused chunk block, or without one the report is clean |
| TestRuns.TestAnyArchive | Archive.cpp:328-358 | after any history and in any interleaving, the report on every well-formed archive is clean |
| LiveFiles.ReadChunks | LiveFile.cpp:225-228 | the read loop yields full chunks and a last, non-empty rest |
| LiveFiles.ChunkSizes | LiveFile.cpp:225-228 | all chunks but the last have the full size, and none is empty |
| LiveFiles.ConcatOfChunked | Archive.cpp:743-764 | the chunks put together are the file, and only an empty file has none |
| Backups.FoundIndexed | Archive.cpp:784-813 | separate create calls find different FInfo indices, and only directories and links find none |
| Backups.BackupRoundTrip | Archive.cpp:531-609 | reading the printed list gives the entries back, and the entry of each name, first or further hard link, reads back as its live file |
| Backups.LinksSurvive | Create.cpp:103-136 | extracting the listed entries brings the hard-link partition back if and only if no names are harmed by narrowing |
| Backups.ExtractionRestores | LiveFile.cpp:111-143 | any finished parallel extraction of any entry writes the bytes of the live file |
| LinkCreates.First | Create.cpp:103-129 | the visit that archives a name is the first one under the same device and inode key, or the name's own if it is not tracked |
| LinkCreates.FirstIsShared | Create.cpp:103-129 | two names share their first visit exactly if they are tracked under one key |
| LinkCreates.StepKeepsInv | Archive.cpp:822-858 | each step of a first file, a later link or the visiting thread keeps the rendezvous invariant |
| LinkCreates.ListIsSound | Archive.cpp:822-858 | in every interleaving no line is written twice or with another file's entry, and names wait only while the first file is open |
| LinkCreates.DrainingExcludesJoining | Archive.cpp:822-858 | while the first file drains its links no later name of it joins |
| LinkCreates.ListIsComplete | Archive.cpp:822-858 | in the end each name is in the list exactly once, with its first file's entry |
| LinkCreates.NotStuck | Archive.cpp:822-858 | while some name is not listed, a step is possible |
| LinkCreates.RunsAreBounded | Archive.cpp:822-858 | every run ends within five steps per name |
| LinkCreates.Completes | Archive.cpp:822-858 | every run can be carried on until all names are listed |
| LinkExtracts.StepKeepsInv | Archive.cpp:175-209 | each step of an extract job keeps the record of who creates and who links |
| LinkExtracts.OneCreatorPerIndex | Archive.cpp:175-209 | at any moment no link target is missing, no FInfo index is created twice, and files share inodes exactly as lines share indices |
| LinkExtracts.EveryLineExtracted | Archive.cpp:158-215 | in the end every line has its file |
| LinkExtracts.NotStuck | Archive.cpp:193-209 | an unfinished job, or the one it waits for, can make a step |
| LinkExtracts.RunsAreBounded | Archive.cpp:158-215 | every run ends within four steps per line |
| LinkExtracts.Completes | Archive.cpp:158-215 | every run can be carried on until all lines are extracted |
| HardLinks.KeysMatch | LiveFile.h:41-44 | two names are treated as one file correctly exactly if narrowing is harmless for them |
| HardLinks.ExtractedByKey | Archive.cpp:175-209 | after create and extract, in all interleavings, two lines share an inode exactly if their names had one key |
| HardLinks.PartitionSurvives | Create.cpp:103-136 | the hard-link partition survives if and only if no pair of names is a linked symbolic link or harmed by narrowing |
| HardLinks.LinkedSymlinksSplit | LiveFile.h:44 | complete runs in which two names of one symbolic link come back as two |
| HardLinks.UntrackedInodeSplits | Create.cpp:105 | complete runs in which two names of a file with inode number 2^32 come back as two files |
| HardLinks.TwoFilesMerge | Create.cpp:105-110 | complete runs in which two files come back as one |
| ExtractChunks.StepKeepsInv | LiveFile.cpp:47-69 | each step keeps the file equal to the first chunks in order, and the locks alive while needed |
| ExtractChunks.WritesAreOrdered | LiveFile.cpp:47-69 | at every step of every interleaving the file is a prefix of the chunks, and no deleted lock is waited on |
| ExtractChunks.FileIsComplete | LiveFile.cpp:111-143 | a finished extraction has read and written every chunk |
| ExtractChunks.NotStuck | LiveFile.cpp:111-143 | before that, the lowest unwritten chunk, the writer before it or the extracting thread can go on |
| ExtractChunks.RunsAreBounded | LiveFile.cpp:111-143 | every extraction ends within six steps per chunk |
| ExtractChunks.ReadsOverlap | LiveFile.cpp:111-143 | with more than one thread there is a run in which a later chunk is read before an earlier one |
| ExtractChunks.OneThreadIsSequential | LiveFile.cpp:111-143 | with a single thread only the chunk in hand is under way, in every run |
| ExtractChunks.ExtractionIsReadAll | LiveFile.cpp:111-143 | parallel extraction writes what reading the chunks one by one gives |
| ThreadPools.StepKeepsInv | ThreadPool.cpp:15-170 | each step of a worker or an `Execute` call keeps the hand-off invariant |
| ThreadPools.HandOffIsSafe | ThreadPool.cpp:105-170 | each task starts at most once, no worker gets two, an occupied worker is not available, and a handed-over worker is told |
| ThreadPools.HandOffPrefersWorkers | ThreadPool.cpp:105-170 | a task goes to the worker released last, and is run by the submitting thread itself only if no worker is available |
| ThreadPools.WaitIdleWaitsForAll | ThreadPool.cpp:68-71 | when all workers are available and the main thread is outside `Execute`, every task ever submitted is over |
| ThreadPools.NotStuck | ThreadPool.cpp:15-47 | while any thread is active a step other than a new submission is possible |
| PoolBounds.RunsAreBounded | ThreadPool.cpp:15-170 | a run has at most eight steps for each task submitted |
| ThreadPools.ReleaseFirstLosesPosts | ThreadPool.cpp:37-39 | with the last two steps of the worker loop exchanged, a run in which a task is handed over and never started |
| Text.SplitStr | Utils.cpp:18-27 | the loop ends and computes the split; the last piece is dropped when empty |
| Text.JoinStrs | Utils.cpp:46-56 | the loop computes the join |
| Text.JoinOfSplit | Utils.cpp:18-56 | joining a split gives the string back, or the string without a final separator |
| Text.SplitOfJoin | Utils.cpp:18-56 | splitting a join gives the tokens back if and only if the last is not empty and no separator starts before a token's end |
| PathNames.EraseDots | Utils.cpp:68-83 | the in-place erase loop ends and equals a fold over a stack |
| PathNames.CanonizeFileNameNoCWD | Utils.cpp:58-93 | the method computes the canonical name |
| PathNames.ComponentsAreClean | Utils.cpp:58-93 | no component of a result is empty, "." or ".." |
| PathNames.CanonIdempotent | Utils.cpp:58-93 | canonizing twice is canonizing once |
| PathNames.CanonCompose | Utils.cpp:58-93 | a canonical directory may stand in for an absolute one before a further path |
| PathNames.CanonDrops | Utils.cpp:67-83 | an empty component, a ".", and a name followed by ".." can be left out of a path anywhere |
| PathNames.CanonAtRoot | Utils.cpp:74-77 | ".." directly below the root is dropped |
| PathNames.CanonAtStart | Utils.cpp:74-77 | "." or ".." at the start of a relative name is dropped |
| PathNames.CanonOfClean | Utils.cpp:85-93 | a path of clean components, absolute or relative, is its own canonical name |
| PathNames.CanonInDir | Utils.cpp:95-115 | a relative name is looked up below the working directory, an absolute one is not |
| PathNames.CanonInCanonicalDir | Utils.cpp:95-115 | the working directory may be given in canonical form or not |
| Numbers.PrintRoundTrip | Archive.cpp:70-76 | parsing a printed number gives it back, in base 10 and 16, up to the largest of 64 bits |
| Numbers.PrintedPlainly | Archive.cpp:531-546 | printed numbers have lower-case digits and no superfluous zeros |
| Numbers.SignedRoundTrip | Archive.cpp:73-78 | negative numbers survive the detour through unsigned 64 bits |
| Numbers.TimeRoundTrip | Utils.cpp:275-286 | a time survives the nanosecond count if and only if it is non-negative, normal and below 2^64 nanoseconds |
| Numbers.EarlyTimeIsLost | Utils.cpp:275-286 | a time before 1970 does not survive the nanosecond count |
| FInfos.ParseFInfo | Archive.cpp:587-607 | the parse loop computes the parse, throwing at the first bad line |
| FInfos.FInfoRoundTrip | Archive.cpp:587-607 | parsing the text of any chunk list gives the list back |
| FInfos.ParseLineReads | Archive.cpp:587-607 | a line of flag, dash, number, blank and hash, with or without one more blank, parses to these parts |
| FInfos.ParseLineShape | Archive.cpp:587-607 | no other line parses |
| FInfos.FInfoTextSnoc | Archive.cpp:729-733 | appending one line adds one chunk at the end |
| ListLines.PrintEntry | Archive.cpp:531-554 | the stream insertions write the line of the entry |
| ListLines.AttributesText | Archive.cpp:531-546 | the attributes of a line in full: keys, number bases and order |
| ListLines.LinkLine | Archive.cpp:543-544 | the line of an entry whose mode is that of a symbolic link ends on the target and gives it back; no other line has a third piece |
| ListLines.ParsesExactly | Archive.cpp:47-93 | which lines are accepted: two pieces, or three of which the last begins with "slink>", and only known keys with values |
| ListLines.ReadNarrows | Archive.cpp:70-72 | modes and owners are narrowed to 32 bits on reading |
| ListLines.ParseListLine | Archive.cpp:47-93 | the parse loop computes the parse of a line |
| ListLines.LineRoundTrip | Archive.cpp:47-93 | a printed line parses back to its entry if and only if the separator first occurs right after the name and not in a link target |
| ListLines.OverlappingName | Archive.h:18 | a name that does not contain the separator and does not parse back |
| ListLines.ListRoundTrip | Archive.cpp:531-554 | reading a printed list of storable entries gives them all back if and only if no name runs into the separator, no link target contains it, and no name, target or access control text has a newline |

## Left out

- zstd, mhash and their wrappers (Comp.cpp, Hash.cpp): functions with the hypotheses above.
- Real files, sockets, access control lists, owners, modes, `stat` and directory iteration: an inode store, a directory tree and parameters; the live file system does not change during a run.
- Command line, options, logging, messages of exceptions, `DoList`, `DoCompare`, time formatting, `RepoInfo`: plumbing or easy members.
- `BusyLocksWaiting` and the heuristic at ThreadPool.cpp:119-124: a submitting thread without an available worker runs the task itself; whether the heuristic lets it do so in time is not modelled.
- `JoinAll` and `StopThreads`: shutdown is not modelled.
- Data races and freed memory: each locked region is one step; the unlocked read of `HLinkSyncs` and the notify inside `PostIdle` on a lock about to be deleted are not looked into.
- Exceptions end the program: in the model a job that throws stays where it is, the others may go on, and a run may stop at any state. Which archives the base may be is left to the caller; the program takes the newest finished one.
- Directory attributes, `LineNo` and the filter by file arguments on extract.
- Empty files, fifos and sockets in a create run: they own no block and appear only as negative FInfo indices, numbered in the order in which their calls draw them.
- BlockLists.BlockList.Free: needs some allocated index at or below its argument, because the source reads `Ranges[-1]` otherwise.
- BlockTrees.GetSubDirs: needs a modulus of at least 2, because with 1 the loop in the source does not end.
- ReadBacks.ReadsBackExactly: block indices are unbounded numbers, with `Fits` as the assumption that printing them needs.
- Histories.EveryArchiveSurvives: says of a lossy archive only what `EntriesNeverChange` says, and of create commands that are not `Harmless` nothing; `BaseAloneExactly` shows that these can do harm.
- BaseThreats.BaseAloneExactly: the harm it finds is a job that owns a name of a base inode and writes next; whether the bytes differ depends on the contents.
- TestRuns.DoTest: the block files found are the names in the two directories (`FindBlockFiles` traverses them as `ReverseAlloc` does); its equivalence assumes that entries of one FInfo index carry one flag, as the lines of hard links do, and that FInfo block names are digits.
- HardLinks.PartitionSurvives: assumes that each name is visited once and that separate create calls find different FInfo indices, which `Backups.FoundIndexed` proves for create runs.
- ReadBacks.ReadsBackFromInputs: leaves open files of which some possible FInfo texts compress and others do not, because the interleaving decides.
- ListLines.ParseListLine: a malformed attribute is an error value, where the source throws or reads a default.

# Verification model of the deduplicating file system and its hash

The repository holds a FUSE file system that stores every distinct 4096-byte block once, and a
tracer that hashes system-call buffers in the kernel. This project models four parts of it in Dafny
and proves what they are for.

* **The block store** (`codededup/passthrough.c`). A file is a list of pointers to shared blocks.
  Blocks are indexed by SHA-512, carry a reference counter, and live at an offset of one backend file.
  The store is given twice. `StoreModel` has it as a value, with one function per operation; `Store.dfy`
  has it as the C program does, as tables of heap objects updated in loops, and every method is proved
  to do what the function says. About the functions it is proved that the store behaves as a plain map
  from paths to bytes, that deduplication is perfect, that live blocks and the free list partition the
  space, that the backend file is never longer than the peak of distinct contents, and that the sizes add up.
* **Concurrency** (the locking in `codededup/passthrough.c` and all of `codededup/ticket_rwlock.c`).
  The fair lock is a transition system over any number of threads. On top of it, getattr, read, write and
  unlink are programs of atomic instructions, interleaved by an arbitrary scheduler over any number of
  workers, files and blocks, from any sound tables. It is proved that nothing gets stuck, that everything
  finishes, that counters equal references in every reachable state, that live blocks and the free list share
  out the backend file, and that nothing is freed while somebody can still reach it. What finished operations
  have done is what their decisive steps do to a plain table of files one after another, each worker's in its own
  order; getattrs and reads have seen what that table showed; and nothing is left over. One exception is real: in
  `xmp_write` an unlink can get ahead of the write on the way to the lock of a new file and free it under the
  write's hands. The exact condition is proved: a state goes wrong only after an unlink has
  drawn its ticket for the file before the write did; from every such draw some schedule does go wrong; and for
  operations given in advance, no store and no schedule goes wrong if and only if no path is written by one
  worker and unlinked by another.
* **Saving and loading** (`codededup/persistance.c`). The image format byte by byte, with the position of every
  number, the loader as a parser that can fail anywhere, and the loops that save and load heap objects.
* **xxhash32** (`systracer/hash.h`). The capped loops against the unbounded algorithm XXH32 ("XXH32
  Algorithm Description", Steps 1 to 7, of the xxHash fast digest algorithm specification), its known answers, and
  what the hash separates.

## Files

| file | content |
|---|---|
| Basics, Collections | shared names; sums over maps, sets in ascending order |
| XxHash, KnownAnswers | the hash, its specification, and injectivity of every step; every step in plain arithmetic, and known answers |
| TicketLock | the lock: steps, safety, fairness, wrapping counters, the C structure as a class |
| Programs, Discipline | operations as programs of instructions; the lock order every program keeps |
| Interleaving, Progress, Completion | workers, schedules, mutual exclusion, no deadlock, a measure that falls |
| RefCounts, QuietSteps, DataSteps, FileSteps, UnlinkSteps | the data invariant and every instruction's proof of it |
| Turns | who comes first at the lock of a stolen file |
| Plans, Offsets | what programs are still after; offsets and free space while operations interleave |
| Concurrency | the results about all reachable states and all maximal runs |
| Window, Overtaking | where an unlink can get ahead of a write, and what follows from it |
| Crossing | operations that cannot go wrong, and those that can |
| Ahead | a table of files, the decisive steps of operations on it, and what a program still has to do |
| History, Sights, Linear | every move is a decisive step on the table or none; what is seen; whole runs |
| Tidy, Outcome, Ending, OneWorker | nothing is left over; what finished operations have done; one worker against the sequential store |
| Space, Disk, StoreModel | allocation, the backend file, the store as a value |
| WriteEffect, UnlinkEffect | what one write and one unlink do |
| Runs, Answers | whole runs against the plain map, with remounts; what single calls answer |
| Accounting, Sizes | distinct contents, the peak, real and logical sizes |
| Image, Layout, Loading | the saved image, where it has which number, the loader, round trip and cut-off images |
| Store, Persistence | the imperative store, and saving and loading its objects |

## Assumptions

* SHA-512 is a function parameter. Results about bytes assume that it does not collide among the blocks
  that a run writes (`Runs.CollisionFree`); results about counters, space, sizes and locks do not.
  `WriteEffect.WriteAppends` says exactly when a single write needs the assumption.
* The backend file is open, and reading and writing 4096 bytes of it succeeds; memory is available.
* Offsets and sizes of calls are not negative, and block numbers fit the C type int.
* Paths are C strings. Numbers that are saved fit their 64-bit and 32-bit types (`Image.Fits`).
* An access to shared data between two lock operations is one atomic instruction. `block->counter -= n` in
  xmp_unlink is two, a load and a store.
* A lock is part of the object it protects: a lock call on a freed object is an access to freed memory.
* Workers of the concurrent model start between operations, on tables whose counters count their lists and whose
  blocks and free list share out the backend file, as they are loaded after a save.
* A mutex section of the ticket lock, from taking the mutex to releasing it or going to sleep, is one step.

## Where the code differs from its documentation

`TODO.txt` asks for appends in whole blocks only. The code rejects other writes, but a write that is
rejected because of its position still leaves an empty file entry behind if the path was unknown; the
plain map of `Runs` does the same. `xmp_unlink` puts freed offsets on the free list in the iteration order
of a table keyed by pointers, so that order is arbitrary here.

## Model

| member | source | states |
|---|---|---|
| XxHash.XxHash32 | systracer/hash.h:26-90 | For every seed and every length from 0 to 4096 the capped loops return XXH32 of the buffer, as the specification defines it without caps; longer inputs give 0, and what a negative length gives. The values of XXH32 are pinned by `KnownAnswers` |
| XxHash.RotlSwapsParts | systracer/hash.h:14-20 | A rotation moves the upper bits below the lower ones and loses none |
| XxHash.RotlCancel | systracer/hash.h:14-20 | Rotations are injective |
| XxHash.RoundCancel | systracer/hash.h:42-44 | A lane round with the same input word is injective in the lane, and with the same lane in the word |
| XxHash.LaneDiffers | systracer/hash.h:40-61 | Inputs that differ in one word keep exactly that word's lane different, however many stripes follow |
| XxHash.ConvergeCancel | systracer/hash.h:62-62 | Lanes that differ in one place give different sums of rotations |
| XxHash.TailWordCancel | systracer/hash.h:68-73 | A step over a trailing word is injective in the hash and in the word |
| XxHash.TailByteCancel | systracer/hash.h:75-81 | A step over a trailing byte is injective in the hash and in the byte |
| XxHash.ConsumeDiffers | systracer/hash.h:68-81 | The tail loops keep different hashes different, and tell apart tails that differ in one unit |
| XxHash.AvalancheCancel | systracer/hash.h:83-87 | The final mix is injective |
| XxHash.NearInputsNeverCollide | systracer/hash.h:26-90 | Two buffers of the same length and seed that differ only inside one aligned word, or only in one trailing byte, never hash equal |
| KnownAnswers.RotlTurns | systracer/hash.h:14-20 | A rotation left by n is the word times 2^n modulo 2^32 plus the word divided by 2^(32 - n) |
| KnownAnswers.ShrDivides | systracer/hash.h:83-87 | A shift right by n divides by 2^n |
| KnownAnswers.XorOfDigits | systracer/hash.h:83-87 | Exclusive or acts on each hexadecimal digit, bit by bit |
| KnownAnswers.FirstLanes | systracer/hash.h:35-38 | The four lanes before the first stripe, as numbers |
| KnownAnswers.RoundInNumbers | systracer/hash.h:42-44 | A lane round with its two primes and its rotation written as numbers |
| KnownAnswers.ConvergeInNumbers | systracer/hash.h:62-62 | The sum of the four rotated lanes in numbers |
| KnownAnswers.TailWordInNumbers | systracer/hash.h:68-73 | A step over a trailing word in numbers |
| KnownAnswers.TailByteInNumbers | systracer/hash.h:75-81 | A step over a trailing byte in numbers |
| KnownAnswers.Empty | systracer/hash.h:63-89 | The empty input with seed 0 gives 0x02CC5D05 |
| KnownAnswers.ZeroByte | systracer/hash.h:63-89 | The single byte 0 with seed 0 gives 0xCF65B03E |
| KnownAnswers.Abc | systracer/hash.h:63-89 | The bytes of "abc" with seed 0 give 0x32D153FF |
| KnownAnswers.Long | systracer/hash.h:34-89 | The bytes 0 to 26 with seed 0, one stripe, two words and three bytes, give 0xCBEA6BCF |
| KnownAnswers.Seeded | systracer/hash.h:34-89 | The bytes 0 to 36 with seed 0x9E3779B1, two stripes, a word and a byte, give 0x643781D7 |
| TicketLock.NextKeepsInv | codededup/ticket_rwlock.c:18-65 | Every critical section keeps tickets consecutive, holders exclusive and counted, and every sleeper with a reason to sleep |
| TicketLock.EveryRunIsSafe | codededup/ticket_rwlock.c:18-65 | After any run a writer is alone with the turn on its own ticket, next minus serving counts waiters and writer, active counts readers, entries happened in the order of draws, and nobody sleeps who is served |
| TicketLock.WriterIsAlone | codededup/ticket_rwlock.c:45-54 | While a thread holds the lock for writing nobody else is inside |
| TicketLock.ExactlyOneCanEnter | codededup/ticket_rwlock.c:18-54 | If threads wait and nobody holds the lock, exactly one of them passes its wait condition, and it is awake |
| TicketLock.OvertakenByNobody | codededup/ticket_rwlock.c:20-27 | Between now and the entry of a waiting thread those that enter are precisely the threads with smaller tickets, in their order |
| TicketLock.NobodyIsPassed | codededup/ticket_rwlock.c:20-27 | Who calls the lock while others wait queues behind all of them, and who gets in had a smaller ticket than all who go on waiting |
| TicketLock.NextWrapped | codededup/ticket_rwlock.c:20-22 | While fewer than 2^64 threads wait or write and fewer than 2^32 readers are inside, two bounds written as numbers, the lock with 64-bit and 32-bit counters takes the same step as the one with unbounded tickets |
| TicketLock.RunWrapped | codededup/ticket_rwlock.c:18-65 | Whole runs of the lock with wrapping counters are runs of the unbounded lock, wrapped, as long as every state on the way keeps these two bounds |
| TicketLock.MachineRunIsSafe | codededup/ticket_rwlock.h:6-13 | Any run of the lock with its C counters, as long as its states keep these bounds: a writer is alone, entries happen in the order of draws, the next ticket is the number of draws modulo 2^64 and a waiter's ticket the number of draws before its own, and active counts the readers |
| TicketLock.TicketRwLock.constructor | codededup/ticket_rwlock.c:3-10 | A new lock is the initial state |
| TicketLock.TicketRwLock.ReadLock | codededup/ticket_rwlock.c:18-32 | The first pass of read_lock takes the step Arrive: the new counters, sleepers and the drawn ticket are those of the transition system; the ticket counter goes up by one modulo 2^64, and on entry the readers by one modulo 2^32 and the turn by one modulo 2^64 |
| TicketLock.TicketRwLock.ReadLockAwake | codededup/ticket_rwlock.c:22-31 | A later pass of its loop takes the step Recheck |
| TicketLock.TicketRwLock.ReadUnlock | codededup/ticket_rwlock.c:34-43 | read_unlock takes the step Unlock, with one reader less modulo 2^32, waking writers only when the last reader leaves |
| TicketLock.TicketRwLock.WriteLock | codededup/ticket_rwlock.c:45-54 | The first pass of write_lock takes the step Arrive; the ticket counter goes up by one modulo 2^64, the other counters stay |
| TicketLock.TicketRwLock.WriteLockAwake | codededup/ticket_rwlock.c:49-53 | A later pass of its loop takes the step Recheck |
| TicketLock.TicketRwLock.WriteUnlock | codededup/ticket_rwlock.c:56-65 | write_unlock takes the step Unlock, passing the turn on by one modulo 2^64 and waking everybody |
| Programs.LockOrderIsAscending | codededup/passthrough.c:503-507 | The list of blocks to lock, taken from a table keyed by hash and sorted, is strictly ascending and has every block once |
| Programs.LockOrderMembers | codededup/passthrough.c:689-690 | That list holds exactly the values of the table |
| Discipline.CodeIsDisciplined | codededup/passthrough.c:160-329 | The opening of every operation, up to the first look at a table, takes its lock with nothing held and has the lock which that look relies on; `Discipline.ExecIsDisciplined` is about everything after it |
| Discipline.ExecIsDisciplined | codededup/passthrough.c:509-759 | Whatever an instruction makes of the rest of its program, from whatever data and table order, that rest takes locks in ascending order, releases all it takes, and holds what each instruction relies on |
| Discipline.ReadBlocksIsDisciplined | codededup/passthrough.c:539-607 | A read's block locks: ascending, released in any order of the table, each exactly once |
| Discipline.WriteOutIsDisciplined | codededup/passthrough.c:689-750 | A write's block locks, the two mutexes, the releases, the appends and the unlocks keep the discipline |
| Discipline.OwedIsList | codededup/passthrough.c:289-294 | Counting a block list by distinct blocks owes exactly its entries |
| Interleaving.MoveKeepsLocks | codededup/ticket_rwlock.c:18-65 | After any move of any thread every ticket lock is safe, its holders and waiters are the threads that hold or wait, mutexes have one owner, and every thread is disciplined |
| Interleaving.Exclusion | codededup/ticket_rwlock.c:18-65 | Two threads hold the same lock only if it is a ticket lock and both hold it for reading |
| Progress.NoDeadlock | codededup/passthrough.c:516-605 | While an operation is unfinished and no thread is about to touch a freed object, some thread can make progress, also with threads queued behind others and writers behind readers |
| Progress.ProgressFrom | codededup/passthrough.c:516-605 | If a thread is blocked at a lock of some tier, a thread that holds or is next at a lock of that tier or a later one can make progress |
| Completion.ExecShrinks | codededup/passthrough.c:259-759 | Every instruction leaves less work than it announced, or takes away a tally whose length was not known before |
| Completion.MoveLowers | codededup/passthrough.c:160-759 | Every move but a spurious wakeup lowers one measure of the whole system |
| RefCounts.LockMoveIsSound | codededup/passthrough.c:259-759 | Lock operations keep the data invariant: what is released no longer protects anything that is still needed |
| QuietSteps.QuietExecIsSound | codededup/passthrough.c:509-608 | Looking things up keeps it: what an operation points to from then on exists and is kept alive by a lock, an entry or the index |
| DataSteps.WriteStepIsSound | codededup/passthrough.c:658-687 | Finding or creating a block and counting it keeps it: the new reference is the write's own until it is appended |
| FileSteps.CreateIsSound | codededup/passthrough.c:626-640 | Creating the file of a write keeps it |
| FileSteps.SpaceIsSound | codededup/passthrough.c:699-710 | Assigning offsets and returning them to the free list keeps counters, indexes and files as they are; what it does to the space is in `Offsets` |
| FileSteps.AppendIsSound | codededup/passthrough.c:736-736 | Appending an entry keeps it: the reference moves from the write to the list |
| FileSteps.SizeIsSound | codededup/passthrough.c:742-742 | Setting the logical size keeps it: the list is at least as long by then |
| UnlinkSteps.StealIsSound | codededup/passthrough.c:268-274 | Taking a file out of the index keeps it, whoever points to the file |
| UnlinkSteps.TallyIsSound | codededup/passthrough.c:289-294 | Counting up the stolen list keeps it if nobody else points to the file: its entries become the unlink's own |
| UnlinkSteps.StoreIsSound | codededup/passthrough.c:306-306 | Writing back a counter that was loaded before keeps it: nobody else changed it in between |
| UnlinkSteps.UnindexIsSound | codededup/passthrough.c:308-309 | Taking a block with counter 0 out of the index keeps it |
| UnlinkSteps.FreeBlockIsSound | codededup/passthrough.c:316-316 | Freeing that block keeps it |
| UnlinkSteps.FreeFileIsSound | codededup/passthrough.c:326-327 | Freeing the file keeps it |
| Turns.MoveKeepsTurns | codededup/passthrough.c:274-276 | Every move but an overtaking one keeps the order at stolen files: whoever points to such a file has its lock or comes before the unlink in its queue |
| Turns.ThiefIsAlone | codededup/passthrough.c:276-294 | Once the unlink has the lock of its file, nobody else points to the file |
| Plans.ExecAims | codededup/passthrough.c:259-759 | Where paths, files and blocks of a program come from: after an instruction the paths it will create or unlink, the files it will check, the blocks it will place and those it will give back are what they were, less the instruction's own and with exactly those it found. What a check of the position decides is in `Ahead.BranchLeaves` |
| Offsets.AllArePlaced | codededup/passthrough.c:689-704 | A write that met one object for each hash gives an offset to each block that it created |
| Offsets.ToPlaceAscends | codededup/passthrough.c:690-701 | A write gives its new blocks their offsets in ascending order of their hashes |
| Offsets.AllocSlots | codededup/passthrough.c:699-710 | The k-th of these blocks gets the k-th offset from the end of the free list, then from the end of the backend file; all others stay |
| Offsets.SlotIsThere | codededup/passthrough.c:311-313 | A block whose offset is about to be returned has one, and it has not been returned before |
| Offsets.MoveKeepsSpace | codededup/passthrough.c:699-710 | Every move keeps live blocks and the free list a partition of the backend file, and each block without an offset the task of exactly one write |
| Concurrency.MoveKeepsInv | codededup/passthrough.c:160-759 | Every move of every thread keeps locks and programs in order, and, unless it is an unlink that overtakes a write, the data, the space and the turns at stolen files |
| Concurrency.CountersCountReferences | codededup/passthrough.c:658-739 | In every reachable state in which no unlink has overtaken a write, a block's counter equals its occurrences in all lists, stolen ones included, plus what operations in progress have counted but not appended or not yet taken off |
| Concurrency.NothingDangles | codededup/passthrough.c:287-320 | In every such state everything referred to is allocated, and no thread is about to touch a freed object, its lock included |
| Concurrency.FreedBlockIsUnreachable | codededup/passthrough.c:304-320 | When a block is freed in such a state, no entry refers to it, the index does not lead to it, and no other operation points to it |
| Concurrency.FreedFileIsUnreachable | codededup/passthrough.c:326-327 | When a file is freed in such a state, the index does not lead to it and no other operation points to it |
| Concurrency.SpaceIsShared | codededup/passthrough.c:699-710 | In every such state the free list and the offsets of blocks are distinct slots that cover the backend file, and an unlink about to return an offset has one |
| Concurrency.NeverStuck | codededup/passthrough.c:160-759 | In every reachable state with an operation left some thread can make progress, or is about to touch a freed object; without an overtaking unlink always the former |
| Concurrency.EveryMaximalRunCompletes | codededup/passthrough.c:160-759 | Every run from any start that goes on as long as it can, with any number of waits that return for no reason before some point, finishes all operations, or comes to an access to a freed object after an unlink has overtaken a write; `Outcome` says what the finished operations have done |
| Window.TheftsFindTheWindow | codededup/passthrough.c:638-642 | When an unlink is about to steal a file, another operation points to the file without its lock if and only if it is a write that has released the file index and is about to take it again |
| Window.OvertakenAreLate | codededup/passthrough.c:274-276 | When an unlink is about to draw its ticket for the file it stole, it overtakes somebody if and only if a write is on its way to that lock without a ticket |
| Overtaking.OvertakingGoesWrong | codededup/passthrough.c:638-642 | From every reachable state, an unlink that overtakes a write can be followed by a schedule after which a thread is about to touch a freed object |
| Overtaking.UnsafeExactlyIfOvertaken | codededup/passthrough.c:638-642 | From every start: some schedule leads to an access to a freed object if and only if some schedule lets an unlink overtake a write |
| Crossing.UncrossedIsNeverOvertaken | codededup/passthrough.c:259-274 | If no path is written by one worker and unlinked by another one, no unlink ever overtakes a write, from any start and under any schedule |
| Crossing.CrossedGoesWrong | codededup/passthrough.c:626-642 | If a path that is not in the index is written by one worker and unlinked by another one, some schedule leads to an access to a freed object, whatever else there is to do |
| Crossing.SafeExactlyIfUncrossed | codededup/passthrough.c:259-759 | Given the operations of all workers: no sound store and no schedule leads to an access to a freed object if and only if no path is written by one worker and unlinked by another one |
| Crossing.WriteAgainstUnlink | codededup/passthrough.c:638-642 | The smallest such case: on an empty store, one write and one unlink of the same path |
| Crossing.UncrossedRunIsSafe | codededup/passthrough.c:160-759 | Without crossing paths, after any run counters count references, everything referred to is allocated and indexed, nothing dangles and nothing is stuck |
| Crossing.UncrossedRunCompletes | codededup/passthrough.c:160-759 | Without crossing paths every maximal run finishes all operations; `Outcome.EveryRunDoesItsWork` says with what result |
| Ahead.BranchLeaves | codededup/passthrough.c:516-742 | What each look at a table leaves to do: an accepted write exactly the hashes it was given and its new size, a rejected one nothing; a read exactly the blocks of its range; every operation its remaining decisive steps |
| Ahead.BranchEvents | codededup/passthrough.c:160-742 | A decisive step that was ahead of such a look is taken by it or still ahead after it |
| History.MoveKeepsCare | codededup/passthrough.c:516-742 | Only the holder of a file's exclusive lock has something left to append to it, and a file that a getattr or a read is about to look at is kept in the index by the lock of the file index |
| History.MoveIsEvents | codededup/passthrough.c:160-742 | Every move of every thread does to the table of files, each as it will be when the write in progress is through, what the decisive steps of that move do, and nothing else |
| History.MoverSteps | codededup/passthrough.c:160-742 | What a thread has ahead of a move is what it takes with it and what it has ahead afterwards |
| Sights.MoverSees | codededup/passthrough.c:176-184 | What a move shows its thread, and what it leaves for a read to fetch, is what the table shows at its decisive steps |
| Sights.OtherFetches | codededup/passthrough.c:522-580 | What a read still has to fetch stays the same, whatever the others do |
| Linear.RunIsEvents | codededup/passthrough.c:160-759 | The table after a run in which no unlink overtakes is the table before it with all decisive steps taken one after another |
| Linear.RunTakesSteps | codededup/passthrough.c:160-759 | Along such a run every worker takes the decisive steps of its operations in their order, each once |
| Linear.RunShows | codededup/passthrough.c:160-605 | And sees, or is about to fetch, what the table shows at these steps |
| Outcome.OperationsAreLinear | codededup/passthrough.c:160-759 | All three together, from any start, for operations in progress |
| Outcome.FinishedOperations | codededup/passthrough.c:160-759 | When all operations are finished, the stored lists and sizes are what all decisive steps make of the stored lists and sizes of the start, and everybody has seen exactly what the table showed |
| Outcome.FilesAreConcatenations | codededup/passthrough.c:644-742 | Then the list of every live file is the concatenation of what it held and of the writes to it that were accepted, in the order of their checks |
| Outcome.UncrossedOperations | codededup/passthrough.c:160-759 | Without crossing paths, under any schedule: there is an order of the steps of all operations, each worker's own in its order and none of them lost, that leads one after another to the same files and shows everybody what it has seen |
| Outcome.EveryRunDoesItsWork | codededup/passthrough.c:160-759 | Without crossing paths every maximal run comes to such an end |
| Tidy.MoveLeavesNothing | codededup/passthrough.c:268-327 | No move leaves a file behind that is not in the index, or a block with counter 0, that no unlink is going to free |
| Ending.FinishedIsInOrder | codededup/passthrough.c:160-759 | From tables in which everything is in use finished operations leave such tables again: counters count, every block has its offset, offsets and free list share out the backend file, every file object is in the index and every block object referred to |
| Ending.IndexIsWhatOccurs | codededup/passthrough.c:658-687 | In such tables the block index has exactly the hashes that occur in some file, and every allocated block |
| Ending.CountersCountOccurrences | codededup/passthrough.c:658-687 | And the counter of a block is the number of times its hash occurs in all files together |
| OneWorker.WriteOutcome | codededup/passthrough.c:644-742 | A worker with one write to do: at the size of the file its hashes are behind the old ones and the size is the position plus 4096 for each; elsewhere list and size are as before, or empty if the path was unknown; no other file changes |
| OneWorker.UnlinkOutcome | codededup/passthrough.c:259-329 | A worker with one unlink to do: the path is gone unless it is one of the store's own two, and no other file changes |
| OneWorker.ReadOutcome | codededup/passthrough.c:512-605 | A worker with one read to do fetches the blocks from that of the position to that of the last byte before the end of the range and of the file, and changes nothing |
| OneWorker.GetattrOutcome | codededup/passthrough.c:160-190 | A worker with one getattr to do sees the size in the index, and changes nothing |
| OneWorker.SequentialStep | codededup/passthrough.c:160-759 | An operation of the sequential store does to its files what the operation's decisive steps do one after another |
| OneWorker.OneWorkerIsTheStore | codededup/passthrough.c:160-759 | Whatever operations a single worker has to do: it ends with the same lists, sizes, index and counters as the sequential store |
| Space.TakeKeepsPartition | codededup/passthrough.c:702-708 | Giving a new block an offset keeps live slots and free slots distinct, disjoint, multiples of 4096, and together everything below the high-water offset |
| Space.GiveKeepsPartition | codededup/passthrough.c:311-313 | Returning an offset keeps it too |
| Space.TakeAllSlots | codededup/passthrough.c:699-710 | The k-th new block gets the k-th slot from the end of the free list, then from the end of the file; no other block moves |
| Space.SlotsAreUsed | codededup/passthrough.c:699-710 | The high-water offset is 4096 times the number of live and free slots |
| Disk.ReadElsewhere | codededup/passthrough.c:729-732 | Writing one slot, past the end of the file or not, changes no other slot |
| Disk.FlattenSplit | codededup/passthrough.c:617-621 | The blocks of a buffer put together again are the buffer |
| WriteEffect.WrittenHas | codededup/passthrough.c:726-739 | After the output loop a created block holds what stood at the first place its hash was met |
| WriteEffect.WrittenKeeps | codededup/passthrough.c:726-739 | The output loop changes no slot of an older block |
| WriteEffect.AppendedIsGood | codededup/passthrough.c:651-742 | An accepted write keeps counters, sizes, the partition of space, and that every block hashes to its id |
| WriteEffect.AppendKeepsOld | codededup/passthrough.c:651-742 | No byte that any file held before changes, even if blocks are shared, slots reused, or hashes clash |
| WriteEffect.WriteAppends | codededup/passthrough.c:610-759 | An accepted write appends exactly its buffer if and only if no block of it has the hash of a different stored block or of a different new block before it |
| UnlinkEffect.ReleasedBlock | codededup/passthrough.c:300-320 | Whatever the order, every block of the file loses its occurrences, one that loses the last goes, the others stay as they are |
| UnlinkEffect.ReleasedSpace | codededup/passthrough.c:300-320 | The release loop keeps the partition, appends to the free list, and moves no block |
| UnlinkEffect.RemovedIsGood | codededup/passthrough.c:259-329 | An unlink keeps the invariant, and what is still indexed reads as before |
| UnlinkEffect.UnlinkKeepsOthers | codededup/passthrough.c:259-329 | Every other file keeps its list and its bytes |
| Runs.WriteRefines | codededup/passthrough.c:610-759 | A write answers and acts as on the plain map, errors included |
| Runs.UnlinkRefines | codededup/passthrough.c:259-329 | An unlink answers and acts as on the plain map, errors included; `Answers.OwnFilesAreProtected` has the protected names |
| Runs.LookRefines | codededup/passthrough.c:160-190 | Getattr and read answer as on the plain map and change nothing; `Answers` says byte for byte what that is |
| Runs.DedupIsInvisible | codededup/passthrough.c:160-759 | Any run from a fresh store gives the replies of the plain map and ends in a store that represents it |
| Runs.RunIsGood | codededup/passthrough.c:259-759 | After any run, collisions or not, counters count, only what is referred to is indexed, and the space is partitioned |
| Runs.RemountIsIdentity | codededup/passthrough.c:120-134 | Saving and loading gives back the same tables, in the same free-list order, for every order of the hash tables |
| Runs.RemountsAreInvisible | codededup/passthrough.c:120-134 | A run with remounts at any points gives the same replies and ends in the same store as without them |
| Answers.PlainReadAnswers | codededup/passthrough.c:512-605 | On the plain map a read gives EINVAL, ENOENT, or as many bytes as there are from the position on, at most the size; byte k of the answer is byte off + k of the file |
| Answers.ReadAnswers | codededup/passthrough.c:512-605 | In the store byte k of the answer stands in the backend file at the offset of block (off + k) / 4096 of the list, plus (off + k) % 4096 |
| Answers.OwnFilesAreProtected | codededup/passthrough.c:163-261 | For "/backend/.metadata" and "/backend/.sysdata" getattr gives ENOENT and unlink EPERM, in every state and whatever the backend says, and nothing changes |
| Answers.GetattrAnswers | codededup/passthrough.c:163-190 | For every other path getattr gives the error of lstat, the size in the table with its blocks of 512 bytes, or what lstat says |
| Answers.UnlinkAnswers | codededup/passthrough.c:261-329 | For every other path unlink gives ENOENT or the error of the backend and changes nothing, or takes out that path alone |
| Accounting.IndexIsDistinctBlocks | codededup/passthrough.c:658-687 | The index has exactly one entry for each distinct block that some file holds, under its hash |
| Accounting.StepNext | codededup/passthrough.c:699-710 | After every call the high-water offset is the larger of what it was and what the index needs |
| Accounting.SpaceIsThePeak | codededup/passthrough.c:699-710 | From a fresh backend the high-water offset is always 4096 times the largest number of distinct contents that were live at once |
| Sizes.CountersAddUp | codededup/passthrough.c:300-320 | Counters add up to the list lengths, logical sizes to 4096 times that, and no fewer than the indexed blocks |
| Sizes.SizesAddUp | codededup/passthrough.c:726-742 | After any run the real sizes add up to at most what the indexed blocks take, exactly so without an unlink, and these take at most what the logical sizes add up to |
| Image.MemcmpIsNumeric | codededup/passthrough.c:503-507 | Comparing ids byte by byte compares the numbers they spell |
| Image.WordRoundTrip | codededup/persistance.c:8-33 | Numbers of each C type come back as they were written |
| Layout.BlockLayout | codededup/persistance.c:70-81 | An entry of a block is 88 bytes: byte k of the id is its value divided by 256^(63 - k), and byte k of size, offset and counter, at 64, 72 and 80, its value divided by 256^k, each modulo 256 |
| Layout.FileLayout | codededup/persistance.c:83-101 | An entry of a file: the length of the path at 0, its bytes from 8 on, then real size, logical size, number of blocks, and the ids of 64 bytes each |
| Layout.ImageLayout | codededup/persistance.c:103-129 | The image: high-water offset at 0, number of blocks at 8, block i at 16 + 88 * i, number of files behind them, and at the end the number of free offsets and the offsets |
| Loading.BlocksCut | codededup/persistance.c:142-162 | The loop over blocks gets through exactly if none is cut off, and has inserted only blocks as they were saved |
| Loading.IdsCut | codededup/persistance.c:185-194 | The loop over a file's ids gets through exactly if none is cut off, and gives back the list |
| Loading.FileCut | codededup/persistance.c:167-196 | A file entry loads exactly if it is all there, and as it was |
| Loading.FreeCut | codededup/persistance.c:199-207 | The loop over the free list gives back as much of it as is there |
| Loading.ImageRoundTrip | codededup/persistance.c:103-210 | For every order of both tables the loader consumes the whole image and rebuilds the same tables |
| Loading.PrefixLoadsPart | codededup/persistance.c:131-214 | From any proper prefix of an image it rebuilds blocks and files that are all as saved, files complete with all their blocks, and the beginning of the free list |
| Loading.ImagesAreClean | codededup/persistance.c:131-197 | A saved image, whole or cut off anywhere, never makes the loader enter an id or a path twice |
| Loading.SameBlockTwice | codededup/persistance.c:142-162 | An image with the same block twice does |
| DedupStore.Store.constructor | codededup/passthrough.c:97-118 | The tables before loading are empty and the high-water offset is the size of the backend file |
| DedupStore.Store.HashBlocks | codededup/passthrough.c:617-621 | The loop hashes every block of the buffer |
| DedupStore.Store.OpenFile | codededup/passthrough.c:623-640 | The file object of the path, entered empty if there was none |
| DedupStore.Store.CountBlock | codededup/passthrough.c:659-681 | One hash looked up or inserted, and one reference more |
| DedupStore.Store.CountAll | codededup/passthrough.c:653-687 | The whole loop: new counters, which objects the write has, which are new, which are distinct |
| DedupStore.Store.PlaceBlock | codededup/passthrough.c:701-709 | One offset taken from the free list or the end of the file |
| DedupStore.Store.PlaceAll | codededup/passthrough.c:689-710 | The created blocks get offsets in ascending order of their ids |
| DedupStore.Store.EmitAll | codededup/passthrough.c:726-739 | The backend file, the file's list and its real size after the output loop |
| DedupStore.Store.Write | codededup/passthrough.c:610-759 | The objects after a write show exactly the state and the result of the model's write, and every list entry is still the index's own object |
| DedupStore.Store.Tally | codededup/passthrough.c:289-294 | The counting table holds every block's occurrences |
| DedupStore.Store.ReleaseAll | codededup/passthrough.c:296-320 | The release loop leaves the index and the free list of the model |
| DedupStore.Store.Unlink | codededup/passthrough.c:259-329 | The objects after an unlink show exactly the state and the result of the model's unlink; for the store's own two paths it is EPERM and nothing changes |
| DedupStore.Store.CopyBlocks | codededup/passthrough.c:535-595 | The block loop fills the buffer with exactly the asked bytes of the file |
| DedupStore.Store.Read | codededup/passthrough.c:509-608 | A read returns EINVAL, ENOENT or the number of bytes there are from the position on, at most the size; byte k of the buffer is byte off + k of the file, and the rest of the buffer is left alone |
| DedupStore.Store.Getattr | codededup/passthrough.c:160-190 | Getattr returns what the model's getattr does, ENOENT for the store's own two paths |
| Persistence.SaveBlock | codededup/persistance.c:70-81 | A block entry as the image has it, or what fits of it |
| Persistence.SaveFile | codededup/persistance.c:83-101 | A file entry as the image has it, or what fits of it |
| Persistence.Save | codededup/persistance.c:103-129 | The file ends up with the image of the tables, or with exactly what fits of it on the device, and has no id or path twice |
| Persistence.LoadBlocks | codededup/persistance.c:139-162 | The loop over blocks enters the objects that the parser reads; it leaves a table with a freed key exactly if it reads an id twice |
| Persistence.LoadIds | codededup/persistance.c:185-194 | Ids of a file's list become pointers to the block objects of the index |
| Persistence.LoadFile | codededup/persistance.c:167-196 | A file object is complete before it is entered |
| Persistence.LoadFiles | codededup/persistance.c:164-197 | The loop over files enters the files that the parser reads, all lists leading to blocks of the index; it leaves a table with a freed key exactly if it reads a path twice |
| Persistence.LoadFree | codededup/persistance.c:199-207 | The loop over the free list appends what the parser reads, if it is not negative |
| Persistence.Load | codededup/persistance.c:131-214 | Whatever the bytes, the loaded store is valid if and only if no id and no path has been read twice, and then it shows what the parser makes of them |
| Persistence.Remount | codededup/passthrough.c:120-134 | Saving and loading gives a new store that shows the same state, with lists pointing to shared block objects again |

## Left out

- Concurrency.EveryMaximalRunCompletes: a run in which waits return for no reason without end, because a scheduler that does nothing else would never finish.
- Concurrency.CountersCountReferences: for states before an unlink has overtaken a write. From then on a run can go wrong, as `Overtaking.OvertakingGoesWrong` says, or merely leave counters too high.
- Concurrency.NothingDangles: for the same states.
- Concurrency.FreedBlockIsUnreachable: for the same states.
- Concurrency.FreedFileIsUnreachable: for the same states.
- Concurrency.SpaceIsShared: for the same states.
- Concurrency.MoveKeepsInv: after an overtaking move only locks and programs are still in order.
- Crossing.CrossedGoesWrong: a start that has the crossing path in its index. Whether such a start is safe depends on whether another unlink of the path can come before the write; `Crossing.SafeExactlyIfUncrossed` is about all starts together.
- What files contain while operations interleave: a new block is visible in the index before it has an offset and before its bytes are written, so results about bytes are about operations one after another.
- In the concurrent model, realSize, error codes, and a backend unlink that fails: there the file goes back into the index after another operation may have created its path again.
- Outcome.OperationsAreLinear: for runs in which no unlink overtakes a write, like the results of `Concurrency`. A write whose path is unlinked between its two holds of the file index without being overtaken appends to a file that no path leads to; its step is then `Lost`, which `Outcome.UncrossedOperations` excludes.
- OneWorker.OneWorkerIsTheStore: files, index and counters, not which free slot a block gets; `Offsets.AllocSlots` is about that, and the order in which an unlink returns slots is arbitrary.
- How a failed pwrite or a failed allocation leaves the store: the counters are raised and stay raised.
- Persistence.Load: what the tables hold after an id or a path has been read twice, when lookups compare with freed memory; and a negative number in an image, which saving never writes, becomes 0 in the heap objects, where `Loading.Load` has it as it is.
- Persistence.LoadBlocks: as for Persistence.Load, a repeated id and a negative offset.
- Persistence.LoadFiles: as for Persistence.Load, a repeated path and a negative size.
- Persistence.LoadFree: as for Persistence.Load, a negative offset.
- A length field of a damaged image that makes the allocation of a string abort the program.
- Locks of loaded blocks, which the loader leaves zeroed instead of initialised; and the state of a start that finds a backend file but no metadata.
- xmp_rename, xmp_truncate, xmp_link and xmp_copy_file_range: they act on the backend path and leave the index alone, so runs with them are not compared to the plain map.
- All callbacks that only forward to the C library, the skeleton file system, the eBPF probes, and the scripts around them.
- SHA-512, the GLib tables and arrays, direct I/O with aligned buffers, and pthread mutexes and condition variables, beyond what the assumptions say.
- Fairness of the two plain mutexes, and of the mutex inside a ticket lock.

# xv6 buffer cache, page allocator, xargs and find — a Dafny model

This project models four pieces of an xv6 (RISC-V) kernel and user land as
changed for the 2020 labs:

- **The buffer cache** (`kernel/bio.c`): a pool of `NBUF` buffer slots and
  thirteen hash buckets. Each bucket is a doubly linked list of the slots
  that currently hold a reference. `bget` searches the bucket that
  `blockno % 13` selects. On a miss it recycles the first unreferenced slot
  of the pool and splices it at the head of that bucket. `brelse` unlinks a
  slot when its last reference goes. `bpin`/`bunpin` add or drop a
  reference. `bread` and `bwrite` move a slot's payload to or from the disk.
- **The per-CPU page allocator** (`kernel/kalloc.c`): one free list per
  CPU. `kfree` pushes a page on the calling CPU's list. `kinit` and
  `freerange` free every whole page between the kernel's end and
  `PHYSTOP`. When its own list is empty, `kalloc` steals the back half of
  the first other list that holds at least two pages, walking it with a
  slow and a fast pointer, and then pops the head.
- **xargs** (`user/xargs.c`): `parseNextLine` cuts the next line out of the
  input buffer into `line` and moves the cursor past it. `main` builds the
  argument vector from its own arguments followed by the line.
- **find** (`user/find.c`): `fmtname` (the last path component), the match
  test, the filter that skips free directory entries and `.`/`..`, and the
  construction of a child's path in `buf`.

## Layout

- `common.dfy` holds the `Option` type and `Outcome`, which is either a
  value or a kernel `panic` with its message.
- `bio_spec.dfy` (module `BioSpec`) states the buffer cache as a value: a
  `Cache` of slots and bucket lists with the invariant `Valid`, and one
  function per routine of `bio.c`.
- `bio.dfy` (module `Bio`) is the class `BCache`. Its fields are the slot
  array and the bucket heads, and its methods update them in place. Each
  method is proved to leave exactly the state its `BioSpec` function gives.
- `kalloc_spec.dfy` (module `KallocSpec`) does the same for the free lists,
  with the multiset of free pages as the conserved quantity.
- `kalloc.dfy` (module `Kalloc`) is the class `Kmem` over the array of
  per-CPU lists, together with the slow/fast split walk.
- `xargs.dfy` and `find.dfy` model the two user programs over `array<char>`
  buffers, with recursive functions as their specifications.

A bucket or free list is modelled as the sequence of slot indices or page
addresses met by walking it from its head. Splicing at the head is a
prepend, an unlink is `BioSpec.Unlink`, and the steal is a cut of the
victim's sequence.

## Model

| member | source | states |
|---|---|---|
| BioSpec.Init | kernel/bio.c:44-62 | the state binit leaves, which satisfies the cache invariant |
| BioSpec.InitValid | kernel/bio.c:44-62 | binit leaves every bucket list empty and every slot unreferenced and unlocked, which satisfies the cache invariant |
| Bio.BCache.constructor | kernel/bio.c:44-62 | the new cache is exactly the binit state and satisfies the invariant |
| BioSpec.OnListIsLinked | kernel/bio.c:76-84 | under the invariant, a slot found on any bucket list is on the list of the bucket its block hashes to, and it is referenced |
| BioSpec.FindIn | kernel/bio.c:76-84 | the walk of one bucket list for a block: a slot it returns is on the list and caches the block |
| BioSpec.FindInSpec | kernel/bio.c:76-84 | the bucket walk returns a slot on the list that caches the block, or reports none exactly when no slot on the list caches it |
| Bio.BCache.LookUp | kernel/bio.c:76-84 | the loop over a bucket list returns what the bucket walk specification returns |
| BioSpec.FirstFree | kernel/bio.c:89-90 | the scan of the pool from a given slot: a slot it returns is at or after that slot and unreferenced |
| BioSpec.FirstFreeSpec | kernel/bio.c:89-104 | the pool scan returns the lowest slot with no references, every earlier slot being referenced; or none exactly when every slot is referenced |
| Bio.BCache.FirstFreeSlot | kernel/bio.c:89-90 | the loop over the pool returns what the pool scan specification returns |
| BioSpec.BGet | kernel/bio.c:67-107 | for a caller that does not already hold the block's lock, a returned slot caches the requested block, is referenced and locked, and the cache stays well formed |
| BioSpec.LookupComplete | kernel/bio.c:72-84 | searching only bucket blockno % 13 finds a slot exactly when some referenced slot caches the block |
| BioSpec.BGetHit | kernel/bio.c:76-83 | when a referenced slot the caller does not hold caches the block, bget returns that slot with one more reference and its lock, and changes no other slot and no list |
| BioSpec.BGetMiss | kernel/bio.c:86-106 | when the block is not cached, bget panics with "bget: no buffers" iff every slot is referenced; otherwise it recycles the lowest unreferenced slot, which is on no list, renames it, marks it invalid with one reference, pushes it on the head of the new bucket, and leaves everything else alone |
| BioSpec.BGetValid | kernel/bio.c:67-107 | bget preserves the cache invariant, including that no two referenced slots cache the same block |
| BioSpec.BGetHitValid | kernel/bio.c:76-83 | the hit path preserves the cache invariant |
| BioSpec.RecycleValid | kernel/bio.c:89-98 | renaming an unreferenced, unlinked slot to a block no referenced slot caches and pushing it on its bucket preserves the invariant |
| BioSpec.BGetIgnoresLastUsed | kernel/bio.c:89-104 | the recycled slot does not depend on the last-use stamps, so the choice is first-fit in array order and not least-recently-used |
| BioSpec.FindInSameIds | kernel/bio.c:76-78 | the bucket walk depends only on the slots' block identities |
| BioSpec.FirstFreeSameRefs | kernel/bio.c:89-90 | the pool scan depends only on the slots' reference counts |
| Bio.BCache.BGet | kernel/bio.c:67-107 | the in-place bget returns the slot and leaves the state the bget function gives, or panics and leaves the state unchanged; the invariant is kept |
| BioSpec.BRead | kernel/bio.c:110-121 | bread panics exactly when bget does; otherwise the returned slot caches the block, is valid, locked and referenced |
| BioSpec.BReadValid | kernel/bio.c:110-121 | bread preserves the cache invariant |
| BioSpec.BReadHit | kernel/bio.c:115-120 | for a block cached in a slot the caller does not hold, bread returns the caching slot, and its payload comes from the disk only if the slot was not valid |
| BioSpec.BReadMiss | kernel/bio.c:115-120 | for a block no referenced slot caches, the payload bread returns is the disk's |
| Bio.BCache.BRead | kernel/bio.c:110-121 | the in-place bread leaves the state the bread function gives and keeps the invariant |
| BioSpec.BWrite | kernel/bio.c:124-130 | bwrite panics exactly when the caller does not hold the slot's lock; otherwise the disk then holds the slot's payload at the slot's block and is unchanged at every other block |
| Bio.BCache.BWrite | kernel/bio.c:124-130 | the in-place bwrite updates the disk as the bwrite function gives, or panics and leaves it unchanged |
| BioSpec.Unlink | kernel/bio.c:142-144 | the splice of a slot out of its bucket list: the list loses one entry if it held the slot and is unchanged otherwise |
| BioSpec.NoDupTail | kernel/bio.c:142-144 | the tail of a list without repeats has no repeats and does not contain the head |
| BioSpec.NoDupCons | kernel/bio.c:95-98 | pushing a slot that is not on a list without repeats keeps it without repeats |
| BioSpec.UnlinkSpec | kernel/bio.c:142-144 | unlinking a slot from a list without repeats removes exactly that slot: the result has no repeats, does not contain it, and keeps every other member |
| BioSpec.BRelse | kernel/bio.c:134-149 | brelse panics exactly when the caller does not hold the slot's lock; otherwise the slot is unlocked with one reference fewer, and every other slot is unchanged |
| BioSpec.BRelseLastLists | kernel/bio.c:141-147 | when the last reference goes, the slot gets the ticks stamp and leaves its bucket's list; every other member of that list stays on it, and every other list is unchanged |
| BioSpec.BRelseLastValid | kernel/bio.c:141-147 | releasing the last reference preserves the cache invariant |
| BioSpec.BRelseSpec | kernel/bio.c:134-149 | brelse preserves the invariant; it leaves the lists alone while references remain; after the last one, the slot is stamped with ticks, is on no list, and a later lookup of its block misses |
| Bio.BCache.BRelse | kernel/bio.c:134-149 | the in-place brelse leaves the state the brelse function gives, or panics and leaves it unchanged; the invariant is kept |
| BioSpec.BPin | kernel/bio.c:151-156 | bpin adds one reference to the slot and changes nothing else |
| BioSpec.BUnpin | kernel/bio.c:158-163 | bunpin removes one reference from the slot and changes nothing else |
| BioSpec.PinValid | kernel/bio.c:151-163 | bpin preserves the invariant, and bunpin after bpin restores the original cache |
| BioSpec.UnpinValid | kernel/bio.c:158-163 | bunpin of a slot that keeps a reference preserves the invariant |
| Bio.BCache.BPin | kernel/bio.c:151-156 | the in-place bpin leaves the state the bpin function gives and keeps the invariant |
| Bio.BCache.BUnpin | kernel/bio.c:158-163 | the in-place bunpin leaves the state the bunpin function gives and keeps the invariant |
| BioSpec.StaleValidCopy | kernel/bio.c:89-94 | after the last brelse of a valid slot, a bread of its block recycles a lower free slot and reads the block again, leaving two valid slots for the same block in a state that satisfies the invariant |
| BioSpec.WriteReleaseReadRoundTrip | kernel/bio.c:110-149 | a payload written with bwrite and released with brelse is what the next bread of that block returns, whether the block stayed cached or is read back from the disk |
| KallocSpec.PgRoundUpSpec | kernel/kalloc.c:43 | PGROUNDUP gives the least page-aligned address at or above its argument |
| KallocSpec.FreePagesUpdate | kernel/kalloc.c:63-69 | replacing one free list changes the multiset of free pages by exactly that list's difference |
| KallocSpec.Cancel | kernel/kalloc.c:97-98 | multiset cancellation, used to show that the steal conserves pages |
| KallocSpec.ListPagesFree | kernel/kalloc.c:105-108 | every page on one CPU's list is a free page |
| KallocSpec.KFree | kernel/kalloc.c:52-72 | kfree panics exactly when the address is unaligned, below the kernel's end or at or above PHYSTOP; otherwise the page is pushed on the calling CPU's list and every other list is unchanged |
| KallocSpec.KFreeConserves | kernel/kalloc.c:52-72 | kfree keeps every free page a good address and adds exactly the freed page to the free pages |
| KallocSpec.KFreeKeepsDistinct | kernel/kalloc.c:63-69 | freeing a page that is not already free keeps every free page on at most one list, once |
| KallocSpec.KFreeDoubleFree | kernel/kalloc.c:57-69 | kfree does not detect a double free: freeing a page already free succeeds and leaves it on the lists twice |
| Kalloc.Kmem.KFree | kernel/kalloc.c:52-72 | the in-place kfree leaves the lists the kfree function gives, or panics and leaves them unchanged; the invariant is kept |
| KallocSpec.PagesSpec | kernel/kalloc.c:43-44 | the pages freerange visits are exactly the aligned addresses x with p <= x and x + PGSIZE <= hi, in ascending order |
| KallocSpec.FreeAll | kernel/kalloc.c:44-45 | freeing pages one by one keeps NCPU lists |
| KallocSpec.Reversed | kernel/kalloc.c:68-69 | pushing pages one by one leaves them in reverse order: the same pages, the same count, the k-th from the front being the k-th from the back of the input |
| KallocSpec.FreeAllSpec | kernel/kalloc.c:44-45 | the loop of kfree calls panics iff some page is a bad address; otherwise the calling CPU's list is the pages in reverse order ahead of its old contents, and every other list is unchanged |
| KallocSpec.FreeRange | kernel/kalloc.c:39-46 | freerange as kfree of each whole page from PGROUNDUP(lo) below hi on one CPU; it keeps NCPU lists and touches no other CPU's list |
| KallocSpec.FreeRangeSpec | kernel/kalloc.c:39-46 | freerange over a range between the kernel's end and PHYSTOP never panics, and it pushes exactly the whole pages of the range, in reverse order |
| Kalloc.Kmem.FreeRange | kernel/kalloc.c:39-46 | the in-place loop leaves the lists and panic flag the freerange function gives |
| KallocSpec.KInit | kernel/kalloc.c:28-37 | kinit as freerange(end, PHYSTOP) on the zeroed lists; every other CPU's list stays empty |
| KallocSpec.KInitPagesSpec | kernel/kalloc.c:36 | the pages kinit frees are exactly the aligned pages from PGROUNDUP(end) up to PHYSTOP; all are good addresses and none repeats |
| KallocSpec.KInitShape | kernel/kalloc.c:28-37 | kinit does not panic, and it leaves every page on the initialising CPU's list, in descending order, with every other list empty |
| KallocSpec.KInitDescending | kernel/kalloc.c:36-45 | after kinit the boot CPU's list is strictly decreasing: each page lies above the next, as freerange pushes ascending pages on the head |
| KallocSpec.OneListState | kernel/kalloc.c:28-37 | a state with one list holding distinct good pages satisfies the allocator invariant, and its free pages are those pages |
| KallocSpec.KInitSpec | kernel/kalloc.c:28-37 | after kinit the invariant holds, no page is free twice, other CPUs' lists are empty, and the free pages are exactly the whole pages between the kernel's end and PHYSTOP |
| Kalloc.Kmem.constructor | kernel/kalloc.c:28-37 | the new allocator holds exactly the kinit state and satisfies the invariant |
| KallocSpec.EmptyListsHaveNoPages | kernel/kalloc.c:31 | lists zeroed by the memset hold no free pages |
| KallocSpec.AscendingDistinct | kernel/kalloc.c:44 | an ascending sequence of pages has no repeats |
| KallocSpec.Victim | kernel/kalloc.c:85-90 | the search for a CPU to steal from: a CPU it returns is another CPU whose list has at least two pages |
| KallocSpec.VictimSpec | kernel/kalloc.c:85-103 | the victim search picks the lowest other CPU whose list has at least two pages; it picks none exactly when every other list has fewer than two |
| KallocSpec.Split | kernel/kalloc.c:91-98 | the steal: the victim keeps its first ceil(n/2) pages, the thief's list becomes the rest, the two together are the victim's old list, and no third list changes |
| Kalloc.SplitPoint | kernel/kalloc.c:91-96 | the slow/fast walk stops with left on the ceil(n/2)-th page, which always has a successor |
| KallocSpec.Refill | kernel/kalloc.c:84-104 | the refill step keeps NCPU lists |
| KallocSpec.Kalloc | kernel/kalloc.c:77-116 | kalloc keeps NCPU lists |
| KallocSpec.KallocLocal | kernel/kalloc.c:105-108 | with pages on its own list, kalloc pops that list's head and changes no other list |
| KallocSpec.KallocSteal | kernel/kalloc.c:84-108 | with an empty own list, kalloc takes from the first other list with at least two pages: the victim keeps its first ceil(n/2) pages, the returned page is the next, and the rest become the caller's list; no other list changes |
| KallocSpec.KallocFails | kernel/kalloc.c:84-116 | kalloc returns 0 iff its own list is empty and every other list has fewer than two pages, and then nothing changes; a list with fewer than two pages is never stolen from |
| KallocSpec.SingletonsStarve | kernel/kalloc.c:84-108 | for any calling CPU with an empty list, when every other CPU holds at most one page, kalloc returns 0 and changes nothing; fewer than NCPU pages are then free |
| KallocSpec.TwoSingletonLists | kernel/kalloc.c:90 | free pages can exist while kalloc fails: the configuration in which CPU 0 calls, CPUs 1 and 2 hold one good page each and every other list is empty satisfies the allocator invariant, has exactly those two pages free, and kalloc on CPU 0 returns 0 |
| KallocSpec.SplitConserves | kernel/kalloc.c:97-98 | the steal moves pages between two lists without losing or adding any |
| KallocSpec.RefillConserves | kernel/kalloc.c:84-104 | the refill step conserves the free pages |
| KallocSpec.KallocConserves | kernel/kalloc.c:77-116 | kalloc keeps the invariant, and a non-zero result was free, and the free pages lose exactly one copy of it: old free pages = new free pages + the result |
| KallocSpec.KallocKeepsDistinct | kernel/kalloc.c:77-116 | if no page was free twice, none is after kalloc, and the page returned is no longer on any list |
| Kalloc.Kmem.Kalloc | kernel/kalloc.c:77-116 | the in-place kalloc, with its victim loop and split, returns the page and leaves the lists the kalloc function gives; the invariant is kept |
| Xargs.LineLength | user/xargs.c:16-19 | the scan stops on the first newline or NUL, and no character before it is one |
| Xargs.ParseNextLine | user/xargs.c:7-26 | at a NUL the result is 0 and nothing moves; otherwise line holds the characters before the first newline or NUL followed by a NUL, the rest of line is untouched, the result is their count, and the cursor moves one past the terminator; an empty line gives 0 with the cursor advanced |
| Xargs.FillArgv | user/xargs.c:38-40 | xArgv[i] = argv[i + 1] for every i < argc - 1, and the other slots are untouched |
| Xargs.SetLineArg | user/xargs.c:44 | the line goes in slot argc - 1 and nothing else changes |
| Xargs.BuildExecArgs | user/xargs.c:38-44 | the first argc slots of the vector exec receives are argv[1..] followed by the line, and the slots after them are untouched |
| Find.FmtName | user/find.c:6-15 | the result is a suffix of the path without '/', preceded by '/' whenever it is not the whole path |
| Find.FmtNameUnique | user/find.c:6-15 | those properties determine the result: any start with no '/' after it and a '/' just before it (or at 0) is where fmtname's result starts |
| Find.FmtNameScan | user/find.c:12-14 | the backward pointer loop stops where the last component begins |
| Find.FmtNameNoSlash | user/find.c:6-15 | a path with no '/' is its own last component |
| Find.FmtNameTrailingSlash | user/find.c:6-15 | a path ending in '/' has an empty last component |
| Find.FmtNameOfChild | user/find.c:25 | the last component of dir + "/" + name is name when name has no '/' |
| Find.Printed | user/find.c:25-27 | find prints a path exactly when its last component equals the name sought; a name containing '/' or longer than the path never matches |
| Find.ChildPath | user/find.c:45-58 | the path find recurses on is the directory's path, a '/' and the entry's name; it strictly extends the directory's path |
| Find.CString | user/find.c:52-57 | the C string read from a buffer is its prefix before the first NUL, or the whole buffer when it has none |
| Find.ChildPathSpec | user/find.c:25-58 | the child path's last component is the entry's name, so the child is printed exactly when that name is the one sought |
| Find.Skipped | user/find.c:49-55 | the entries the loop passes over; only free slots and names of one or two characters can be among them |
| Find.SkipFilter | user/find.c:49-55 | the loop recurses on an entry exactly when its inode is non-zero and its child path's last component is neither "." nor ".." |
| Find.CStringPrefix | user/find.c:57 | a C string reads the same from any buffer that extends it past its NUL |
| Find.CStringConcat | user/find.c:45-57 | a NUL-free prefix followed by more characters reads as the prefix followed by the C string of the rest |
| Find.CStringAfterName | user/find.c:56-57 | the buffer holding the prefix, the name's DIRSIZ bytes and a NUL reads as the prefix followed by the name |
| Find.StartChildPath | user/find.c:45-47 | buf starts with the directory's path and a '/', p points just after the '/', and the rest of buf is untouched |
| Find.PutName | user/find.c:56-57 | the DIRSIZ name bytes go at p and a NUL after them, and the bytes before p are kept; read as a C string, buf is the prefix followed by the entry's name |
| Find.BuildChildPath | user/find.c:45-57 | read as a C string, buf holds the child path find recurses on: dir + "/" + name |

## Left out

- Locking and concurrency: the spin locks, the sleep locks, `push_off`/`pop_off` and races between CPUs are not modelled. Every routine runs atomically. A slot's `locked` flag records only whether the calling process holds its sleep lock, so a process never sleeps waiting for it.
- `brelse` edits the bucket list without holding the bucket's lock. Since there is no concurrency, the model does not capture that race.
- The LRU comment in `bget` is not what the code does. The code recycles the first unreferenced slot in array order, and so does the model. `lastusedtime` is written but never read.
- `virtio_disk_rw` is a read from or an update of a `Disk` map. A block never written reads as zeros. Disk errors and timing are not modelled.
- `ticks` is a parameter of `brelse`, and `cpuid()` is a parameter of `kfree` and `kalloc`.
- The `memset` junk fills in `kfree` and `kalloc`, and page contents in general, are not modelled. A page is its address.
- The `uint` and `uint64` widths are not modelled: addresses, block numbers and reference counts are unbounded naturals.
- BioSpec.BGet: requires that the caller hold the sleep lock of no slot caching the block (`NotHeld`). In bget a hit on such a slot calls acquiresleep on a lock the caller owns and never returns; the model does not capture that self-deadlock. The same requirement is on BioSpec.BRead, the hit and validity lemmas, Bio.BCache.BGet and Bio.BCache.BRead.
- BioSpec.Valid: at most one slot per block is promised only among referenced slots. brelse unlinks a released slot but keeps its valid payload and its name, and bget never looks at unlinked slots, so a later bread of that block can fill a second slot with it; BioSpec.StaleValidCopy exhibits this. At most one valid copy per block does not hold for this code.
- BioSpec.BPin: requires a referenced slot, which is how the log calls it.
- BioSpec.BUnpin: requires at least two references. bunpin never unlinks a slot, so a drop to zero would leave an unreferenced slot on its list, outside the invariant.
- Kalloc.Kmem.FreeRange: returns a flag where `kfree` would panic part-way. The lists then hold the pages freed before the bad one.
- xargs `main`: the `read` of standard input, `fork`, `exec`, `wait` and `exit` are not modelled. The model covers the line parsing and the argument vector that `exec` receives.
- Xargs.ParseNextLine: requires a newline or NUL at or after the cursor. `read` does not NUL-terminate `lines`, so a full 512-byte input has no terminator and the scan would run off the buffer.
- Xargs.ParseNextLine: `maxLen` is not consulted by the source either. Instead the model requires that `line` be long enough for the line and its NUL.
- Xargs.ParseNextLine: when the input ends at a NUL with no newline, the cursor moves past that NUL and the next call reads beyond the data. The model states where the cursor goes but not the following call.
- Xargs.BuildExecArgs: the slot after the line is not written, so the vector `exec` receives has no null terminator set by xargs itself. The model leaves that slot unchanged.
- Xargs.FillArgv, Xargs.BuildExecArgs: require that argv have at most MAXARG + 1 and MAXARG entries respectively, which xargs does not check; exec in the kernel accepts fewer than MAXARG arguments, so the command that started xargs meets them.
- Find.SkipFilter: states that a child's last component is never "." or "..". That find never revisits a directory also needs the file system to refuse hard links to directories, which is not part of this model.
- find's `open`, `fstat`, the directory `read` loop, the recursion and `printf` are not modelled. The model covers the name logic and the building of the child path.
- Find.BuildChildPath: requires that the path, a '/', DIRSIZ name bytes and a NUL fit in `buf`. The source does not check this. It holds because `open` rejects paths of MAXPATH (128) bytes or more; kernel/sysfile.c is not part of this model.
- Find.PutName: `de.name` of exactly DIRSIZ bytes, as `struct dirent` holds it.
- `user/primes.c` and `user/pingpong.c` are pipe and process exercises outside this model.
- Constants come from headers that are not part of this model: NBUF = 30 and NCPU = 8 (param.h), BSIZE = 1024 and DIRSIZ = 14 (fs.h), PGSIZE = 4096 (riscv.h), KERNBASE = 0x80000000 and PHYSTOP = KERNBASE + 128 MiB (memlayout.h), MAXARG = 32 (param.h).

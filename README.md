# A verified model of a tiered mmap allocator

`malloc.c` replaces the C allocator (`malloc`, `free`, `calloc`, `realloc`, plus
`get_stats`). It gets memory from `mmap` in blocks of three fixed sizes, called tiers:
little (16 KiB, at most 25 blocks), mid (1 MiB, at most 50) and large (32 MiB, at most 25).
Each tier keeps a list of its blocks, with a head pointer and a tail pointer. A block is
carved into regions, and every region starts with a 40-byte header:

- a free flag;
- the payload size;
- `next` and `prev` links;
- a magic number.

A request of `size` bytes works in four steps:

1. It is normalized: at least 256 bytes, rounded up to a multiple of 4.
2. A search looks for a free region of at least that size. It tries little, then mid, then
   large. It uses first fit or best fit, whichever was chosen at build time.
3. If the search finds nothing, a block is created in the first tier whose block size and
   quota allow it.
4. The chosen region is split when at least a header plus 256 bytes would be left over.

`free` checks the magic number and marks the region free. It then merges the region with a
free successor, and into a free predecessor. When the surviving region is alone in its
block, `free` calls `delete_block` to unlink that block from its tier and unmap it. The
model passes the block itself. The source passes an address 40 bytes into the block; see
"## Findings".

The model is one Dafny class, `Malloc.Allocator`. Its state is the allocator's global state:

- the region arena, a map from region ids to region records;
- the block records;
- the three tier lists and their tail pointers;
- the seven statistics counters;
- a supply of fresh ids that stand for addresses.

A ghost map `chains` gives each block's regions in address order. Each public entry point is
a method. Its contract ties the new state to a pure function of the old state:

- `AllocationOf` for the search-or-create step;
- `OutcomeOf` and `ReleasedFrom` for `free`.

Pure lemmas then prove what those functions mean:

- the search returns the first fit or the fit with least slack, in walk order;
- the tier chosen is the first open one;
- splits and merges keep every block exactly tiled by its regions;
- the counters agree with the arena.

The source has several places where its raw pointers go stale. The model states each one as
a lemma, and makes the condition under which the source is sound a precondition:

- `split_region` and the right merge of `free` do not update the following region's `prev`
  link;
- `delete_block`, given the true block, does not update the tier's tail pointer;
- a request within 64 bytes of a block size passes the tier test, but a new block's region is
  smaller than that.

Modules, bottom-up:

- `Wrappers`: `Option`.
- `Layout`: constants; the wrap-around of `size_t` and `int`; `ALIGN4`; size normalization;
  tier selection.
- `Regions`: the region record; a chain's well-formedness; split and absorb on a chain;
  stale-`prev` lemmas.
- `Arena`: well-formedness of the whole arena of blocks and chains, with the way split,
  absorb, block creation and block removal preserve it.
- `Lists`: the tier lists and counters, and their consistency with the block records.
- `Tiers`: unlinking a block from a tier list, and the stale tail pointer.
- `Fit`: the walk order of a tier, and first fit and best fit as folds over it.
- `Release`: the merge logic of `free` on values.
- `Malloc`: the allocator class and the specification functions of its steps.

## Model

| member | source | states |
|---|---|---|
| Layout.Align4 | malloc.c:24 | ALIGN4 gives a multiple of 4, at least its argument and less than 4 above it |
| Layout.Normalize | malloc.c:263-268 | the normalized size is the least multiple of 4 that is at least 256 and at least the request |
| Layout.SmallRequestsCost256 | malloc.c:263-264 | every request of 1 to 255 bytes is served as 256 bytes |
| Layout.AcceptedSizeFits | malloc.c:255-268 | a size whose `int` reading is not negative still fits in `size_t` after normalization |
| Layout.Int32 | malloc.c:272 | the `int` counter's value always lies in the 32-bit signed range |
| Layout.Int32Wraps | malloc.c:272 | the `int` reading differs from the true sum by a multiple of 2^32, and equals it when the sum is in range |
| Layout.WrapSub | malloc.c:287 | `size_t` subtraction: the true difference when that is not negative, otherwise the difference plus 2^64 |
| Layout.WrapMul | malloc.c:403 | `size_t` multiplication: the true product when it fits, otherwise the product reduced modulo 2^64 |
| Layout.SelectTierIsFirstOpenTier | malloc.c:229-249 | create_block's choice is a tier whose block size holds the request and whose counter is below its cap; no earlier tier qualifies; it answers none exactly when no tier qualifies |
| Layout.UndersizedRegionWraps | malloc.c:287-289 | a request that passes the tier test but exceeds the new region's payload makes the slack test's subtraction wrap to more than the block size, so split_region would be called |
| Layout.UndersizedWindows | malloc.c:229-247 | such undersized requests lie within 64 bytes below one of the three block sizes |
| Layout.TierOfSpan | malloc.c:297-307 | the switch on payload plus headers names tier t exactly when the payload is t's first-region payload |
| Regions.SplitKeepsChain | malloc.c:153-166 | splitting a region keeps its block's chain well-formed and exactly tiling the block, with the new region right after the split one |
| Regions.SplitStalesPrev | malloc.c:159-162 | after a split, every `prev` link in the chain is still correct exactly when the split region was the last one, because the successor's `prev` is not updated |
| Regions.AbsorbKeepsChain | malloc.c:370-381 | a merge keeps the chain well-formed and tiling the block, keeps the survivor's place, flag and `prev`, and keeps both payloads' bytes on either side of the old header |
| Regions.AbsorbStalesPrev | malloc.c:370-374 | after a merge, the region after the absorbed one still points back at the absorbed region, which no longer exists, so `prev` links stay correct exactly when nothing follows |
| Regions.SpanIsBlockPayload | malloc.c:168-185 | a well-formed chain's payloads and headers add up to the block size minus the block header |
| Regions.SoleRegionSize | malloc.c:389-392 | a region alone in its block has the first-region payload of the block's tier |
| Regions.HeadersFromFirst | malloc.c:173-174 | no region header of a well-formed chain starts before the first region's, which sits after a block header and a region header |
| Regions.FirstRegionChain | malloc.c:168-185 | create_region_in_new_block's region forms a well-formed one-region chain spanning the block |
| Arena.ArenaSplit | malloc.c:153-166 | splitting any live region keeps the whole arena well-formed |
| Arena.ArenaAbsorb | malloc.c:370-381 | merging two neighbours keeps the whole arena well-formed |
| Arena.ArenaAddBlock | malloc.c:187-220 | adding a mapped block with its first region keeps the arena well-formed |
| Arena.ArenaRemoveBlock | malloc.c:346 | removing a block whose chain has one region, together with that region, keeps the arena well-formed |
| Arena.Locate | malloc.c:34-40 | every live region belongs to one block and sits in that block's chain |
| Lists.ListsAppend | malloc.c:204-214 | appending a new block to its tier's list keeps all three lists consistent with the block records and counters |
| Lists.ListsUnlink | malloc.c:315-345 | unlinking a block from its tier's list and decrementing that tier's counter keeps the lists consistent |
| Lists.ListsBump | malloc.c:229-247 | raising a tier counter below its cap keeps the lists consistent |
| Tiers.UnlinkRemoves | malloc.c:315-331 | each of delete_block's four topologies removes exactly the block from the list |
| Tiers.UnlinkDistinct | malloc.c:315-331 | the list after unlinking has no repeats and holds every other block of the list |
| Tiers.UnlinkStalesTail | malloc.c:315-331 | the tail pointer stays correct after unlinking exactly when the block was not the last one; when it was, the tail names a block no longer listed |
| Tiers.AsWrittenLosesBlocks | malloc.c:314-315 | taking the never-written links at the address free passes as null, the sole-node branch loses every other block of the list, where unlinking by position keeps them all |
| Fit.FirstFitIsFirst | malloc.c:90-106 | first fit returns the earliest region in walk order that is free and large enough, and nothing exactly when there is none |
| Fit.FirstFitSticky | malloc.c:94-104 | once a prefix of the walk has a fit, the rest of the walk does not change the answer |
| Fit.BestScanIsBest | malloc.c:62-88 | best fit returns a fitting region with slack below the limit, no fitting region has less slack, and earlier fits have strictly more; it returns nothing exactly when no fit beats the limit |
| Fit.BestFitIsLeastSlack | malloc.c:62-88 | every fitting region with slack below the limit guarantees an answer with no more slack than it |
| Release.ReleaseMerges | malloc.c:365-387 | free's mark and merges have the outcome OutcomeOf names: the survivor is free with the merged payload in the same block, exactly the absorbed regions are gone, every other region is still there unchanged, and the survivor has no neighbours exactly when the outcome says it is alone |
| Release.LiveRegionTagged | malloc.c:356-360 | every live region carries the magic number free checks |
| Release.SoleChain | malloc.c:383-392 | a region with neither neighbour is the whole chain of its block and its first region |
| Release.DeleteAddressInGap | malloc.c:383-392 | for a block's only region, the address free hands delete_block is 40 bytes into the block, and the link words read there lie before every region header of that block |
| Malloc.Pick | malloc.c:62-106 | a tier's search returns, if anything, a live, free region large enough for the request |
| Malloc.Carve | malloc.c:286-289 | the region returned holds the request and less than a split's worth more; a split happens exactly when the slack reaches a header plus 256 bytes, and leaves a free rest |
| Malloc.Filled | malloc.c:404-405 | writing bytes at a region's start changes only that region's payload prefix |
| Malloc.SoleRegionTier | malloc.c:389-392 | the sole region of a block is its first one, and its payload names the block's tier, so delete_block's switch finds it |
| Malloc.AllocationOf | malloc.c:275-289 | malloc's search-or-create step returns a used region holding the request with less than a split's worth of slack, which was free before or is fresh; otherwise ENOMEM for a missing tier or a failed mapping, with the regions unchanged |
| Malloc.Allocator.constructor | malloc.c:44-60 | the initial state: empty arena and lists, no tails, all counters zero |
| Malloc.Allocator.ScanFirstFit | malloc.c:90-106 | the double loop over blocks and their regions returns first fit over the tier's walk |
| Malloc.Allocator.ScanBlockFirstFit | malloc.c:95-103 | the inner loop over one block's regions extends the first fit of the walk so far by that block's chain |
| Malloc.Allocator.FindRegionFirstFit | malloc.c:90-106 | find_region_in_block_first_fit returns first fit over the tier's walk, and marks exactly that region used |
| Malloc.Allocator.ScanBestFit | malloc.c:62-83 | the double loop returns best fit over the tier's walk, starting from the block size minus the request as the slack limit |
| Malloc.Allocator.ScanBlockBestFit | malloc.c:73-81 | the inner loop over one block's regions extends the best-fit scan by that block's chain |
| Malloc.Allocator.FindRegionBestFit | malloc.c:62-88 | find_region_in_block_best_fit returns best fit over the tier's walk, and marks exactly that region used |
| Malloc.Allocator.FindFreeRegion | malloc.c:111-151 | find_free_region returns the policy's cascade result (little, mid, large, each only below its block size), marks only it used, and keeps the invariant |
| Malloc.Allocator.SplitRegion | malloc.c:153-166 | split_region on the live arena gives the Split of the old regions, one more region counted, and the invariant kept |
| Malloc.Allocator.UpdateBlockList | malloc.c:294-308 | the list whose tier the payload-plus-headers switch names is replaced, and the others kept; no tier means no change |
| Malloc.Allocator.DeleteBlock | malloc.c:311-347 | delete_block removes the block and its sole region, unlinks the block at its list position, decrements the region count and only its tier's counter, and leaves the tails untouched |
| Malloc.Allocator.CreateBlockWithSize | malloc.c:187-220 | a failed mapping changes nothing; a successful one appends a fresh block after the tail, which it becomes, with one used, neighbourless region covering it, which is returned |
| Malloc.Allocator.CreateBlock | malloc.c:222-250 | the first open tier has its counter raised before the mapping, so also when the mapping fails, and receives the new block; with no open tier nothing changes and the answer is none |
| Malloc.Allocator.Free | malloc.c:350-394 | free counts one call; a handle without a live region changes nothing else; otherwise the merges of OutcomeOf happen, the region count drops by one per merge, a survivor alone in its block is dropped with it, and every other region is kept unchanged |
| Malloc.Allocator.ReleaseRegion | malloc.c:363-393 | after the magic check: the merges and sole-block release as ReleasedFrom states, with the invariant kept |
| Malloc.Allocator.MergeInArena | malloc.c:365-381 | marking and merging leave the survivor OutcomeOf names, free, with the merged payload; exactly the absorbed regions are gone, the others are unchanged, and there is one region fewer per merge (MergedFrom) |
| Malloc.Allocator.ReleaseIfSole | malloc.c:383-393 | a survivor with no neighbours is removed together with its block, as Dropped describes; otherwise nothing changes |
| Malloc.Allocator.Malloc | malloc.c:252-292 | a negative `int` size gives ENOMEM and no change; otherwise the call is counted, the normalized size is added to the `int` total, and the reply, regions and roster are exactly what AllocationOf gives |
| Malloc.Allocator.Calloc | malloc.c:396-410 | a negative factor or product gives ENOMEM and no change; otherwise malloc of the wrapped product, with that many zero bytes at the start of the region returned |
| Malloc.Allocator.ZeroedMalloc | malloc.c:403-409 | a negative product gives ENOMEM and no change; otherwise the call is counted and the reply and roster are those of AllocationOf, and the regions are its regions with the product's bytes zeroed at the start of the region returned |
| Malloc.Allocator.Realloc | malloc.c:413-439 | negative size: ENOMEM, no change; no handle: malloc; a larger region: the same handle, carved at the raw size; otherwise malloc plus a copy of the old payload; size zero: free and NULL |
| Malloc.Allocator.Resize | malloc.c:422-435 | a region larger than the size is kept and carved at the size as given; otherwise the new allocation begins with the old payload, and the old region is left as it was |
| Malloc.Allocator.GetStats | malloc.c:441-451 | the record holds the seven counters; the region count is the number of live regions, and each tier counter lies between its list's length and its cap |

## Left out

- `mmap`, `munmap` and `perror`: a mapping's success is the parameter `mapOk`, and unmapping
  is the removal of the block and its region from the records. The messages are not modelled.
- `errno`: the reply `Enomem(why)` stands for NULL with `errno` set to ENOMEM, and `why`
  records the cause.
- Addresses and pointer arithmetic: regions and blocks are ids into maps. `REGION2PTR`,
  `PTR2REGION` and the magic read 8 bytes before the pointer become a look-up in the region
  map. The model treats a handle that names no live region as one whose magic test fails.
  In the source, a stale handle into a region that a merge absorbed or whose block was
  released can still carry the tag. Such a free then reaches the assert on the free flag and
  aborts; that path is not modelled.
- The bytes of a header that a merge buries inside a payload: the model writes a fixed
  40-byte placeholder there, and no contract says anything about those bytes.
- Malloc.Allocator.Free: the source only asserts that the region is in use; the model makes
  that a precondition. It also requires the freed region's `prev` link to name its true
  predecessor. The source does not keep that link up to date after a split or a merge
  (Regions.SplitStalesPrev, Regions.AbsorbStalesPrev), and then it would read a stale
  header. Those stale states are not modelled.
- Malloc.Allocator.Malloc: requires ServeSafe for the normalized size. A search that finds a
  region (Hits) needs nothing more. A search that misses needs CreateSafe, which means two
  things. The tier create_block would open must hold the request in its new region; otherwise
  the slack test wraps around (Layout.UndersizedRegionWraps). And that tier's tail pointer must
  name its last block. The model's delete_block, which unlinks by true position, leaves the
  tail naming the removed block after removing the last of several (Tiers.UnlinkStalesTail).
  As written, the source never reaches that branch from free (see "## Findings"). The same
  precondition is on Calloc and Realloc.
- Malloc.Allocator.DeleteBlock: the model unlinks the block at its true list position and
  drops it with its region. As written, free passes an address 40 bytes into the block. There
  delete_block reads null links and always takes the sole-node branch, which empties the tier
  list; the munmap of that unaligned address fails and nothing is unmapped. Release.DeleteAddressInGap
  proves the offset. Tiers.UnlinkAsWritten then takes the never-written link words there to be
  zero, as a fresh anonymous mapping provides them; the model assumes this rather than deriving
  it. The class does not behave that way.
- A full first-region payload runs 40 bytes past the end of its block's mapping, because the
  first region sits after a block header and a region header (Layout.FIRST_REGION_AT). The
  model keeps the offsets but has no page boundaries, so it does not model the fault that a
  write into those bytes can cause.
- Malloc.Allocator.Realloc: size zero requires a handle, because the source calls `free(NULL)`,
  which reads memory before address zero. It also inherits Free's requirements for a live
  handle: the region in use and its `prev` link true (see the Malloc.Allocator.Free line). A non-zero size with a handle requires a live
  region, since the source reads its header without a check.
- Malloc.Allocator.Realloc: when growing and malloc fails, the source copies into NULL. The
  model returns the failure and copies nothing.
- Malloc.Allocator.Realloc: the old region is not freed after a move, as in the source, so it
  stays used.
- The counters `amount_of_mallocs`, `amount_of_frees`, `amount_of_regions` and the tier
  counters are unbounded integers: each would need about 2^31 calls before the C `int` wraps.
  Only `requested_memory`, which grows by at least 256 per call, wraps as an `int` does
  (Layout.Int32).
- `create_region_in_new_block` is part of AddBlockInArena, which adds the block and its
  first region in one step.
- The build-time choice between FIRST_FIT and BEST_FIT is the constructor's `policy`
  argument. With neither defined, `find_free_region` always misses (NoPolicy).
- Frame facts such as "`frees` is unchanged by malloc" follow from the `modifies` clauses and
  are not restated in every contract.
- `malloc.test.c` and the `printfmt` helpers are not part of this model.

## Findings

| source | as written | input that shows it | evidently intended | confidence | as-written member | corrected member |
|---|---|---|---|---|---|---|
| malloc.c:383-392 | free passes its region's address minus `sizeof(struct block)` to delete_block. The first region sits 64 bytes into the block, so delete_block gets block + 40 and reads never-written `next` and `previous` there, which a fresh anonymous mapping leaves zero | `malloc(16000)` twice, which opens two little blocks, then `free` of the first pointer: its region merges with the free rest and is alone in its block, the little list becomes empty, and the second block is lost to every later search | delete_block gets the block, and unlinks it at its position in the list | high, not executed | Tiers.AsWrittenLosesBlocks | Tiers.UnlinkRemoves |

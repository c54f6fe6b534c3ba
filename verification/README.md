# A verified model of charsiu

charsiu runs language models on an NPU. The device sits behind ioctls, but much of what makes the
runtime right is plain index arithmetic, state machines and protocols on the host. This project
models that host side in Dafny and proves what the source's comments claim about it:

- **the worker pool** (`ThreadPool`): every interleaving of the workers and the master, over any
  number of jobs, processes each row once, and a job's result is the serial one;
- **speculative decoding** (`Network`, `Speculation`): whatever is drafted and whatever is refused,
  the committed tokens are the plain greedy loop's and the cache is that of the committed text;
- **the fp16 group unit** (`Fp16Plan`, `RegStream`, `Sentinel`, `Fp16Unit`, `FpPack`): the plan of
  the shared buffers, the register stream and its patch, the two caches, the submit, wait, hold and
  release protocol with its early sentinels, and the packing of the inputs; and the two-unit ring
  that drives it (`AttnRing`, over the protocol in `UnitProtocol`);
- **layouts and tilings** (`AccIndex`, `GroupLayout`, `KSlice`, `RowChunks`, `KvLadder`): bijections,
  rigid moves and bounds;
- **blocked kernels** (`Floats`, `PvKernel`, `QkKernel`, `BatchMatmul`, `BlockAttention`): tiled loops
  against the simple loops they replace, over a float type with no laws, so that equal results mean
  the same operations in the same order;
- **caches and lookups** (`ReuseKeys`, `Vocabulary`, `Tokenizer`): a key protocol over runs, an
  open-addressing index against a linear scan, and byte pair encoding as a normal form with a
  round trip.

`IndexArith` holds the division and rounding facts the rest uses.

The code that works step by step is modelled by classes and methods with the source's fields and
loops; the pool, whose steps interleave, is a state machine of atomic steps. Environment switches
are at their defaults or are parameters. What the model takes from the device is a parameter of the
method that meets it: whether a submit is taken, what a job leaves in the output buffer, where a
new buffer lands, whether a batch is refused and at which layer.

## What the code does not do

Eight promises do not hold as written. Each has a concrete instance, and the exact condition
under which the code keeps it.

- `src/llama.c:876-880` says every range handed out starts on the grain. The dynamic split does
  (`DynamicRangesOnGrain`); the static split does exactly when its share is a multiple of the grain
  or is the whole job (`StaticSharesOnGrain`). Ten rows over four workers in grains of four do not
  (`StaticShareOffGrain`).
- `charsiu_acc_width_ok` is exact for the wide read order (`WideExact`). The default order is also a
  bijection at three rows, which it refuses (`DefaultExact`).
- `llama_spec_step` leaves the cache ahead of the committed text when the caller's buffer is smaller
  than what the pass produced: a pass is followed by a usable state exactly when it accepts fewer
  drafts than `max_out` (`Committed` in `Spec.Step`), which every pass does exactly when `max_out > k`
  (`MaxOutIsTight`). `PassOverruns` runs one that does not. The caller's sixteen is enough.
- Early sentinels outlive the buffer they were written in: `LostSentinels` runs a group that relies on
  them after `want` has replaced the buffer. Without a single call in between they are there exactly
  when no reallocation happened (`Unit.GroupSubmit`), which a caller can tell from the sizes before
  it submits; a single call between leaves them exactly when its answer is silent in the first words
  of the rows it covers (`Unit.Single`).
- The attention groups are a partition of the heads exactly when the last one starts inside them
  (`GroupsPartition`). Nine heads in four groups leave an empty group, and five in four run past the
  heads (`NotEveryCount`). Two groups always work (`TwoGroups`).
- A follower that names its caller's previous input reads stale bytes if that call was a leader
  refused before it dropped the keys (`RefusedLeader`). A caller can tell from the calls alone: every
  device reads fresh bytes if no leader, refused or not, has come since the key of each device that
  hits was written, and, for inputs that pack to different bytes, only then (`CurrentExactly`,
  `Npu.Call`). A miss in between recovers (`MissRecovers`), and `charsiu_pool_rowsn`, which stops at
  a failed leader, never meets it (`RowsN`).
- A batched matmul asks only its first activation whether it is quantised; the product is one
  matrix-vector product an activation exactly when the two kernels agree wherever a batch mixes
  quantised and not (`MatmulIsMatvecs`), and for all weights and operations exactly when no batch
  does (`KernelsAgree`). `MixedBatch` runs one that does.
- The row limit of a chunk is worked out from K and KMAX, so where the last K slice absorbs a
  remainder its surface fits exactly when that slice's does (`AbsorbedExactly`), and it need not
  (`AbsorbedOverruns`).

## Model

| member | source | states |
|---|---|---|
| ThreadPool.StepKeepsInv | src/llama.c:394-459 | Every atomic step of a worker or the master keeps the phase, counting, coverage and grain invariant |
| ThreadPool.RunsKeepInv | src/llama.c:418-459 | So does every finite interleaving of any number of workers over any sequence of jobs |
| ThreadPool.ReturnIsSerial | src/llama.c:851-868 | When the master has returned, every row of the job was processed exactly once and the output is the serial loop's |
| ThreadPool.NoReaderWhileArming | src/llama.c:394-405 | No worker is inside the part that reads the job's fields when the master rewrites them |
| ThreadPool.DynamicRangesOnGrain | src/llama.c:876-885 | In the dynamic split every range starts on the grain and all but the last are multiples of it |
| ThreadPool.ChunkIs | src/llama.c:394-416 | The dynamic chunk is the least multiple of the grain that is a quarter of a worker's even share, or one row, or more |
| ThreadPool.StaticSharesOnGrain | src/llama.c:444-452 | In the static split that holds exactly when the share is a multiple of the grain or is the whole job |
| ThreadPool.ShareIs | src/llama.c:444-452 | A static share is the even share rounded up, in the workers' order, cut where the rows end |
| ThreadPool.StaticShareOffGrain | src/llama.c:444-452 | Ten rows over four workers in grains of four: the second worker starts at row three |
| ThreadPool.NeverStuck | src/llama.c:426-434 | While a job is out, some step is enabled that needs no spurious wakeup: no wakeup is lost |
| ThreadPool.StepsLeftDecreases | src/llama.c:436-457 | Every such step brings the job nearer its end, by a measure over all workers |
| ThreadPool.JobReturns | src/llama.c:858-868 | So from every state of a running job there is a bounded run after which it has returned |
| ThreadPool.EveryRunReturns | src/llama.c:858-868 | And every run of as many steps as the measure counts, none of them a spurious wakeup, has returned |
| Network.Net.Causal | src/llama.c:8985-8999 | What a layer computes at a position depends only on the tokens up to it |
| Network.Net.EachNextIsGreedy | src/llama.c:9648-9735 | Tokens that are each the model's next token are a greedy run |
| Speculation.State.Forward | src/llama.c:8985-8999 | One row returns the model's own next token and leaves a cache that holds the longer prefix, or refuses a full context |
| Speculation.State.BatchLayers | src/llama.c:8126-8162 | A batch, layer by layer, computes for every row what the row loop computes, and a refusal part way leaves the live prefix intact |
| Speculation.State.VerifyBatch | src/llama.c:8956-8971 | Row r's pick is the model's next token after the prefix and the first r + 1 rows; the cache then holds them all |
| Speculation.Spec.Draft | src/llama.c:9612-9646 | A draft is what followed the newest earlier occurrence of the longest repeated n-gram, or nothing if none repeats; as a control it is k tokens that depend on the length of the history alone |
| Speculation.Spec.Verify | src/llama.c:9670-9696 | The padding row and stale rows never reach a pick that is used |
| Speculation.Spec.Accept | src/llama.c:9697-9717 | Exactly the longest agreeing prefix of the drafts is accepted, with the model's own token after it |
| Speculation.Spec.Step | src/llama.c:9648-9735 | Any pass, plain, speculative or refused, commits at least one token, only greedy ones, accepts what the model agrees with of the drafts looked up in the text, and leaves a usable cache exactly when max_out took all of them |
| Speculation.Turn | src/llama.c:9648-9735 | With the caller's sixteen tokens every turn continues the greedy text and can be followed by another |
| Speculation.Generate | src/llama.c:9648-9735 | Over any run of turns, refused or not, the text is what the plain greedy loop makes of the prompt |
| Speculation.AgreedUnique | src/llama.c:9697-9705 | The number of accepted drafts is the one number that agrees up to it and not past it |
| Speculation.MoreIsGreedy | src/llama.c:9706-9717 | Accepted drafts and the token after them extend the text greedily |
| Speculation.ReadyExactly | src/llama.c:9712-9722 | After rolling the position back the cache holds the committed text without its last token exactly when the caller's buffer took every token |
| Speculation.MaxOutIsTight | src/llama.c:9706-9722 | max_out > k is exactly what makes every pass safe, for every model |
| Speculation.PassOverruns | src/llama.c:9648-9735 | For every k and every max_out up to k, a pass with looked up drafts that leaves the cache ahead of the text |
| AccIndex.EvenIsBijective | src/job.c:476-576 | At every even width both read orders map rows and channels one to one onto the surface |
| AccIndex.QuadsAreConsecutive | src/job.c:476-576 | An aligned quad of channels is four consecutive slots, at every width |
| AccIndex.WideSteps | src/job.c:561-571 | The wide order, step by step at every even width: row 2i + 1 is 4 slots past row 2i, row 2i + 2 is 8 past it, and channel c + 16 of a group half a group of slots past c |
| AccIndex.DefaultSteps | src/job.c:572-576 | The default order: the next row of a half is 8 slots on, the row half the width further 32 for each row of a half, and channel c + 16 is 4 on |
| AccIndex.NextChannels | src/job.c:476-576 | Both orders start at slot 0; four channels on within a half group is 8 slots for each row of a half, and 32 channels on is 32 slots for each row |
| AccIndex.Flat | src/job.c:482-483 | Below two rows the surface is read in channel order |
| AccIndex.OddWideCollides | src/job.c:476-576 | At an odd width the wide order puts the last row's channel 0 where row 0's channel 4 is |
| AccIndex.WideExact | src/job.c:603-606 | The width check is right for the wide order: it is a bijection exactly when the check passes |
| AccIndex.DefaultExact | src/job.c:603-606 | The default order is a bijection exactly when the width is even or three |
| AccIndex.OddDefaultOverruns | src/job.c:476-576 | At an odd width past three the default order leaves the surface |
| Vocabulary.IndexOfIsLeast | src/clip.c:119-132 | The linear scan's answer is the least index with that spelling, and only that |
| Vocabulary.Table.constructor | src/clip.c:98-117 | The index is built with every word placed on its probe path and a slot left free |
| Vocabulary.Table.Lookup | src/clip.c:119-132 | A lookup ends, and answers what the linear scan would, with wraparound and duplicates |
| Vocabulary.FoundIsLeast | src/clip.c:108-128 | The first slot on a probe path that carries the word is its least index |
| Vocabulary.HasEmpty | src/clip.c:98-107 | A table at twice the vocabulary always has an empty slot, so a probe ends |
| Tokenizer.ByteToPiece | src/clip.c:322-345 | The piece of a byte is its code point in the printable alphabet, in UTF-8 |
| Tokenizer.CodePointInjective | src/clip.c:322-336 | No two bytes share a code point |
| Tokenizer.CodePointIs | src/clip.c:322-336 | A printable byte is its own code point; the others are numbered from 256 in byte order |
| Tokenizer.SpellingInjective | src/clip.c:322-362 | No two words have the same spelling as pieces |
| Tokenizer.SymbolsAre | src/clip.c:363-376 | A word starts as the pieces of its bytes, of the first 263 if it is longer, the end mark after the last |
| Tokenizer.BestIsBest | src/clip.c:378-400 | A merge picks the leftmost of the pairs of lowest index that fit, and none exactly when no pair does |
| Tokenizer.NoneLeft | src/clip.c:378-400 | When merging ends no two neighbours make an entry of fewer than 72 bytes |
| Tokenizer.MergesFirst | src/clip.c:378-410 | While any do, the next merge is of the entry that comes first in the vocabulary |
| Tokenizer.BpeKeepsText | src/clip.c:378-410 | Merging keeps the text the symbols spell |
| Tokenizer.BpeIsNormal | src/clip.c:378-410 | It ends with no pair left to merge |
| Tokenizer.BpeKeepsKnown | src/clip.c:378-419 | Symbols in the vocabulary stay in it |
| Tokenizer.WordRoundTrip | src/clip.c:363-419 | When the base pieces are in the vocabulary, concatenating the entries of a word's ids gives the word and its end marker |
| Tokenizer.WordIdsInjective | src/clip.c:363-419 | So two words never have the same ids |
| Tokenizer.Word.FindBest | src/clip.c:378-400 | The scan over the symbols finds that pair through the hash index |
| Tokenizer.Word.MergeAll | src/clip.c:378-410 | The array of symbols, merged and shifted in place, ends as the normal form |
| Tokenizer.BpeWord | src/clip.c:363-419 | A word's ids land in the buffer at the offset, cut at max, and nothing before or after them is written |
| Tokenizer.WordsCoverText | src/clip.c:441-497 | The words are the text without its spaces, in order |
| Tokenizer.LowerIs | src/clip.c:441-447 | Only the capital letters change, each to the letter 32 above it |
| Tokenizer.ContractionIs | src/clip.c:427-472 | 's 't 'm 'd are words of two bytes, 're 've 'll of three, and nothing else is a contraction |
| Tokenizer.WordIs | src/clip.c:473-492 | Any other word is all the letters that follow a letter, one digit, or all up to the next blank, letter or digit, 255 bytes at most |
| Tokenizer.RunStops | src/clip.c:473-492 | A run is as long as it can be |
| Tokenizer.Tokenize | src/clip.c:424-501 | The ids are the start mark, the words' ids as far as they fit, and the end mark; nothing after them is written |
| Fp16Plan.MakePlan | src/fp16plan.h:70-141 | A plan is made exactly for the lists the unit accepts, with every region sized, placed and shared as promised |
| Fp16Plan.PlanIsSafe | src/fp16plan.h:70-141 | Weights, inputs and outputs never overlap and stay inside their totals; two ops share coefficients exactly when n and size agree; an owned weight takes no room |
| Fp16Plan.PlaceCoefs | src/fp16plan.h:107-130 | A coefficient region is found for a known n and size or made for a new pair |
| RegStream.OneWeightWord | src/job.c:1090-2132 | The weight register is written once, every other word is the same for every weight address, and the stream fits its slot |
| RegStream.StreamPrograms | src/job.c:1090-2132 | Decoded word by word: the input, output, weight and coefficient addresses, the rows, the channels and the depths each stand in the register they belong in, and no other word of that register says otherwise |
| RegStream.PatchIsEmit | src/job.c:1074-1088 | Patching a stream is emitting it for the other address, with exactly one word hit |
| RegStream.PatchWeightAddr | src/job.c:1074-1088 | The words of the slot that name the weight register, and no others, are rewritten, and counted |
| RegStream.EmitJob | src/job.c:1090-2132 | The emitter writes the stream into its slot, where the words then carry the job's own addresses, rows, channels and depth in their registers, or reports that it would not fit and leaves the rest alone |
| Sentinel.PoisonRows | src/sentinel.h:31-39 | Afterwards every row's first word is the sentinel and every other word is what it was |
| Sentinel.PoisonVerdict | src/sentinel.h:46-58 | The verdict is the count of sentinels left, and fails exactly when all are |
| Sentinel.VerdictIsExact | src/sentinel.h:46-58 | Over a poisoned surface the count is exactly the number of rows the job did not write |
| Sentinel.UnwrittenCounts | src/sentinel.h:46-54 | The count is the rows whose first word, at offset plus row times pitch, still is the sentinel |
| Sentinel.PoisonMatches | src/sentinel.h:75-92 | The early sentinels serve exactly a nonempty group of the same offsets, rows and widths |
| Fp16Unit.Unit.Want | src/npufp16.c:154-188 | Every size becomes the larger of what it was and what is asked; a growth invalidates both caches and takes the sentinels away, early ones and those of a group in flight, and nothing changes otherwise |
| Fp16Unit.Unit.EnsureCoefs | src/npufp16.c:1163-1202 | Reused or rebuilt, every coefficient region then holds what a fresh build would put there |
| Fp16Unit.Unit.AllCovered | src/npufp16.c:1178-1192 | Building once a region leaves none out: each region is some op's |
| Fp16Unit.Unit.PatchStreams | src/npufp16.c:1231-1261 | Where only weights moved, the patched slots are the emitter's for the new addresses, and patching is never given up |
| Fp16Unit.PatchedSlot | src/npufp16.c:1231-1261 | A patched slot is the other address's stream and exactly one word is hit, so the give-up path is never taken |
| Fp16Unit.Unit.EnsureStreams | src/npufp16.c:1204-1291 | Reused, patched or rebuilt, every slot then holds exactly what the emitter would write now; nothing is emitted afresh exactly when the cache is on, no buffer was replaced and the cached slots differ in their weights alone, and each group is counted on its side |
| Fp16Unit.Unit.Prepare | src/npufp16.c:1140-1291 | A planned group finds its streams and coefficients ready, whatever ran before |
| Fp16Unit.Unit.GroupSubmit | src/npufp16.c:948-1397 | A group is in flight exactly when it is accepted, runnable and taken; then each op's job points at the place its answer is read from, no two answers overlap, its streams and coefficients are fresh, its streams kept from the last group exactly when no buffer grew and only weights differ, and, unless a single call intervened, its sentinels are there exactly when no reallocation came after they were left early |
| Fp16Unit.Unit.SubmittedPlaced | src/npufp16.c:1124-1144 | The words of each op's slot name its own input, weight and coefficients, its own extents, and the place its answer is read from, four bytes a word past the output; one op's answer ends before the next begins |
| Fp16Unit.TakesExactly | src/npufp16.c:988-1030 | A list is taken exactly if it is one to 64 ops, each with an input, a weight, a row, 32 of K and 32 channels, and a weight the caller owns has the op's own K and its channels, or more of them if the op's are whole sixteens |
| Fp16Unit.Unit.RoomForAll | src/npufp16.c:1031-1034 | Each op's weight, input, coefficients and stream slot lie inside their buffers |
| Fp16Unit.GroupAsks | src/npufp16.c:1031-1034 | A group asks each buffer for a page past the end of its last region, and the registers for a page an op and one more |
| Fp16Unit.Unit.GroupWait | src/npufp16.c:1404-1460 | Each op's unwritten count is exactly the rows its job did not write; the call fails exactly when some op wrote nothing; the buffer is held exactly when some answer is lent |
| Fp16Unit.Unit.OutW | src/npufp16.c:1492-1497 | An answer's place is given out exactly while it is held, and lies inside the buffer |
| Fp16Unit.Unit.PoisonAndRelease | src/npufp16.c:1545-1565 | The release leaves every row's sentinel behind and changes no word that is not the first of a row |
| Fp16Unit.Unit.Drain | src/npufp16.c:1500-1510 | A group nobody reads is waited out and leaves nothing held or promised |
| Fp16Unit.Unit.Release | src/npufp16.c:1512-1519 | A release ends the hold; sentinels left earlier stay promised only if nothing was held |
| Fp16Unit.Unit.Reserve | src/npufp16.c:936-946 | Whatever is in flight, reserving makes room exactly for lists the plan accepts and touches nothing else but what a growth takes away |
| Fp16Unit.Unit.Single | src/npufp16.c:753-862 | Whatever is in flight, a single call submits one job at the start of the output buffer with its own rows, channels and depth, and drops both caches; early sentinels survive it exactly when its answer is silent in the first words of the rows it covers |
| Fp16Unit.CountsExact | src/npufp16.c:1426-1436 | Over poisoned outputs every count the wait reports is exact |
| Fp16Unit.LostSentinels | src/npufp16.c:1034-1056 | A run of two groups, the second with the same outputs and a larger weight: it goes out relying on early sentinels that are gone |
| Fp16Unit.LeaveSentinels | src/npufp16.c:1545-1565 | A group submitted, waited for, reduced over in place and released leaves its sentinels for the next |
| UnitKeepsProtocol.Submit | src/npufp16.c:948-1397 | The unit submits as the protocol the ring relies on says |
| UnitKeepsProtocol.Wait | src/npufp16.c:1404-1460 | And waits as it says, for a group whose answers are all lent or all copied |
| AttnRing.GroupsPartition | src/llama.c:6931-6950 | The code's group sizes, in 32 bits, partition the heads exactly when the last group starts inside them |
| AttnRing.TwoGroups | src/llama.c:6581-6602 | The default of two groups always does |
| AttnRing.NotEveryCount | src/llama.c:6931-6950 | Nine heads in four groups leave one empty; five in four run past the heads |
| AttnRing.Handle.Submit | src/npufp16.c:978-988 | A submit waits out and throws away a group still in flight, and refuses an empty one |
| AttnRing.Group | src/llama.c:6686-6780 | A group's scores are read only while its unit holds them, and its values submitted for the right kv heads |
| AttnRing.Turn | src/llama.c:6984-7024 | One turn of the ring hands each unit to its next group only once it is free |
| AttnRing.Ring | src/llama.c:6916-7031 | On success every head of every row has its own attention, each group went through one unit of each kind once, and nothing of the ring's own was thrown away |
| AttnRing.AttnLayer | src/llama.c:6868-7034 | Over all blocks of rows the layer is every row's and head's attention, each head through its own kv head, for any number of groups that stays inside the heads, each unit taking its share of every block's groups, or falls back |
| AttnRing.OwnKv | src/llama.c:6888-6905 | A head is attended through the kv head whose group of heads it is in |
| Floats.StoreRun | src/gguf.c:1036-1066 | Storing a run of one row at a stride advances exactly those cells of the grid |
| PvKernel.Axpy | src/gguf.c:1310-1330 | Each element is one fused step in the blocks of eight and two roundings in the tail |
| PvKernel.PvPlain | src/gguf.c:1075-1082 | One axpy a pair leaves every channel after nk ascending steps |
| PvKernel.Tile | src/gguf.c:1100-1146 | Sixteen registers over all keys do the same steps for four queries by sixteen channels |
| PvKernel.PvBlocked | src/gguf.c:1067-1170 | The blocked kernel leaves every channel, tails included, after the same steps in the same order |
| PvKernel.AccumulatorIs | src/gguf.c:1067-1170 | In plain terms: each accumulator is its old value and then every key in order, fused inside the whole eights of the row and in two roundings past them |
| PvKernel.SameBits | src/gguf.c:1044-1066 | The two leave the same bits, and touch nothing else |
| QkKernel.DotLoop | src/gguf.c:607-620 | Two vectors of lanes, reduced once, then the tail one element at a time |
| QkKernel.Dot4 | src/llama.c:4475-4515 | Four keys a pass give four dot products, each its own lanes and tail |
| QkKernel.QkPlain | src/gguf.c:1303-1307 | One dot product a pair, scaled |
| QkKernel.Tile | src/gguf.c:1211-1285 | Four queries by two keys leave eight scaled dot products in their places |
| QkKernel.QkBlocked | src/gguf.c:1200-1302 | The blocked kernel leaves every pair's own dot product, scaled |
| QkKernel.DotIs | src/gguf.c:607-620 | The dot product in plain terms: eight lanes of fused steps, the two fours added and reduced across, then what is left over one at a time |
| QkKernel.ScoreIs | src/gguf.c:1200-1307 | In plain terms: each score is its own query's and key's dot product times the scale |
| QkKernel.SameBits | src/gguf.c:1172-1199 | The two leave the same bits, and touch nothing else |
| BatchMatmul.SumsOf | src/gguf.c:1553-1577 | Block by block for m activations, every sum is the single kernel's |
| BatchMatmul.Matmul | src/gguf.c:1814-1866 | Any number of activations, split in sixteens, each meets the kernel its batch chose, every output in its place |
| BatchMatmul.KernelsAgree | src/gguf.c:1842-1865 | For all weights and operations the product is one matrix-vector product an activation exactly when no batch mixes quantised and not |
| BatchMatmul.MatmulIsMatvecs | src/gguf.c:1804-1866 | Every output is what its activation's batch makes of it and nothing else is written; all are the matrix-vector products' own exactly when the two kernels agree wherever a batch is mixed |
| BatchMatmul.OutputIs | src/gguf.c:1814-1866 | Which kernel made an output, from its place, its batch's first activation, its own and the weight's kind, and what that kernel sums |
| BatchMatmul.MixedBatch | src/gguf.c:1842-1865 | A product whose second activation is left with the wrong kernel's output |
| BlockAttention.ScoreQuad | src/llama.c:4975-5005 | A quad scores exactly the positions of it that are in the row's window, each once with its own scaled dot product, and leaves every other cell |
| BlockAttention.Attn.WindowExactly | src/llama.c:4970-5009 | A position is scored for a row exactly when it is not past the row's and, on a window layer, less than the window before it |
| BlockAttention.Attn.WindowSize | src/llama.c:4970-5009 | So a row has its position plus one scores, or the window where that is less |
| BlockAttention.AttendIs | src/llama.c:5007-5059 | An output is the softmax of exactly those scores applied to exactly those values, summed in ascending order |
| BlockAttention.AttendAlike | src/llama.c:4970-5059 | Two layers that agree on the scores and values inside that window attend alike |
| BlockAttention.SoftmaxRow | src/llama.c:5007-5016 | The softmax runs over the window and reads only cells this unit wrote |
| BlockAttention.AddPositions | src/llama.c:5019-5059 | Four or eight positions at once add what one at a time would, in the same order |
| BlockAttention.ManyIsSum | src/llama.c:4534-4562 | The wide accumulation is that many single ones |
| BlockAttention.Units.Partition | src/llama.c:4930-4972 | A row and head belong to exactly one unit of a head and a block of rows |
| BlockAttention.Units.ScratchDisjoint | src/llama.c:4938-4948 | No two units share scratch |
| BlockAttention.KeptScratchFits | src/llama.c:7570-7590 | Scratch that is kept and not reallocated is large enough |
| BlockAttention.BlockHeads | src/llama.c:4930-5064 | Any range of units gives its own rows and heads their attention and touches nothing outside its outputs and scratch |
| BlockAttention.AttnBlock | src/llama.c:7565-7597 | All the units give every row and head its attention, for every block size and step |
| BlockAttention.TokenHeads | src/llama.c:4685-4768 | The token loop, a kv head's queries together, makes the same floats |
| ReuseKeys.Npu.Device | src/npudev.c:6811-7128 | A device hits only on its own buffer and shape and all the slices it needs, and otherwise packs them |
| ReuseKeys.Npu.Buffers | src/npudev.c:4559-4585 | Buffers that are replaced leave no valid key |
| ReuseKeys.Npu.Call | src/npudev.c:6797-7128 | A call that completes leaves every device as stated; a device keeps its bytes exactly when the follower names the buffer and shape of a valid key with slices enough, and packs afresh otherwise; after a leader every device reads what a fresh pack would have written; after a follower it does if no leader, refused or not, has come since the key of each that hits was written, and, for inputs that pack to different bytes, only then |
| ReuseKeys.RefusedLeader | src/reusekey.h:7-15 | A leader refused before the drop makes the next follower read the input before it |
| ReuseKeys.OtherBuffer | src/reusekey.h:62-95 | The same run with the refused leader and the follower at another buffer: the follower misses and reads its own bytes |
| ReuseKeys.CompletedReads | src/reusekey.h:62-95 | After a call that completes, a device whose key names another buffer, another shape, fewer slices, or is invalid reads fresh bytes, and each key names what its device holds |
| ReuseKeys.CurrentExactly | src/reusekey.h:7-38 | Over any state a run can reach, that condition is exact |
| ReuseKeys.MissRecovers | src/reusekey.h:62-95 | After a refused leader a follower that misses packs anew, and the next that hits that pack reads fresh bytes |
| ReuseKeys.RowsN | src/npupool.c:341-367 | Whatever ran before, it makes every tensor's call on every chunk in order up to the first that does not complete, every device reads fresh bytes in each that does, and on success the devices are as the last call left them |
| ReuseKeys.CallAt | src/npupool.c:335-367 | The calls in order: chunk by chunk, every tensor once, the first the leader, each at its chunk's first row and with its rows |
| KSlice.Cut.Tiles | src/kslice.h:78-96 | The slices tile K with no gap and none empty, under every rule |
| KSlice.Cut.WidestBounds | src/llama.c:8879-8893 | No slice is wider than the widest the runtime assumes, nor than KMAX unless the last absorbs a remainder |
| KSlice.Cut.WidestIsReached | src/llama.c:8879-8893 | Some slice is that wide when the widths are not evened |
| KSlice.CountExactly | src/llama.c:8879-8893 | As many slices as cover K at KMAX each, less one where the last absorbs a remainder |
| KSlice.Cut.EvenLast | src/kslice.h:61-76 | Evened slices are one multiple of the feature atom, the last no wider |
| KSlice.EvenExactly | src/kslice.h:61-76 | The equal width is the least multiple of 32 that covers K in that many slices, used where it is within KMAX, nothing is absorbed and the last slice is not left empty |
| KSlice.ChunkCap | src/llama.c:8895-8919 | A chunk within the cap keeps every scanned slice's input surface under the ceiling, unless the floor of two lifted the cap; a model that scans nothing gets the default |
| RowChunks.ChunkFits | src/npupool.c:248-286 | Where no slice absorbs a remainder, a chunk's surface fits every dispatch of the K unless the floor of two lifted it |
| RowChunks.FitsExactly | src/npupool.c:262-283 | For any slicing it fits every dispatch exactly when it fits the first and the last |
| RowChunks.LimitIs | src/npupool.c:262-283 | The limit is the cap or as many rows as the surface holds, two at the least: one more would be past either |
| RowChunks.NextIs | src/npupool.c:285-296 | A chunk is as long as the limit allows, and one row shorter only to save the last row from being alone |
| RowChunks.AbsorbedExactly | src/npupool.c:262-283 | Where the last slice absorbs a remainder it fits exactly when that slice does |
| RowChunks.AbsorbsExactly | src/npupool.c:262-283 | A slice absorbs a remainder exactly when the last one is wider than KMAX |
| RowChunks.AbsorbedOverruns | src/npupool.c:262-283 | A K and KMAX at which it does not |
| RowChunks.WalkCovers | src/npupool.c:335-366 | The chunks are the rows exactly, each within the limit |
| RowChunks.NoLonelyRow | src/npupool.c:285-296 | No chunk is one row alone exactly when there are none, or two and more with a chunk of three, or an even number with a chunk of two |
| KvLadder.Mirror.Climb | src/llama.c:6222-6236 | For any percentage the climb ends, at a multiple of 32 that covers the positions |
| KvLadder.RungIs | src/llama.c:6222-6236 | Where nothing wraps the next rung is the least multiple of 32 that is step per cent or more, and one grain up if that is no growth |
| KvLadder.CeilingIs | src/llama.c:6211-6215 | The prompt's ceiling is the least multiple of 32 that holds it, within the maximum |
| KvLadder.Mirror.RowsAt | src/llama.c:6324-6327 | The rows a group may have are the most that keep the surface within 5120 entries, or the cap where one is set and is less |
| KvLadder.Mirror.Fit | src/llama.c:6200-6330 | Each call leaves the surface the ladder says, and a new rung exactly when it grew; success covers the positions inside the maximum, at a multiple of 32, and keeps the surface under 5120 entries |
| KvLadder.GrowthBound | src/llama.c:6237-6243 | With one hint a run grows at most log2(kvmax / 32) + 2 times |
| KvLadder.Serve | src/llama.c:6200-6243 | Any run of calls, failed or not, leaves after each the surface the ladder says; its new rungs are the growths among them, and at most log2(kvmax / 32) + 2 |
| GroupLayout.Dims.Injective | src/regcmd.c:1274-1290 | No two elements share an offset, edges included |
| GroupLayout.Dims.Inside | src/regcmd.c:1274-1290 | Every offset is inside the weight |
| GroupLayout.PlaceIs | src/regcmd.c:1274-1290 | Where each element lies: sixteen channels a group, 32 of K a tile, channels padded to two and K to eight, the last of either cut short |
| GroupLayout.Reads | src/regcmd.c:1230-1262 | A surface of any extent holds so many positions exactly when each of their channels reads there and every other place is zero |
| GroupLayout.AdmittedReads | src/npufp16.c:1006-1031 | Every k and n the check admits reads each element where it was written |
| GroupLayout.PartialGroupMoves | src/npufp16.c:1008-1022 | A partial group read at another width moves once K is past one tile |
| GroupLayout.GrowsRigidly | src/regcmd.c:1130-1134 | Between multiples of 32 growing K moves each group of sixteen channels and nothing in it |
| GroupLayout.PackVcol | src/regcmd.c:1230-1262 | One position's channels are added to the surface and nothing else changes |
| GroupLayout.Regrow | src/regcmd.c:1155-1228 | Every group's live block lands at its new place with zeros after it, also when source and destination are one buffer |
| GroupLayout.MovedHolds | src/regcmd.c:1130-1150 | Moved blocks are the surface packed afresh at the new extent |
| GroupLayout.RegrowSurface | src/regcmd.c:1155-1228 | A surface that grows holds what it held, in place or not, or is refused untouched exactly when an extent padded to eight is not whole tiles |
| FpPack.PackRow | src/npufp16.c:526-543 | A row is converted up to the causal bound and zero after it |
| FpPack.WantedIs | src/npufp16.c:484-551 | The half at row r and column c is the source's own element converted, or zero past the causal bound |
| FpPack.WantedPast | src/npufp16.c:544-550 | Past the rows, to the end of the page, there are zeros |
| FpPack.RunWanted | src/npufp16.c:514-515 | A contiguous source and a strided one leave the same halves |
| FpPack.PackOne | src/npufp16.c:451-550 | An op's region holds its rows, the causal zeros and zeros to the end of the page, and nothing outside it is touched |
| FpPack.PackAll | src/npufp16.c:440-449 | The ops in any order, by any workers, leave every region so |
| FpPack.AnyOrder | src/npufp16.c:440-449 | Two orders leave the same buffer |
| FpPack.NothingCutOff | src/npufp16.c:484-485 | With the device's row size a region is never too small for its activation |

## Left out

- ioctls, cache maintenance, clocks, counters, reports and probes: system calls and diagnostics.
- Float accuracy, softmax numerics and half conversion: floats are abstract, vectors are ordered scalar operations.
- `requant_of` in `src/job.c`: its error bound does not hold as written and no stream modelled here uses it.
- The fp16 KV mirror's agreement with the float cache across generations: the appends mark positions packed before the catch-up looks at them.
- Streams of the int8 and int4 formats, vendor streams and overrides: the fp16 unit emits none of them.
- The environment switches' other arms, among them the full-scan sentinels, the head-only attention split and the per-head token loop.
- A pool of one worker, which calls the callback inline, the chunk cursor past 2^64 and the pool's shutdown flag.
- Vocabulary.Table.constructor: asks for at most 2^30 words, because past that the index's 32-bit capacity would wrap before it reached twice the vocabulary.
- Vocabulary.Table.Lookup: holds for any hash of a word; the hash's own constants are taken from the source as they stand and no value of it is stated.
- Fp16Unit.Unit.Single: leaves open what a group in flight then reports as unwritten, because the order in which the two jobs write the shared output is not part of the model.
- RegStream.EmitJob: the registers that are the same for every job are taken from the source as they stand and not stated a second time.
- Fp16Unit.Unit.GroupSubmit: holds the streams, coefficients and outputs word by word, and the weight and input buffers by size and address only; what is packed into the inputs is `FpPack`'s, and the copy of weights no caller owns is left out, as is a failed allocation.
- AttnRing.AttnLayer: asks that the last group start inside the heads, because an empty group is refused by its submit and one past the heads wraps the group's size (`GroupsPartition`, `NotEveryCount`).
- AttnRing.Ring: indexes the output by row and head, not as one flat array, and leaves out the one-time reservation, which only makes room.
- Speculation.Spec.Draft: looks up a history that is the text only until a pass is refused; from then on drafting is off, so the extra token a refusal pushes is never looked up.
- BlockAttention.BlockHeads: indexes the output by row and head and the scratch by unit and row, with disjointness of the flat scratch proved apart (`Units.ScratchDisjoint`).
- PvKernel.PvBlocked: asks for an output stride of at least a row, so that the rows it writes do not overlap.
- QkKernel.QkBlocked: asks for an output stride of at least a row, for the same reason.
- ReuseKeys.Npu.Call: keeps the slices as a set where the code keeps a 32-bit map, so tensors of more than 32 K slices are left out, as are the int8 row scales kept beside the packed bytes.
- KSlice.Cut.Tiles: grouped tensors, which slice at their own group width, are left out.
- GroupLayout.RegrowSurface: asks only for a buffer long enough; `charsiu_fp16_w_set_k` and the room kept in a surface are left out.
- Model files, images, audio, Unicode tables and benchmarks.

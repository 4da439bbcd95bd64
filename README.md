# Chunk-ownership queue of the Unified Dataproducer Interface demonstrator

The library lets a consumer stream data from a producer without copying.
The consumer lends memory buffers ("chunks") to the library. A background
generator thread fills them and hands them back. The only implemented logic
is in `lib.cpp`: two process-wide vectors of chunk pointers and three blocks
that move pointers between them, each run under one mutex.

- `freeChunks` holds lent chunks that wait to be filled.
- `fullChunks` holds filled chunks that wait for the consumer.
- `pushChunk(c)` appends `c` to `freeChunks`.
- One generator iteration takes the last free chunk, fills it and appends it to `fullChunks`.
- `popChunk()` removes and returns the front of `fullChunks`, or `nullptr` when it is empty.
- `start()` launches the generator thread; `stop()` stops and joins it if it is joinable.

The project has three modules.

- `ChunkQueue` (`chunk_queue.dfy`) models the two vectors as a value
  `Queues(free, full)` and each locked block as a function (`Push`, `Step`,
  `Pop`). `Produce(q, n)` is `n` generator iterations in a row. Lemmas state what
  one block does to the tokens, and that the producer takes free chunks newest first.
- `Traces` (`traces.dfy`) models any interleaving of the locked blocks as a
  sequence of atomic events (`Lend`, `Fill`, `Take`). It proves FIFO delivery
  out of `full`, accounting of every token, and that exclusive ownership
  between library and consumer is preserved. The consumer's holdings are the
  multiset `Held`, computed alongside the run.
- `Lib` (`library.dfy`) is the library's state as a class `Library` with the
  fields `freeChunks`, `fullChunks` and `generatorRunning`. Each entry point is
  a method that updates those fields. Each method is proved against the
  matching function of `ChunkQueue`, so the lemmas above apply to it.

Chunk pointers are modelled as addresses (`Pointer = nat`), with `Null = 0`
for `nullptr`. Chunk contents are not modelled.

## Model

| member | source | states |
|---|---|---|
| ChunkQueue.PushAddsOneToken | lib.cpp:39-42 | pushChunk puts exactly the lent chunk at the back of the free vector. Earlier free chunks keep their order, the full vector is untouched, and the library's tokens grow by exactly that chunk |
| ChunkQueue.StepMovesOneToken | lib.cpp:19-24 | a generator iteration with a free chunk moves exactly the last free chunk to the back of the full vector. Each size changes by one. With no free chunk it changes nothing. No token is created or lost |
| ChunkQueue.PopRemovesFront | lib.cpp:44-51 | popChunk on a non-empty full vector returns its front chunk and keeps the rest in order. The free vector is untouched and exactly that token leaves the library. On an empty full vector it returns null and changes nothing |
| ChunkQueue.PopNullMeansEmpty | lib.cpp:44-51 | when no null pointer was ever lent into the full vector, popChunk returns null exactly when there was no data |
| ChunkQueue.ReverseAt | lib.cpp:19-21 | the reference order in which the producer takes free chunks: position i of the reversal is the i-th chunk from the back |
| ChunkQueue.ProduceMovesNewestFirst | lib.cpp:15-28 | LIFO out of free: n generator iterations move the last min(n, number of free chunks) free chunks to the back of the full vector, newest first. Everything else stays where it was |
| ChunkQueue.ProduceDrainsFree | lib.cpp:15-28 | one generator iteration per free chunk empties the free vector and appends all of it, reversed, to the full vector |
| ChunkQueue.ProduceConservesTokens | lib.cpp:19-23 | any number of generator iterations leaves the multiset of tokens in free and full unchanged |
| Traces.EventIsFifo | lib.cpp:19-51 | one locked block, seen from the full vector, only appends at the back what the producer publishes and only removes at the front what popChunk hands out |
| Traces.FullIsFifo | lib.cpp:19-51 | for every interleaving of pushChunk, generator iterations and popChunk: the initial full vector followed by everything published equals everything popped followed by what remains in the full vector (FIFO, and nothing lost out of full) |
| Traces.DeliveredInPublishOrder | lib.cpp:19-51 | starting with an empty full vector, the chunks popped are a prefix of the chunks published, in publish order, and the published chunks not yet popped are exactly what remains in the full vector, in order |
| Traces.EventAccounted | lib.cpp:19-51 | one locked block changes the library's tokens by exactly what it takes in (a lent chunk) or hands out (a popped chunk) |
| Traces.TokensAccounted | lib.cpp:19-51 | over any run, the library's tokens plus everything lent equal its tokens afterwards plus everything popped: no chunk appears, is duplicated or vanishes |
| Traces.NullNeverFull | lib.cpp:39-51 | if the library holds no null chunk and the consumer never lends one, no null chunk is ever in the full vector, so a null popChunk result always means there was no data |
| Traces.EventConservesOwnership | lib.cpp:19-51 | one locked block leaves free + full + consumer-held unchanged when the consumer lends only a chunk it holds |
| Traces.OwnershipConserved | lib.cpp:19-51 | over any run in which the consumer lends only chunks it holds, the multiset free + full + consumer-held never changes |
| Traces.ExclusivePreserved | lib.cpp:19-51 | if no chunk occurs twice among free, full and consumer-held before a run, then afterwards the same chunks are still there (none lost or created) and still none occurs twice, so each is in exactly one place; provided the consumer lends only chunks it holds (the code does not check this itself) |
| Traces.ExclusiveMeansDisjoint | lib.cpp:6-7 | under exclusive ownership no free chunk is also full or consumer-held, and neither vector holds a chunk twice |
| Traces.RunFills | lib.cpp:15-28 | a run of generator iterations alone hands nothing to the consumer and ends in the state the producer loop computes |
| Traces.RunTakes | lib.cpp:44-51 | as many popChunk calls as there are full chunks hand out the whole full vector, front first, and leave it empty |
| Traces.EveryChunkDelivered | lib.cpp:15-51 | no loss: one generator iteration per free chunk followed by enough popChunk calls hands every chunk the library held to the consumer exactly once. The already filled ones come first, then the free ones newest first, and the library is left empty |
| Lib.Library.constructor | lib.cpp:6-9 | the library starts with both vectors empty and no generator thread |
| Lib.Library.Start | lib.cpp:30 | after start a generator thread is running; the vectors are untouched (an old running thread is stopped and joined when the new one is assigned) |
| Lib.Library.Stop | lib.cpp:32-37 | after stop no generator thread is joinable; the vectors are untouched. With no joinable thread it changes nothing, so a second stop is a no-op |
| Lib.Library.PushChunk | lib.cpp:39-42 | the new free vector is the old one plus the lent chunk at the back; the full vector and the thread flag are unchanged |
| Lib.Library.PopChunk | lib.cpp:44-51 | returns the old front of the full vector and removes it, or returns null and changes nothing when the full vector was empty; the free vector is unchanged |
| Lib.Library.GeneratorStep | lib.cpp:17-25 | the locked body of one generator iteration: the last free chunk is removed and appended to the full vector, or nothing changes when there is no free chunk |
| Lib.Library.DataGenerator | lib.cpp:15-28 | running the generator loop for a number of iterations leaves the vectors as that many producer steps compute (see ProduceMovesNewestFirst) |

## Left out

- Threads and locking (`std::jthread`, `std::stop_token`, `std::mutex`, `lock_guard`; lib.cpp:8-9, 15-18, 30-37): each locked block is one atomic method or event, and concurrency is modelled as an arbitrary interleaving of those events in `Traces`.
- The 100 ms `sleep_for` after each generator iteration (lib.cpp:26): timing is not modelled.
- Lib.Library.DataGenerator: the loop runs until an external stop request arrives. The model takes the number of iterations before that as a parameter and does not interleave consumer calls inside one call; interleavings are covered by `Traces`.
- Lib.Library.GeneratorStep: requires a running generator, because only the generator thread executes this block.
- Lib.Library.Stop: a generator iteration that completes between the stop request and the join is not a separate step here; such an iteration is an ordinary `Fill` event before the stop.
- `fillData` (lib.cpp:11-13) is an empty stub that would write a chunk's bytes. It is kept as `Lib.FillData` with an empty body, and chunk contents are not modelled.
- The thread destructor at program exit, which also requests stop and joins, is not modelled.
- main.cpp is a demo driver (allocation with `new[]`, console output, an endless loop) and is not part of this model.
- lib.h, uadi.h and lib.hpp only declare functions: init/deinit, enumerate and metadata queries, claim/open and release/close of devices, try-release, waiting for data, callbacks and releasing the library. None of them has a body, so none is modelled. They also disagree with lib.cpp: lib.hpp:33-34 gives `pushChunk`/`popChunk` library and device handles, while lib.cpp:39 and lib.cpp:44 take none. The model follows lib.cpp.
- The headers declare an interface the code does not implement: per-device handles (lib.h:121, uadi.h:47), arrays of chunks per push (lib.h:131, uadi.h:49) and status codes (lib.h:78-83, uadi.h:27-33). lib.cpp has one global pair of vectors, takes one chunk per push, has a `fillData` that cannot fail, and returns a null pointer instead of a status. The model follows lib.cpp.
- Chunk size (32768 in lib.hpp:11, at least 128 KB in lib.h:48-50) does not matter, because contents are not modelled.
- pushChunk accepts a null pointer. Such a chunk is later popped as null and cannot be told apart from "no data". `PopNullMeansEmpty` states the guarantee for a state with no null chunk in the full vector, and `NullNeverFull` shows that every state of a run is such a state when the library starts without a null chunk and none is lent.

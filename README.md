# web-osu-mania: a verified model of the audio chunk pipeline and the gameplay rules

web-osu-mania is a browser clone of the osu!mania rhythm game. This project
models in Dafny the parts of it that carry logic, and proves what that logic
does:

- **Chunk codec** (`AudioStore`). A decoded track is cut into per-channel
  chunks of `sampleRate · chunkDuration` frames, and a chunk is turned back
  into a buffer. A chunk can also be trimmed so that playback starts inside it.
  Samples are kept as opaque 32-bit patterns.
- **Audio-graph bookkeeping** (`AudioGraphs`, `AudioGraphUtils`). Graph nodes
  keep `inbounds`/`outbounds` lists. `connect` pushes to them and `disconnect`
  filters them in place. On top of that sit `insertNodeBetween` and
  `removeNode`, whose `forEach` walks remove entries from the very list they
  walk. Web Audio units are opaque ids, and the calls forwarded to them go to
  a ghost log.
- **Chunk scheduler** (`AudioStreams`). `AudioStream` is a sequential state
  machine. Its two suspension points, a pending read and a pending `ended`
  event, become input events. Start times add up from `length / sampleRate`.
- **Chunk source** (`IdbKeys`, `ObjectStore`, `BeatmapDatabase`).
  - `IdbKeys` gives the IndexedDB key order and key ranges.
  - `ObjectStore` gives the `where` generator over a sorted store snapshot,
    plus `get`.
  - `BeatmapDatabase` gives `getAudioStream`, which splits an offset into a
    chunk index and a trim. It also gives the `ReadableStream` start/pull, the
    open checks, `removeItem` and `addItem`.
- **Beatmap parser** (`JsNumbers`, `BeatmapStore`). This covers categories and
  properties of the osu! file format v14, the column of a hit object, and the
  per-column note lists of `[HitObjects]`. It parses numbers with JavaScript's
  `Number` on exact reals.
- **Judgement and scoring** (`Notes`, `JudgementStore`, `UseJudgement`,
  `ScoreStore`, `UseScore`).
  - The hit windows at overall difficulty 5.
  - The long-note state machine of one column.
  - The osu!mania ScoreV1 table with its bonus clamp.
- **Small utilities.**
  - Colours: `RGBColor` and `Colors`.
  - The two timers: `PausableTimer` and `BasicTimer`. The clock reading is a
    parameter.
  - `ClampRef`.
  - `Settlement`, for `fulfilledAndRejected`.
  - `JudgementService`.
  - `Arrays`, for `toArray`.
  - `Coalesce`.

The modelling conventions are:

- **Numbers.** Numbers are exact `real`s.
- **Rounding.**
  - `Math.round(x)` is `⌊x + ½⌋` (`JsNumbers.Round`).
  - `toFixed(2)` rounds to hundredths.
- **Assertions.** The code uses two `assert` helpers.
  - The one in `utils/assertions/assert.ts` throws only in development builds.
    Where it guards an operation, it becomes a precondition.
  - The one in `utils/assertions.ts` always throws. It becomes a `Failure`
    result.
- **Imperative code** becomes classes whose methods state their complete new
  state. Their loops are proved against specification functions.
- **Short last chunk.** `blobToAudioChunks` stamps every chunk with the full
  `chunkLength`, even the short last chunk. The authors mark this with a TODO.
  `AudioStore.LastChunkLengthOverstated` states the overstatement exactly.
- **Where the code differs from its description.**
  - *Disconnecting.* `disconnect` filters the target's inbounds for the target
    itself (`AudioGraphs.ConnectThenDisconnect`).
  - *Removing a node.* `removeNode`'s outbound walk disconnects only every
    other neighbour (`AudioGraphUtils.ForEachDisconnectKeepsOdds`).
  - *A record at the upper bound.* When `where`'s cursor reads the record at
    the query's upper bound, the range re-opened from it would be empty.
    `IDBKeyRange.bound` throws inside the cursor callback, so the generator
    never settles. The model follows the code: the generator hangs
    (`ObjectStore.RecordAtUpperHangs`). It does not go on to yield that
    record.

## Model

| member | source | states |
|---|---|---|
| AudioGraphs.WithoutKeeps | src/resources/audio/AudioGraph.ts:21-22 | lodash `remove` by identity keeps every element other than the one removed |
| AudioGraphs.WithoutAbsent | src/resources/audio/AudioGraph.ts:21-22 | removing an element that is not listed leaves the list unchanged |
| AudioGraphs.WithoutAppend | src/resources/audio/AudioGraph.ts:21-22 | removal distributes over concatenation, so it keeps the order of what remains |
| AudioGraphs.AudioGraphNode.constructor | src/resources/audio/AudioGraph.ts:8-12 | a new node wraps its unit, has empty inbounds and outbounds and has made no calls |
| AudioGraphs.AudioGraphNode.Connect | src/resources/audio/AudioGraph.ts:14-18 | one entry is appended to this node's outbounds and to the target's inbounds, without checking for an existing edge, and the unit `connect` is forwarded; nothing else changes |
| AudioGraphs.AudioGraphNode.Disconnect | src/resources/audio/AudioGraph.ts:20-24 | every occurrence of the target leaves this node's outbounds, while the target's inbounds lose the target itself (not this node), and the unit `disconnect` is forwarded |
| AudioGraphs.ConnectThenDisconnect | src/resources/audio/AudioGraph.ts:14-24 | connect then disconnect of two distinct nodes restores `a.outbounds` but leaves `a` in `b.inbounds` |
| AudioGraphs.AudioGraphNode.ConnectUndefined | src/resources/audio/AudioGraph.ts:14-16 | `connect(undefined)` pushes one stray entry onto this node's outbounds and then throws: no list, no other node and no unit call changes |
| AudioGraphs.AudioGraph.constructor | src/resources/audio/AudioGraph.ts:36-41 | the graph's input node is connected to its output node: exactly one edge each way and one forwarded `connect` |
| AudioGraphs.NewAudioGraph | src/resources/audio/AudioGraph.ts:36-49 | the `input` and `output` getters of a new graph return two distinct nodes for the given units, the input the only inbound of the output and the output the only outbound of the input |
| AudioGraphUtils.InsertNodeBetween | src/resources/audio/AudioGraphUtils.ts:4-14 | returns `node`; `b` is the last outbound of `node` and `node` the last inbound of `b`; for three distinct nodes, the full new neighbour lists of `a`, `node` and `b` and the unit calls they forward (`a` disconnects from `b` and connects to `node`, which connects to `b`); no stray is added |
| AudioGraphUtils.ForEachSkip | src/resources/audio/AudioGraphUtils.ts:26 | one visit of the outbound walk removes the element found at that position |
| AudioGraphUtils.ForEachDisconnectStep | src/resources/audio/AudioGraphUtils.ts:26 | after k visits of the in-place removal walk the odd elements seen so far precede the untouched rest, and the walk ends with the odd elements |
| AudioGraphUtils.ForEachDisconnectKeepsOdds | src/resources/audio/AudioGraphUtils.ts:26 | `forEach` over distinct outbounds that removes the visited entry in place disconnects only the neighbours at even positions; those at odd positions stay |
| AudioGraphUtils.WithoutTwice | src/resources/audio/AudioGraph.ts:21-22 | removing the same node twice is removing it once |
| AudioGraphUtils.ForEachVisitsEvens | src/resources/audio/AudioGraphUtils.ts:26 | over distinct outbounds, the callback of the outbound walk runs for exactly the neighbours at even positions, in order |
| AudioGraphUtils.WalkedStep | src/resources/audio/AudioGraphUtils.ts:24 | one callback of the inbound walk advances it by one visit: only the inbound at index k changes, losing `node` from its outbounds and gaining one unit disconnect |
| AudioGraphUtils.WalkedAll | src/resources/audio/AudioGraphUtils.ts:24 | after the whole inbound walk each inbound has dropped `node` from its outbounds and its unit was disconnected once per time it is listed |
| AudioGraphUtils.DisconnectInboundAt | src/resources/audio/AudioGraphUtils.ts:24 | one callback of the inbound walk: `node`'s lists only ever lose `node` itself; when `node` is not its own inbound, the inbound at index k drops `node` from its outbounds, its unit is disconnected once, and nothing else changes |
| AudioGraphUtils.DisconnectInbounds | src/resources/audio/AudioGraphUtils.ts:24 | when `node` is not its own inbound, every inbound neighbour drops `node` from its outbounds and its unit is disconnected from `node`'s once per listing, while `node`'s own lists and calls stay as they were; in every case `node`'s lists only shrink and no stray is added |
| AudioGraphUtils.DisconnectOutboundAt | src/resources/audio/AudioGraphUtils.ts:26 | one callback of the outbound walk: the entry at index k (if the list still reaches it) is disconnected, so the walk's remaining result, the visited units and the forwarded calls advance by one step |
| AudioGraphUtils.DisconnectOutbounds | src/resources/audio/AudioGraphUtils.ts:26 | `node.outbounds` ends as the skip-walk result of the old list and `node`'s unit is disconnected from exactly the visited units, in order; a visited target filters its inbounds for itself, so the targets keep `node` in their inbounds |
| AudioGraphUtils.Reconnect | src/resources/audio/AudioGraphUtils.ts:20-22 | succeeds exactly when `newConnection` is absent or names existing entries; on success the chosen inbound is connected to the chosen outbound (one edge, one unit `connect`); a missing outbound leaves one stray on the chosen inbound, and a failure changes no list and makes no call |
| AudioGraphUtils.DisconnectNeighbours | src/resources/audio/AudioGraphUtils.ts:24-26 | the two walks together: `node` keeps its inbounds, its outbounds become the skip-walk result, each inbound forgets `node` and is disconnected once per listing, each visited outbound filters its inbounds for itself, and outbound neighbours still list `node` |
| AudioGraphUtils.RemoveNode | src/resources/audio/AudioGraphUtils.ts:16-29 | returns `node`; the list-level checks succeed exactly when `newConnection` is absent or names existing entries (the forwarded unit calls are taken to succeed); a failure changes no list and makes no call but may leave the stray of `connect(undefined)`; on success the full new lists and forwarded calls of `node` and of every neighbour: the rewired edge is added first, then the two walks run over the rewired lists, and outbound neighbours still list `node` |
| AudioGraphScenarios.InsertThenRemove | src/resources/audio/AudioGraphUtils.ts:4-29 | inserting a node between two others and removing it with `{inbound: 0, outbound: 0}` restores `a`'s outbounds and leaves `n`'s inbound `a`, but `b` still lists `n` as an inbound |
| AudioStore.ChunkCount | src/resources/audio/store.ts:25 | `range(length / chunkLength)` yields ceil(length / chunkLength) indices: enough chunks to cover the track, and no chunk wholly past its end |
| AudioStore.Slice | src/resources/audio/store.ts:37 | `slice(begin, end)` with both bounds clamped to the array |
| AudioStore.SliceIntoChunks | src/resources/audio/store.ts:34-42 | one chunk per index, numbered in order, each with every channel, the input's sample rate and channel count, and `length` set to the full chunk length |
| AudioStore.CopyChannels | src/resources/audio/store.ts:28-32 | the per-channel copy loop yields exactly the decoded channels |
| AudioStore.BlobToAudioChunks | src/resources/audio/store.ts:18-43 | after the decode, the chunks are the slicing of the decoded channels |
| AudioStore.ConcatPrefix | src/resources/audio/store.ts:34-42 | the first k chunks of channel c, concatenated, are the first min(k*chunkLength, length) samples of the channel |
| AudioStore.ConcatReproducesChannel | src/resources/audio/store.ts:34-42 | concatenating every chunk's channel c gives back channel c exactly: slicing loses and duplicates nothing |
| AudioStore.ChunkSampleCounts | src/resources/audio/store.ts:34-42 | every chunk but the last holds exactly chunkLength samples per channel; the last holds what remains |
| AudioStore.LastChunkLengthOverstated | src/resources/audio/store.ts:17 | when the track is not a whole number of chunks, the last chunk's `length` field claims more samples than its channels hold (the defect the authors' TODO names) |
| AudioStore.AudioBuffer.constructor | src/resources/audio/store.ts:48 | a new buffer has the given shape and silence in every channel |
| AudioStore.AudioBuffer.CopyToChannel | src/resources/audio/store.ts:49 | `copyToChannel` overwrites the first min(|source|, length) frames of one channel and no other |
| AudioStore.Fill | src/resources/audio/store.ts:48 | n copies of a sample: a silent channel |
| AudioStore.Overwrite | src/resources/audio/store.ts:49 | a channel whose prefix is replaced by the source, frame by frame |
| AudioStore.AudioChunkToAudioBuffer | src/resources/audio/store.ts:45-52 | fails exactly when the length or the channel count is below 1 or the chunk has more channels than it declares (the shape checks of the buffer constructor and `copyToChannel`); otherwise a fresh buffer of the chunk's shape whose channels hold the chunk's samples followed by silence |
| AudioStore.OverwriteFull | src/resources/audio/store.ts:49 | a channel of exactly `length` samples is copied into the buffer unchanged |
| AudioStore.OverwriteShort | src/resources/audio/store.ts:49 | the short last chunk plays as its samples followed by silence up to the overstated length |
| AudioStore.Subarray | src/resources/audio/store.ts:62 | `subarray(begin, end)` is the slice for in-range bounds and empty when end precedes begin |
| AudioStore.OffsetAudioChunk | src/resources/audio/store.ts:57-65 | the offset chunk keeps id, number, rate and channel count, drops `Math.round(offset*sampleRate)` frames from each well-formed channel and reduces `length` by the same amount |
| AudioStore.OffsetZeroIsIdentity | src/resources/audio/store.ts:57-65 | offset 0 leaves a well-formed chunk unchanged |
| AudioStore.OffsetPastEnd | src/resources/audio/store.ts:57-65 | an offset past the chunk's end is not checked: every channel becomes empty and `length` negative |
| AudioStore.OffsetNegative | src/resources/audio/store.ts:57-65 | a negative frame offset makes `subarray` count from the end: each channel keeps only its last frames while `length` grows past the chunk's own |
| AudioStore.OffsetShortChannel | src/resources/audio/store.ts:57-65 | a channel shorter than `length` loses its first k frames, or all of them when it has fewer |
| AudioStreams.StartTimes | src/resources/audio/AudioStream.ts:40-60 | one start time per chunk |
| AudioStreams.StartTimesArePrefixSums | src/resources/audio/AudioStream.ts:47-59 | chunk k starts when the chunks before it have played out |
| AudioStreams.OneChunk | src/resources/audio/AudioStream.ts:40-47 | the first chunk starts at 0 and lasts its own duration |
| AudioStreams.ElapsedOfEqualDurations | src/resources/audio/AudioStream.ts:47-59 | chunks of equal duration d add up to count times d |
| AudioStreams.ElapsedMonotone | src/resources/audio/AudioStream.ts:47-59 | start times never go back in time |
| AudioStreams.StopCalls | src/resources/audio/AudioStream.ts:26-29 | two calls per held buffer |
| AudioStreams.StopCallsPairs | src/resources/audio/AudioStream.ts:26-29 | every held buffer is disconnected and then stopped, in the order held |
| AudioStreams.StopCallsAppend | src/resources/audio/AudioStream.ts:26-29 | the stop calls of one more buffer come after those of the others |
| AudioStreams.AudioStream.constructor | src/resources/audio/AudioStream.ts:3-13 | a new stream holds no buffers and is neither streaming nor cancelled |
| AudioStreams.AudioStream.Stream | src/resources/audio/AudioStream.ts:15-20 | sets streaming; the first call takes the reader and issues the first read, a second call fails on the locked stream and changes nothing else |
| AudioStreams.AudioStream.PlayChunk | src/resources/audio/AudioStream.ts:63-71 | creates one buffer source; for a playable chunk connects it and starts it at the given time and records the chunk; otherwise only the creation happened |
| AudioStreams.AudioStream.OnFirstRead | src/resources/audio/AudioStream.ts:42-49 | `done` finishes with nothing scheduled and no call; an unplayable chunk fails after creating one source; a playable chunk is scheduled at time 0 (create, connect, start at 0), held, `startTime` becomes its duration, and another read is issued unless cancelled |
| AudioStreams.AudioStream.OnLoopRead | src/resources/audio/AudioStream.ts:49-57 | `done` finishes with nothing new and no call; an unplayable chunk fails after creating one source; a playable chunk is scheduled right after all chunks before it (create, connect, start at their total duration), held, and the loop waits for its `ended` |
| AudioStreams.AudioStream.OnEnded | src/resources/audio/AudioStream.ts:57-60 | the oldest buffer is shifted out (one stays held), `startTime` advances by the chunk's duration, and another read is issued (counted in `readCount`) unless cancelled |
| AudioStreams.AudioStream.Stop | src/resources/audio/AudioStream.ts:22-32 | clears streaming, sets cancelled, disconnects and stops every held buffer in order, then cancels the reader |
| AudioStreams.PlayAll | src/resources/audio/AudioStream.ts:39-61 | reading to the end with every `ended` arriving: chunk k starts at the total duration of the chunks before it, and at most one buffer is still held at the end |
| Settlement.FulfilledAndRejected | src/utils/functions/fulfilledAndRejected.ts:3-15 | the fulfilled values and the rejection reasons, each in input order |
| Settlement.EveryOutcomeCounted | src/utils/functions/fulfilledAndRejected.ts:5-11 | every input lands in exactly one of the two lists |
| Settlement.OutcomeKept | src/utils/functions/fulfilledAndRejected.ts:5-11 | a fulfilled input's value is among the values, a rejected input's reason among the reasons |
| Settlement.NoRejections | src/utils/functions/fulfilledAndRejected.ts:3-15 | with no rejection, `rejected` is empty and `fulfilled` is every value in order |
| Settlement.Settle | src/resources/beatmap/database.ts:47 | `Promise.allSettled` over plain values fulfils each with itself |
| Settlement.SettledTwice | src/resources/beatmap/database.ts:46-48 | settling already-settled outcomes again reports every outcome, rejected ones included, as fulfilled and nothing as rejected |
| IdbKeys.StrLessIrreflexive | src/utils/SuperchargedIndexedDB/SCIDBObjectStore.ts:55 | no string key sorts below itself |
| IdbKeys.StrLessTransitive | src/utils/SuperchargedIndexedDB/SCIDBObjectStore.ts:55 | the code-point order on string keys is transitive |
| IdbKeys.StrLessTotal | src/utils/SuperchargedIndexedDB/SCIDBObjectStore.ts:55 | any two distinct string keys are ordered |
| IdbKeys.LessIrreflexive | src/utils/SuperchargedIndexedDB/SCIDBObjectStore.ts:55 | no key sorts below itself |
| IdbKeys.SeqLessIrreflexive | src/resources/beatmap/database.ts:35 | no array key sorts below itself |
| IdbKeys.LessTransitive | src/utils/SuperchargedIndexedDB/SCIDBObjectStore.ts:55 | the key order is transitive across numbers, strings and arrays |
| IdbKeys.SeqLessTransitive | src/resources/beatmap/database.ts:35 | the element-by-element order on array keys is transitive |
| IdbKeys.LessTotal | src/utils/SuperchargedIndexedDB/SCIDBObjectStore.ts:55 | any two distinct keys are ordered: the cursor order is a strict total order |
| IdbKeys.SeqLessTotal | src/resources/beatmap/database.ts:35 | any two distinct array keys are ordered |
| IdbKeys.LessAsymmetric | src/utils/SuperchargedIndexedDB/SCIDBObjectStore.ts:55 | the key order is asymmetric |
| IdbKeys.LessEqTransitive | src/utils/SuperchargedIndexedDB/SCIDBObjectStore.ts:55 | "at most" on keys is transitive |
| IdbKeys.Bound | src/utils/SuperchargedIndexedDB/SCIDBObjectStore.ts:64 | `IDBKeyRange.bound` succeeds exactly when lower is below upper, or they are equal and both sides closed, and then holds the four arguments |
| ObjectStore.FirstFrom | src/utils/SuperchargedIndexedDB/SCIDBObjectStore.ts:55 | the record a cursor opened on a range lands on lies in the range, at or after the search start |
| ObjectStore.FirstFromIsFirst | src/utils/SuperchargedIndexedDB/SCIDBObjectStore.ts:55 | the cursor lands on the first in-range record; when there is none, no record is in range |
| ObjectStore.FirstFromSkip | src/utils/SuperchargedIndexedDB/SCIDBObjectStore.ts:55 | skipping records outside the range does not change where the cursor lands |
| ObjectStore.Advance | src/utils/SuperchargedIndexedDB/SCIDBObjectStore.ts:64 | the re-opened range exists exactly when the query has an upper bound above the key just read; it is lower-open at that key, keeps the upper bound and is closed at the top |
| ObjectStore.WhereCursor.constructor | src/utils/SuperchargedIndexedDB/SCIDBObjectStore.ts:49-51 | a new generator's current range is the query, and it has neither finished, returned nor hung |
| ObjectStore.WhereCursor.Next | src/utils/SuperchargedIndexedDB/SCIDBObjectStore.ts:53-74 | a returned or hung generator stays so; otherwise one pass yields, returns or hangs as the step function says and moves `_query` past the record read |
| ObjectStore.NoneBefore | src/utils/SuperchargedIndexedDB/SCIDBObjectStore.ts:64 | in a sorted store, after the record at p-1 is yielded the re-opened range excludes every record before p |
| ObjectStore.InCurIff | src/utils/SuperchargedIndexedDB/SCIDBObjectStore.ts:64 | past the last yielded record, the re-opened range and the query select the same records when none sits on the upper bound |
| ObjectStore.ExpectedSkip | src/utils/SuperchargedIndexedDB/SCIDBObjectStore.ts:49-75 | out-of-range records add nothing to what `where` should yield |
| ObjectStore.WhereFromExpected | src/utils/SuperchargedIndexedDB/SCIDBObjectStore.ts:49-75 | from any record boundary on, the generator yields the in-range values in key order and returns |
| ObjectStore.CurAgrees | src/utils/SuperchargedIndexedDB/SCIDBObjectStore.ts:64 | from index p on, the re-opened range and the query agree on every record |
| ObjectStore.WhereFromYield | src/utils/SuperchargedIndexedDB/SCIDBObjectStore.ts:67-73 | a record with a value is yielded and the run continues after it |
| ObjectStore.WhereYieldsRange | src/utils/SuperchargedIndexedDB/SCIDBObjectStore.ts:49-75 | with nothing stored exactly at the upper bound, `where` yields every in-range value once, in increasing key order, stopping only at a null value, and returns |
| ObjectStore.NoUpperHangs | src/utils/SuperchargedIndexedDB/SCIDBObjectStore.ts:64 | a query without an upper bound hangs on the first record found, yielding nothing |
| ObjectStore.RecordAtUpperHangs | src/utils/SuperchargedIndexedDB/SCIDBObjectStore.ts:64 | a record exactly at the upper bound makes `bound(k, k, true)` throw: the value before it is yielded, then the generator hangs |
| ObjectStore.UpperOpenDropped | src/utils/SuperchargedIndexedDB/SCIDBObjectStore.ts:64 | an `upperOpen` query loses its open top after the first record, so the generator lands on the excluded upper record and hangs |
| ObjectStore.StepAt | src/utils/SuperchargedIndexedDB/SCIDBObjectStore.ts:53-74 | one pass of the generator loop is the first step of the whole run, and a yield moves the cursor just past the yielded record |
| ObjectStore.Lookup | src/utils/SuperchargedIndexedDB/SCIDBObjectStore.ts:22 | a found value is stored under the key; an absent key gives undefined |
| ObjectStore.LookupFinds | src/utils/SuperchargedIndexedDB/SCIDBObjectStore.ts:22 | in a sorted store, looking up a stored key returns its record's value |
| ObjectStore.Get | src/utils/SuperchargedIndexedDB/SCIDBObjectStore.ts:18-30 | a truthy key reads one record; a missing or falsy key (0 and "" included) reads every value in key order |
| BeatmapDatabase.ChunkOffset | src/resources/beatmap/database.ts:103 | the chunk index is the one whose 10-second window holds the offset |
| BeatmapDatabase.Trunc | src/resources/beatmap/database.ts:104 | conversion toward zero, as the `%` operator on numbers uses it |
| BeatmapDatabase.ChunkRemainder | src/resources/beatmap/database.ts:104 | `offset % 10` lies in [0, 10) for a non-negative offset and takes the offset's sign otherwise |
| BeatmapDatabase.ToFixed2 | src/resources/beatmap/database.ts:104 | `Number(x.toFixed(2))` is within half a hundredth of x and keeps a non-negative x non-negative |
| BeatmapDatabase.Hundredths | src/resources/beatmap/database.ts:104 | rounding a non-negative number to hundredths, ties away from zero |
| BeatmapDatabase.WithinChunkBounds | src/resources/beatmap/database.ts:103-104 | for a non-negative offset the trim lies in [0, 10] and within half a hundredth of the distance from the start of the chosen chunk |
| BeatmapDatabase.HundredthsSplitExactly | src/resources/beatmap/database.ts:103-104 | an offset in whole hundredths splits exactly into chunk index and trim, and the trim stays below a whole chunk |
| BeatmapDatabase.TrimRoundsToWholeChunk | src/resources/beatmap/database.ts:103-104 | 9.996 s falls in chunk 0, yet its trim rounds to 10.00, a whole chunk |
| BeatmapDatabase.WholeChunkTrimEmpties | src/resources/beatmap/database.ts:121 | trimming 10.00 s off a full chunk leaves no frame in any channel |
| BeatmapDatabase.SongRange | src/resources/beatmap/database.ts:106-109 | `IDBKeyRange.bound([id, chunkOffset], [id, []])` never throws |
| BeatmapDatabase.SameBeatmapOrder | src/resources/beatmap/database.ts:35 | two chunk keys of one beatmap compare by chunk index |
| BeatmapDatabase.InSongRange | src/resources/beatmap/database.ts:106-109 | the range holds exactly the keys of that beatmap whose chunk index is at least the chunk offset |
| BeatmapDatabase.NoSongAtUpper | src/resources/beatmap/database.ts:108 | no chunk key equals the upper bound `[id, []]`, so the generator's re-opened ranges never throw |
| BeatmapDatabase.ExpectedIsChunksFrom | src/resources/beatmap/database.ts:106-109 | what `where` should yield on the beatmap's range is its stored chunks from the chunk offset on |
| BeatmapDatabase.StoredChunksStreamed | src/resources/beatmap/database.ts:106-109 | the `where` run yields exactly the stored chunks of the beatmap from the chunk offset on, and returns rather than hangs |
| BeatmapDatabase.ChunksAfter | src/resources/beatmap/database.ts:35 | every chunk of the beatmap stored after a given one has a higher index |
| BeatmapDatabase.ChunksFromBeatmap | src/resources/beatmap/database.ts:106-109 | only chunks of that beatmap at or above the chunk offset are read |
| BeatmapDatabase.ChunksFromAscending | src/resources/beatmap/database.ts:106-109 | the chunks are read in strictly increasing index order |
| BeatmapDatabase.ChunksFromComplete | src/resources/beatmap/database.ts:106-109 | every stored chunk of that beatmap at or above the chunk offset is read |
| BeatmapDatabase.FirstTrimmed | src/resources/beatmap/database.ts:111-134 | the stream emits the first chunk trimmed and the rest as read |
| BeatmapDatabase.OnlyFirstTrimmed | src/resources/beatmap/database.ts:121-132 | only the first emitted chunk differs from what was read; it keeps its beatmap and index, and a zero trim leaves it whole |
| BeatmapDatabase.StreamedChunks | src/resources/beatmap/database.ts:98-135 | `getAudioStream(id, offset)` emits chunks of that beatmap only, from chunk `floor(offset/10)` on, in increasing index order, every stored one of them, and only the first trimmed |
| BeatmapDatabase.PullStep | src/resources/beatmap/database.ts:113-125 | one `chunkGenerator.next()` returns when nothing is left to read, and otherwise yields the next chunk and moves past it |
| BeatmapDatabase.WhereFromChunks | src/resources/beatmap/database.ts:106-109 | from just past an in-range record, the rest of the run is the chunks still to read |
| BeatmapDatabase.AudioChunkStream.constructor | src/resources/beatmap/database.ts:111 | a new stream reads the generator on the beatmap's range, has not started or closed and has emitted nothing |
| BeatmapDatabase.AudioChunkStream.Start | src/resources/beatmap/database.ts:112-122 | closes on an exhausted generator, and otherwise enqueues the first chunk trimmed |
| BeatmapDatabase.AudioChunkStream.Pull | src/resources/beatmap/database.ts:124-133 | closes when nothing is left, and otherwise enqueues the next chunk untouched; once closed, everything enqueued is the full emission |
| BeatmapDatabase.StartEmits | src/resources/beatmap/database.ts:112-122 | the first read never hangs: it finds nothing and nothing is emitted, or it emits the first chunk trimmed and the chunks still to read complete the emission |
| BeatmapDatabase.PullAppends | src/resources/beatmap/database.ts:124-133 | a pull never hangs: it finds nothing and the queue is complete, or it appends the next chunk and the queue plus what is left stays the full emission |
| BeatmapDatabase.TaggedChunks | src/resources/beatmap/database.ts:52-57 | every chunk stored for a beatmap carries its id and its own position as index, so its chunk keys are distinct |
| BeatmapDatabase.AddBatchCommits | src/utils/SuperchargedIndexedDB/SCIDBObjectStore.ts:36-43 | the one-transaction `add` of a batch commits exactly when no key of the batch is stored already or repeated within it |
| BeatmapDatabase.AddBatchContents | src/utils/SuperchargedIndexedDB/SCIDBObjectStore.ts:36-43 | a committed batch adds every chunk under its key and keeps every stored entry |
| BeatmapDatabase.SongsAfterKeeps | src/resources/beatmap/database.ts:59-61 | adding chunk batches never changes a stored entry |
| BeatmapDatabase.SongsAfterKeyed | src/resources/beatmap/database.ts:59-61 | every `songs` entry stays under the key its key path gives |
| BeatmapDatabase.NoChunksOf | src/resources/beatmap/database.ts:59-61 | the batches of other beatmaps add no chunk of a given beatmap |
| BeatmapDatabase.SongsAfterStores | src/resources/beatmap/database.ts:52-61 | a beatmap stored for the first time, with an id no other added beatmap shares, ends up with every chunk of its audio in `songs` under its own key |
| BeatmapDatabase.StaysStored | src/resources/beatmap/database.ts:59-61 | a chunk stored before the last batch is still stored after it |
| BeatmapDatabase.LastBatchStored | src/resources/beatmap/database.ts:59-61 | the last batch, with an id nothing earlier has, is stored whole |
| BeatmapDatabase.BeatmapsAfterAdds | src/resources/beatmap/database.ts:65-67 | the `beatmaps` store only gains entries, one under each added id |
| BeatmapDatabase.ChunkBeatmaps | src/resources/beatmap/database.ts:52-57 | one batch per beatmap: its audio sliced with `CHUNK_DURATION`, each chunk tagged with its id |
| BeatmapDatabase.SongsAfterStep | src/resources/beatmap/database.ts:59-61 | one more beatmap adds its batch to the store the earlier ones left, or leaves it when the transaction aborts |
| BeatmapDatabase.BeatmapsDatabase.constructor | src/resources/beatmap/database.ts:23-25 | a new database is not open and both stores are empty |
| BeatmapDatabase.BeatmapsDatabase.Open | src/resources/beatmap/database.ts:27-38 | `open()` makes the database usable and keeps what the stores hold |
| BeatmapDatabase.BeatmapsDatabase.RemoveItem | src/resources/beatmap/database.ts:72-75 | always fails: it is not implemented |
| BeatmapDatabase.BeatmapsDatabase.AddItem | src/resources/beatmap/database.ts:40-70 | as written, `addItem` succeeds exactly when it is given no file, and then adds nothing |
| BeatmapDatabase.BeatmapsDatabase.AddItemIntended | src/resources/beatmap/database.ts:40-70 | `songs` and `beatmaps` become the stores after each parsed beatmap's chunk batch and then each beatmap were added in order |
| BeatmapDatabase.BeatmapsDatabase.AddBatches | src/resources/beatmap/database.ts:59-61 | the chunk transactions, one per beatmap in order, leave `songs` as the batches fold it and touch nothing else |
| BeatmapDatabase.BeatmapsDatabase.AddBeatmaps | src/resources/beatmap/database.ts:65-67 | the beatmap transactions leave `beatmaps` as the adds fold it and touch nothing else |
| BeatmapDatabase.BeatmapsDatabase.GetAudioStream | src/resources/beatmap/database.ts:98-135 | the stream reads the beatmap's range from chunk `floor(offset/10)` on, with the trim rounded to hundredths, and has not started |
| BeatmapStore.RunLength | src/resources/beatmap/store.ts:135 | `.*` consumes a run that stays inside the text |
| BeatmapStore.RunEnds | src/resources/beatmap/store.ts:135 | the run holds no line terminator and stops at one or at the end of the text |
| BeatmapStore.RunOver | src/resources/beatmap/store.ts:135 | a run over a whole line is as long as that line |
| BeatmapStore.RunLengthSlice | src/resources/beatmap/store.ts:135 | a run inside a slice that ends at a line terminator equals the run in the whole text |
| BeatmapStore.LinesArePlain | src/resources/beatmap/store.ts:135-136 | every line `match(/^.*$/gm).filter(identity)` returns is non-empty and free of line terminators |
| BeatmapStore.BodyLength | src/resources/beatmap/store.ts:201 | the greedy `(\r\n.+)+` match stays inside the text |
| BeatmapStore.BodyEnd | src/resources/beatmap/store.ts:201 | a body that matched ends at the end of the text or at a line terminator |
| BeatmapStore.First | src/resources/beatmap/store.ts:201-203 | `exec` finds a position, within the scanned span, at which the expression matches |
| BeatmapStore.FirstIsFirst | src/resources/beatmap/store.ts:201-203 | `exec` finds the first matching position, and no match means none matches |
| BeatmapStore.FindSection | src/resources/beatmap/store.ts:201 | the section found starts with `[Name]` at a line start and a non-empty body after it |
| BeatmapStore.FindSectionFirst | src/resources/beatmap/store.ts:201 | the section found is the first position that matches, and none found means none matches |
| BeatmapStore.LinesAfterCrlf | src/resources/beatmap/store.ts:135 | line splitting passes over a CRLF and takes the line after it |
| BeatmapStore.BodyMatches | src/resources/beatmap/store.ts:201 | a body that matches starts with a CRLF and a non-empty line |
| BeatmapStore.BodyStep | src/resources/beatmap/store.ts:201 | a body is a CRLF, a non-empty line, then the rest of the body |
| BeatmapStore.BodyLinesAreLines | src/resources/beatmap/store.ts:201 | a text that is one whole body splits into exactly the lines the body passes over |
| BeatmapStore.BodyLengthSlice | src/resources/beatmap/store.ts:201 | a body keeps its length when the text is cut just after it |
| BeatmapStore.SectionValueIsBody | src/resources/beatmap/store.ts:197-204 | the value `findCategoryValue` returns is one whole, non-empty `(\r\n.+)+` body |
| BeatmapStore.SectionLines | src/resources/beatmap/store.ts:131-136 | the lines `extractHitObjects` reads from a category's value are the body's lines: non-empty, free of line terminators, in order |
| BeatmapStore.BodyAtEnd | src/resources/beatmap/store.ts:201 | no body matches where the section has ended |
| BeatmapStore.LineAt | src/resources/beatmap/store.ts:201 | a CRLF and a plain line that the end of the text or a CR follows is one step of a body |
| BeatmapStore.JoinThenEnd | src/resources/beatmap/store.ts:201 | what follows joined lines, if anything, starts with a CR |
| BeatmapStore.LineWritten | src/resources/beatmap/store.ts:201 | a line written after a CRLF is found at its place in the whole text |
| BeatmapStore.JoinSplit | src/resources/beatmap/store.ts:201 | the text with its first joined line split off |
| BeatmapStore.JoinStep | src/resources/beatmap/store.ts:201 | the first joined line is one step of the body |
| BeatmapStore.BodyOfJoin | src/resources/beatmap/store.ts:201 | plain lines joined with CRLF and followed by the end of a section are one whole body with exactly those lines |
| BeatmapStore.JoinedLines | src/resources/beatmap/store.ts:135-136 | plain lines joined with CRLF split back into the same lines |
| BeatmapStore.JoinedAlone | src/resources/beatmap/store.ts:201 | the joined lines alone are the text `CrlfJoin` writes |
| BeatmapStore.JoinedParts | src/resources/beatmap/store.ts:201 | the prefix and the joined lines can be read back out of the text |
| BeatmapStore.SectionOnFirstLine | src/resources/beatmap/store.ts:201 | a category header at the top of the text with a body after it is where the section is found |
| BeatmapStore.SectionAtTop | src/resources/beatmap/store.ts:197-204 | a section written as its header and CRLF-separated plain lines is found at the top, and its value is those lines joined |
| BeatmapStore.SectionRoundTrip | src/resources/beatmap/store.ts:197-204 | such a section reads back as exactly the lines it was written from |
| BeatmapStore.CategoryIn | src/resources/beatmap/store.ts:163-165 | the category found lists the property, and none found means no category lists it |
| BeatmapStore.CategoryOfListed | src/resources/beatmap/store.ts:163-167 | every property is listed under some category, so the category `assert` never throws |
| BeatmapStore.CategoryOfUnique | src/resources/beatmap/store.ts:55-69 | a property is listed under one category only: the one `findPropertyValue` finds |
| BeatmapStore.FindLine | src/resources/beatmap/store.ts:172-177 | the line found starts at a line start and begins with the key |
| BeatmapStore.FindLineFirst | src/resources/beatmap/store.ts:172-177 | no earlier line begins with the key, and none found means no line does |
| BeatmapStore.LineValueRestOfLine | src/resources/beatmap/store.ts:172-177 | the value is the whole rest of its line |
| BeatmapStore.LineValueAtTop | src/resources/beatmap/store.ts:172-177 | a key written at the top of the text reads back the rest of its line |
| BeatmapStore.GeneralPropertyAtTop | src/resources/beatmap/store.ts:170-173 | `General` properties are read from the first `Key: value` line, with one space after the colon |
| BeatmapStore.MetadataPropertyAtTop | src/resources/beatmap/store.ts:175-178 | `Metadata` and `Difficulty` properties are read from the first `Key:value` line; a space after the colon stays in the value |
| BeatmapStore.PropertyLookupSucceeds | src/resources/beatmap/store.ts:162-195 | a property lookup never throws: only its value can be missing |
| BeatmapStore.LastQuote | src/resources/beatmap/store.ts:186 | the last `"` in a span, or none |
| BeatmapStore.QuotePairOfLine | src/resources/beatmap/store.ts:186 | on a line `before"name"after` with no quote in name and tail, the greedy lookahead settles on the quotes around `name` |
| BeatmapStore.ImageOnSecondLine | src/resources/beatmap/store.ts:185-188 | the background comment on the second line of the value yields the image named on the line after it |
| BeatmapStore.BackgroundImageOfEvents | src/resources/beatmap/store.ts:180-191 | an `[Events]` body whose first line is the background comment and whose second is `before"name"after` yields `name` |
| BeatmapStore.Split | src/resources/beatmap/store.ts:142 | `split` with one separator gives at least one piece |
| BeatmapStore.SplitJoin | src/resources/beatmap/store.ts:142 | splitting loses nothing: the pieces hold no separator and join back into the text |
| BeatmapStore.JoinSplitPieces | src/resources/beatmap/store.ts:142 | separator-free pieces, joined, split back into themselves |
| BeatmapStore.SplitHead | src/resources/beatmap/store.ts:142 | the first piece is the text before the first separator |
| BeatmapStore.ParseFields | src/resources/beatmap/store.ts:142 | a line `x,y,time,type,hitSound,endTime:extras` reads back its first, third, fourth and sixth fields |
| BeatmapStore.JoinFree | src/resources/beatmap/store.ts:142 | joining pieces free of a character other than the separator leaves that character out |
| BeatmapStore.GetCol | src/resources/beatmap/store.ts:159-160 | the column is the floor of `x * n / 512`, and NaN whenever either input is NaN |
| BeatmapStore.GetColInRange | src/resources/beatmap/store.ts:159-160 | a position on the 512-wide playfield falls in one of the `n` columns |
| BeatmapStore.ColumnCount | src/resources/beatmap/store.ts:155 | `range(keysCount)` has `keysCount` entries for a non-negative whole number |
| BeatmapStore.ParseLines | src/resources/beatmap/store.ts:140-142 | every line is parsed, in order |
| BeatmapStore.ExtractHitObjects | src/resources/beatmap/store.ts:130-157 | the per-column pushing loop computes `extractHitObjects` |
| BeatmapStore.ReduceStep | src/resources/beatmap/store.ts:140-156 | one more line of the reduce applies the callback to the accumulator |
| BeatmapStore.ReduceFails | src/resources/beatmap/store.ts:150-151 | once the reduce throws on a prefix of the lines it throws the same on all of them |
| BeatmapStore.ReduceShape | src/resources/beatmap/store.ts:155 | a reduce that succeeds returns `range(keysCount).length` columns |
| BeatmapStore.ReduceFailsIff | src/resources/beatmap/store.ts:143-151 | the reduce throws exactly when some line maps to a column that does not exist |
| BeatmapStore.ReduceByColumn | src/resources/beatmap/store.ts:140-156 | when the reduce succeeds, column c holds the notes of the lines mapped to c in line order; lines with a NaN column contribute nothing |
| BeatmapStore.HitObjectsOfSection | src/resources/beatmap/store.ts:130-157 | a `[HitObjects]` section written at the top of the text is reduced line by line |
| BeatmapStore.NoHitObjectsSection | src/resources/beatmap/store.ts:138 | without a `[HitObjects]` section the `assert` throws |
| BeatmapStore.DigitFieldsFree | src/resources/beatmap/store.ts:142 | fields of decimal digits hold no separator |
| BeatmapStore.ParseNaturals | src/resources/beatmap/store.ts:142 | a line written with natural numbers reads back as those numbers |
| BeatmapStore.HoldNoteLine | src/resources/beatmap/store.ts:147-150 | a type-128 line on the playfield pushes a HEAD at its time and then a TAIL at its end time onto its column |
| JsNumbers.Trim | src/resources/beatmap/store.ts:143 | trimming leaves no white space at either end |
| JsNumbers.DotIndex | src/resources/beatmap/store.ts:143 | the first `.`, or the end when there is none |
| JsNumbers.ToNumber | src/resources/beatmap/store.ts:142-151 | `Number(undefined)` is NaN |
| JsNumbers.NatToString | src/resources/beatmap/store.ts:143 | the decimal notation of a natural number is a non-empty run of digits |
| JsNumbers.NatToStringValue | src/resources/beatmap/store.ts:143 | the decimal notation of n has value n |
| JsNumbers.NatRoundTrip | src/resources/beatmap/store.ts:143 | `Number(String(n)) === n` for every natural number |
| JsNumbers.UnsignedDigits | src/resources/beatmap/store.ts:143 | a plain run of digits reads as its decimal value |
| JsNumbers.NegativeRoundTrip | src/resources/beatmap/store.ts:143 | `Number("-" + String(n)) === -n` |
| JsNumbers.PaddingIgnored | src/resources/beatmap/store.ts:143 | white space around a literal does not change its value |
| JsNumbers.TrimPadded | src/resources/beatmap/store.ts:143 | trimming a padded text trims the text |
| JsNumbers.TrimTrailingSpace | src/resources/beatmap/store.ts:143 | a trailing space is trimmed away |
| JsNumbers.Round | src/resources/audio/store.ts:58 | `Math.round` is the nearest integer, halves rounded up |
| JudgementStore.Window | src/resources/judgement/store.ts:12-19 | every judgement window has a positive width |
| JudgementStore.WindowValues | src/resources/judgement/store.ts:1-19 | with OD 5 the windows are 16, 49, 82, 112, 136 and 173 |
| JudgementStore.WindowsWiden | src/resources/judgement/store.ts:12-19 | the windows widen strictly from PERFECT to MISS, in key order |
| JudgementStore.JudgementsListed | src/resources/judgement/store.ts:3-10 | every judgement is one of the keys |
| JudgementStore.LowerCase | src/resources/judgement/store.ts:25 | `toLowerCase` on ASCII text (the judgement names it is applied to): each ASCII capital becomes its small letter and everything else is kept, position by position |
| JudgementStore.ImgSrcParts | src/resources/judgement/store.ts:23-26 | the image path is the directory, the judgement's name in lower case, a dot and the extension |
| JudgementStore.GifIffPerfect | src/resources/judgement/store.ts:24 | the image is a gif exactly for PERFECT and a png for every other judgement |
| JudgementStore.MissImgSrc | src/resources/judgement/store.ts:23-26 | MISS's image is `/assets/judgment-scores/judgement_miss.png` |
| UseJudgement.WindowBounds | src/resources/judgement/useJudgement.ts:18-23 | a window of width `velocity * jw` centred on the column height |
| UseJudgement.WindowsNest | src/resources/judgement/useJudgement.ts:18-23 | with a non-negative velocity a position in one window lies in every wider window |
| UseJudgement.InWindowBounds | src/resources/judgement/useJudgement.ts:62 | with a non-negative velocity, being in a window is `top <= y < bottom + 1` |
| UseJudgement.Rank | src/resources/judgement/useJudgement.ts:61 | the position of a judgement among the window keys |
| UseJudgement.FirstWindowFrom | src/resources/judgement/useJudgement.ts:60-63 | the judgement found is the first, in key order, whose window holds the position, and none found means no window holds it |
| UseJudgement.VerdictIsFirst | src/resources/judgement/useJudgement.ts:60-63 | the verdict's window holds the position and no narrower one does; with no window holding it the verdict is MISS |
| UseJudgement.PerfectIffInnermost | src/resources/judgement/useJudgement.ts:60-63 | a note is judged PERFECT exactly when it lies in the PERFECT window |
| UseJudgement.Outcome | src/resources/judgement/useJudgement.ts:60-70 | the verdict, except that a TAIL released early becomes MEH unless it is a MISS |
| UseJudgement.FirstCandidate | src/resources/judgement/useJudgement.ts:40-43 | the note found is the first unjudged note inside the MISS window, and none found means there is none |
| UseJudgement.JudgementColumn.constructor | src/resources/judgement/useJudgement.ts:26-27 | a new column is judging no long note, has no early release and has published nothing |
| UseJudgement.JudgementColumn.Judge | src/resources/judgement/useJudgement.ts:59-79 | publishes the outcome at the given time, marks the note judged, and a TAIL ends the long note and clears the early release |
| UseJudgement.JudgementColumn.JudgeDeletedNote | src/resources/judgement/useJudgement.ts:29-35 | an already judged note changes nothing; otherwise a HEAD starts a long note, a TAIL ends it, and the note is judged |
| UseJudgement.JudgementColumn.OnKeyPress | src/resources/judgement/useJudgement.ts:37-57 | paused changes nothing; a press, or a release during a long note, publishes the outcome of the first candidate with the timestamp and marks it judged (a HEAD pressed starts a long note, a TAIL ends it and clears the early-release flag), and with no candidate a release records an early release; any other release changes nothing; no note moves and no other note's judged flag changes |
| Arrays.ToArray | src/utils/functions/toArray.ts:3 | an array comes back as it is, and a single value as a one-element array |
| Arrays.ToArrayIdempotent | src/utils/functions/toArray.ts:3 | applying `toArray` to its own result changes nothing |
| Arrays.ToArrayElements | src/utils/functions/toArray.ts:3 | the result holds every value the argument holds, and nothing else |
| Coalesce.Coalesce | src/utils/functions/coalesce.ts:1 | a present value is returned, and the fallback for null or undefined |
| Coalesce.FalsyKept | src/utils/functions/coalesce.ts:1 | unlike `\|\|`, `??` keeps a present 0, `false` or empty string |
| Coalesce.FallbackIffMissing | src/utils/functions/coalesce.ts:1 | the fallback is returned exactly when the value is null or undefined (for a fallback no present value equals) |
| JudgementService.Deliveries | src/resources/judgement/JudgementService.ts:18 | one call per registered callback, in registration order, each with the judgement |
| JudgementService.DeliveriesAppend | src/resources/judgement/JudgementService.ts:18-22 | callbacks registered later are called after those registered earlier |
| JudgementService.DeliveryCount | src/resources/judgement/JudgementService.ts:18 | each callback is called with the judgement as many times as it was registered |
| JudgementService.Service.constructor | src/resources/judgement/JudgementService.ts:15 | a new service has no callbacks and has made no calls |
| JudgementService.Service.Add | src/resources/judgement/JudgementService.ts:17-19 | `add` calls every registered callback once, in order, and registers nothing |
| JudgementService.Service.OnAdd | src/resources/judgement/JudgementService.ts:21-23 | `onAdd` appends one callback or an array of them, in order, and calls nothing |
| ScoreStore.HitValueFalls | src/resources/score/store.ts:7-44 | the hit value falls strictly from PERFECT (320) to MISS (0) |
| ScoreStore.BonusGainers | src/resources/score/store.ts:7-44 | only PERFECT and GREAT gain bonus, and exactly they are not punished |
| ScoreStore.MissWorthless | src/resources/score/store.ts:38-43 | MISS is worth nothing and is the only judgement with an infinite punishment |
| ScoreStore.Constants | src/resources/score/store.ts:46-50 | the bonus range is non-empty and the mods scale nothing |
| UseScore.Clamp | src/resources/score/useScore.ts:31-35 | lodash `clamp` lands in the range and keeps a value already in it |
| UseScore.NewBonusInRange | src/resources/score/useScore.ts:31-35 | whatever the bonus was, the new bonus is within [MIN_BONUS, MAX_BONUS] |
| UseScore.NewBonusExtremes | src/resources/score/useScore.ts:31-35 | a MISS drops the bonus to MIN_BONUS; a PERFECT at full bonus keeps it full |
| UseScore.NewBonusDirection | src/resources/score/useScore.ts:31-35 | from an in-range bonus, PERFECT and GREAT never lower it, and GOOD, OK and MEH lower it or leave it at MIN_BONUS |
| UseScore.BaseScore | src/resources/score/useScore.ts:22-27 | the base score is between 0 and half of MAX_SCORE per note, and 0 exactly for a MISS |
| UseScore.AllPerfectBase | src/resources/score/useScore.ts:22-27 | the base scores of an all-PERFECT play add up to half of MAX_SCORE |
| UseScore.BonusScore | src/resources/score/useScore.ts:36-39 | the bonus score is never negative, and 0 exactly for a MISS or an empty bonus |
| UseScore.PerfectAtFullBonus | src/resources/score/useScore.ts:22-44 | a PERFECT at full bonus earns MAX_SCORE divided by the note count, so an all-PERFECT play reaches MAX_SCORE |
| UseScore.ScoreTracker.constructor | src/resources/score/useScore.ts:19-20 | the score starts at 0 and the bonus full |
| UseScore.ScoreTracker.Update | src/resources/score/useScore.ts:42-46 | the bonus is updated and clamped, the score grows by the base and bonus scores, never decreases, and stays consistent |
| RGBColor.NewRGB | src/utils/classes/RGB.ts:9-17 | a colour built from components in [0, 256) holds exactly those components and is valid |
| RGBColor.InterpolateBetween | src/utils/classes/RGB.ts:20-21 | for a factor in [0, 1] the interpolated value lies between the two ends |
| RGBColor.Interpolate | src/utils/classes/RGB.ts:19-28 | an interpolation that passes the constructor's check is a valid colour |
| RGBColor.InterpolateInRange | src/utils/classes/RGB.ts:19-28 | between two valid colours every factor in [0, 1] passes the constructor's check |
| RGBColor.ExtrapolationFails | src/utils/classes/RGB.ts:10-28 | outside [0, 1] the check can fail: black and white at factor 2 give components of 510 |
| RGBColor.ToStringLayout | src/utils/classes/RGB.ts:30-32 | the text is `rgb(`, the three component texts separated by `, `, and `)`, each at its own offset |
| Colors.MultipliedValue | src/resources/colors/RGB.ts:33 | a multiplied component is an integer in [0, 255] |
| Colors.ClampRound | src/resources/colors/RGB.ts:33 | `clamp(Math.round(p), 0, 255)` lies in [0, 255] |
| Colors.Multiply | src/resources/colors/RGB.ts:30-36 | for a positive amount the result is valid and each component is the rounded, clamped product |
| Colors.MultipliedValueIsNearest | src/resources/colors/RGB.ts:33 | a multiplied component is the integer nearest `c * amount`, or 0 or 255 when that lies outside |
| Colors.MultiplyByOne | src/resources/colors/RGB.ts:30-36 | `multiply(1)` leaves a colour with integer components unchanged |
| Colors.IntegerRounds | src/resources/colors/RGB.ts:33 | an integer component in [0, 255] times 1 comes back unchanged |
| Colors.ClampRoundBounds | src/resources/colors/RGB.ts:33 | rounding and clamping keep an integer bound in [0, 255] on either side |
| Colors.MultiplyDirection | src/resources/colors/RGB.ts:30-36 | multiplying by at least 1 never darkens an integer component, and by at most 1 never brightens one |
| Colors.InterpolateEnds | src/resources/colors/RGB.ts:19-28 | `interpolate` at factor 0 gives the first colour and at factor 1 the second |
| Colors.FractionalAccepted | src/resources/colors/RGB.ts:10-12 | the constructor's check accepts a non-integer component such as 255.5 |
| PausableTimer.PausedStandsStill | src/utils/classes/Timer.ts:36-46 | while a pause is in progress the reported time stands still |
| PausableTimer.RunningAdvances | src/utils/classes/Timer.ts:36-46 | outside a pause the reported time advances with the clock |
| PausableTimer.StartReportsOffset | src/utils/classes/Timer.ts:14-46 | just after `start` the timer reports minus the offset |
| PausableTimer.RepeatedPause | src/utils/classes/Timer.ts:18-46 | pausing again overwrites the pause start, so the time between the two pauses counts as elapsed |
| PausableTimer.Timer.constructor | src/utils/classes/Timer.ts:4-12 | a new timer is neither started nor paused, with the given offset |
| PausableTimer.Timer.Start | src/utils/classes/Timer.ts:14-16 | the start time is now plus the offset, and the timer counts as started unless that is 0 |
| PausableTimer.Timer.Pause | src/utils/classes/Timer.ts:18-20 | the pause start becomes now, whatever it was, and the timer is paused |
| PausableTimer.Timer.Resume | src/utils/classes/Timer.ts:22-26 | the pause is added to the paused time, the timer is no longer paused, and from then on the clock runs on from where it stood |
| PausableTimer.Timer.Elapsed | src/utils/classes/Timer.ts:36-46 | reports the elapsed time at now; its update of the pause fields changes no reading at any time |
| BasicTimer.Timer.constructor | src/utils/Timer.ts:2 | a new timer has not started |
| BasicTimer.Timer.Start | src/utils/Timer.ts:4-6 | from then on `elapsed` is the time since now, unless now is 0, which leaves the timer unstarted |
| BasicTimer.Timer.Elapsed | src/utils/Timer.ts:12-15 | 0 before the start, and afterwards the time since the start |
| BasicTimer.ElapsedGrows | src/utils/Timer.ts:12-15 | a started timer's reading grows with the clock |
| ClampRef.ClampedInRange | src/composables/clampRef.ts:22 | with `min <= max` the stored value lies in [min, max] |
| ClampRef.ClampedKeeps | src/composables/clampRef.ts:22 | a value already in [min, max] is stored unchanged, and only such a value is |
| ClampRef.ClampedInverted | src/composables/clampRef.ts:22 | with `min > max` every value is stored as `min` |
| ClampRef.ClampedIdempotent | src/composables/clampRef.ts:22 | clamping a clamped value changes nothing |
| ClampRef.ClampedNumber.constructor | src/composables/clampRef.ts:8-15 | the initial value is stored unclamped, with the given bounds |
| ClampRef.ClampedNumber.WithSafeBounds | src/composables/clampRef.ts:10-13 | the default bounds are the safe-integer limits |
| ClampRef.ClampedNumber.Set | src/composables/clampRef.ts:21-24 | the stored value is the clamped new value, in range when the bounds are ordered, and a value already in range is read back unchanged |
| Notes.CanvasNote.constructor | src/resources/note/store.ts:16-19 | a new canvas note is at the given position, with the given type, not judged |

## Left out

- Decoding: `decodeAudioData` is not modelled, and neither are `AudioBufferSourceNode`, `AudioContext` and the Web Audio units behind `AudioGraphNode`. These are opaque ids or handles, and the calls made to them are recorded in ghost logs. `AudioBuffer`'s shape, its channel data and `copyToChannel` are modelled (`AudioStore.AudioBuffer`); `copyFromChannel` is read as the buffer's channel data.
- AudioStore.AudioChunkToAudioBuffer: the failure condition covers only the shape checks. The platform's other limits, a sample rate outside the supported range and more than 32 channels (a `NotSupportedError`), are not modelled, so the model builds a buffer where the platform would throw.
- AudioGraphs.AudioGraphNode.ConnectUndefined: the `undefined` entry is counted in the ghost `strays`, not stored in `outbounds`, so its position in the list and its effect on later walks over that list are not modelled.
- AudioStore.SliceIntoChunks: the sample rate and the chunk duration are whole numbers, so a full chunk is a whole number of frames. A fractional `sampleRate · chunkDuration` is not modelled. The program always uses a whole number of seconds (`CHUNK_DURATION`, 10).
- Samples are `Float32` bit patterns that are only copied. Apart from that, all numbers are exact reals, and floating-point rounding, `Infinity` and `-0` are not modelled. The only exceptions are the NaN of `Number()` and the infinite MISS punishment.
- IdbKeys.StrLess: strings compare by code point, not by UTF-16 code unit as IndexedDB does. The orders differ when a character above U+FFFF is compared with one in U+E000-U+FFFF (the code point sorts it last, its surrogate sorts it first).
- JsNumbers.StringToNumber: covers decimal literals only. Exponents, hexadecimal/binary/octal literals, `Infinity` and the Unicode space separators beyond those listed are not modelled.
- Microtask ordering between the stop closure and the `_startStream` loop is not modelled. The two awaits are input events of one sequential state machine, and the stop closure is one more event.
- IndexedDB plumbing is not modelled:
  - `SCIDBObjectStore._transaction`, `add` and `count`;
  - `SuperchargedIndexedDB.open` and its store creation;
  - versioning.
  Instead, a store is a sorted snapshot of records (`ObjectStore`). Writes are a map of keys (`BeatmapDatabase.BeatmapsDatabase`), and every transaction sees the same snapshot.
- BeatmapDatabase.BeatmapsDatabase.GetAudioStream: `getItem` is `ObjectStore.Get` on the chosen store and has no method of its own on the database.
- `oszToJson` and `getMediaAsBlobUrl` (src/resources/beatmap/store.ts:71-127) are not modelled: zip reading and Blob URLs. `addItem` receives the outcomes of parsing as a parameter.
- BeatmapDatabase.ParsedBeatmap: a parsed beatmap is taken to carry its decoded audio in `audioSource`. That field is an assumption of the model: `oszToJson` returns `{id, levels}` and keeps the audio as a Blob URL string in `levels[].audio.source`.
- `mapAsync` is not part of this model. `addItem` assumes it rejects as soon as one mapping rejects.
- UseScore.ScoreTracker.Update: `Math.sqrt` is not modelled. The caller passes the non-negative root of the updated bonus.
- UseScore.ScoreTracker.Update: `totalNotes` must be positive. With no notes the source divides by zero, and that is not modelled.
- UseJudgement.JudgementColumn.Judge: `useJudgement.ts` calls `judgementService.publish`, which `JudgementService.ts` does not define, so the event is appended to `published`. The event carries the judgement and the timer's elapsed time. `note_hit_t` is left out because the canvas note has no hit time.
- JudgementService.Service: the service imports `toArray` from `utils/toArray`. The model uses `utils/functions/toArray.ts` (`Arrays.ToArray`). Callbacks are ids. A callback that re-enters the service during `add` is not modelled.
- The game field's column height and velocity, the paused state and the timer are parameters of `UseJudgement`. The field store that should export them is not part of this model.
- Each `PausableTimer` and `BasicTimer` method reads `performance.now()` once, so every reading within one call is the same instant.
- Development-build assertions become preconditions and are not claimed to reject anything in production:
  - the RGB constructor (`RGBColor.NewRGB`);
  - `Colors.Multiply`'s positive amount;
  - `PausableTimer.Timer.Resume` and the pause time read by `Elapsed`;
  - the TAIL case of `UseJudgement.JudgementColumn.OnKeyPress`;
  - the open checks of `BeatmapDatabase.BeatmapsDatabase`.
- RGBColor.ToString: the numbers are written through a `fmt` parameter. JavaScript's number-to-string formatting is not modelled.
- ClampRef.ClampedNumber: Vue's `track`/`trigger` dependency tracking and NaN inputs are not modelled.
- AudioGraphs.AudioGraphNode.Disconnect: the forwarded unit `disconnect` is taken to succeed. The Web Audio unit throws an `InvalidAccessError` when the two units are not connected, and that failure is not modelled. The model's own lists reach it: an inbound left stale by the target's self-filter, the second visit of an inbound listed twice, and `insertNodeBetween` on a pair that is not connected.
- AudioGraphUtils.RemoveNode: its success condition covers only the list-level checks of `newConnection`. A unit `disconnect` that throws during either walk (the `InvalidAccessError` cases above) is not modelled; the walks are taken to complete.
- AudioGraphUtils.RemoveNode: the full postcondition assumes `node` is not its own neighbour. With a self-loop, the inbound walk skips entries in the same way, but this is not stated.
- `Notes.Note` only carries data. The UI composables, the settings persistence, `Subscribable` and the router are not part of this model.

## Findings

| source | as written | input that shows it | evidently intended | confidence | as-written member | corrected member |
|---|---|---|---|---|---|---|
| src/resources/beatmap/database.ts:46-57 | `fulfilledAndRejected` is applied to the results of `Promise.allSettled`, so every outcome counts as fulfilled and its value is the settled record. `beatmap.audioSource` is then read off that record, is undefined, and `blobToAudioChunks` rejects before anything is stored. Even read off the parsed beatmap the field would be missing: `oszToJson` returns `{id, levels}` (src/resources/beatmap/store.ts:13-16, 112), and the audio is a Blob URL string at `levels[].audio.source` (src/resources/beatmap/store.ts:102-103) | any non-empty list of files | settle the parsing once, then slice each parsed beatmap's audio into chunks tagged with its id and store the chunks and the beatmaps | not executed | BeatmapDatabase.BeatmapsDatabase.AddItem | BeatmapDatabase.BeatmapsDatabase.AddItemIntended |

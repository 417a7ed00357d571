/**
 * The beatmaps database of src/resources/beatmap/database.ts: audio is cut
 * into `CHUNK_DURATION`-second chunks and stored in the `songs` object store
 * under the compound key `[beatmapId, chunk]`; `getAudioStream` splits a
 * playback offset into a chunk index and a trim within that chunk, walks the
 * stored chunks of one beatmap from that index on with `where`, and hands
 * them to a `ReadableStream`, trimming only the first.
 */
module BeatmapDatabase {
  import opened Wrappers
  import opened IdbKeys
  import opened ObjectStore
  import opened AudioStore
  import opened Settlement

  /** `CHUNK_DURATION`, in seconds: used both to slice on insert and to split offsets on read. */
  const ChunkDuration: nat := 10

  // ---------------------------------------------------------------------
  // Splitting a playback offset

  /** `Math.floor(offset / CHUNK_DURATION)`: the index of the chunk holding `offset`. */
  function ChunkOffset(offset: real): (c: int)
    ensures (c * ChunkDuration) as real <= offset < ((c + 1) * ChunkDuration) as real
  {
    (offset / 10.0).Floor
  }

  /** Conversion toward zero, as `%` on numbers uses it. */
  function Trunc(x: real): (n: int)
    ensures 0.0 <= x ==> n as real <= x < n as real + 1.0
    ensures x < 0.0 ==> n as real - 1.0 < x <= n as real
  {
    if x >= 0.0 then x.Floor else -((-x).Floor)
  }

  /** `offset % CHUNK_DURATION`: the remainder takes the sign of `offset`. */
  function ChunkRemainder(offset: real): (r: real)
    ensures 0.0 <= offset ==> 0.0 <= r < 10.0
    ensures offset < 0.0 ==> -10.0 < r <= 0.0
  {
    offset - 10.0 * Trunc(offset / 10.0) as real
  }

  /**
   * `Number(x.toFixed(2))`: the nearest multiple of 0.01, a tie going away
   * from zero; a negative number is rendered as "-" and its magnitude.
   */
  function ToFixed2(x: real): (r: real)
    ensures -0.005 <= r - x <= 0.005
    ensures 0.0 <= x ==> 0.0 <= r
  {
    if x < 0.0 then -Hundredths(-x) else Hundredths(x)
  }

  function Hundredths(x: real): (r: real)
    requires 0.0 <= x
    ensures -0.005 < r - x <= 0.005 && 0.0 <= r
  {
    (x * 100.0 + 0.5).Floor as real / 100.0
  }

  /** `offsetWithinChunk`: the remainder rounded to hundredths of a second. */
  function OffsetWithinChunk(offset: real): real {
    ToFixed2(ChunkRemainder(offset))
  }

  /**
   * For a non-negative offset the trim lies in [0, 10] and within half a
   * hundredth of the distance from the start of chunk `ChunkOffset(offset)`.
   */
  lemma WithinChunkBounds(offset: real)
    requires 0.0 <= offset
    ensures var w := OffsetWithinChunk(offset);
      && 0.0 <= w <= 10.0
      && -0.005 <= w - (offset - (ChunkOffset(offset) * ChunkDuration) as real) <= 0.005
  {
    var rem := ChunkRemainder(offset);
    assert Trunc(offset / 10.0) == ChunkOffset(offset);
    var w := OffsetWithinChunk(offset);
    assert (rem * 100.0 + 0.5).Floor <= 1000 by {
      assert rem * 100.0 + 0.5 < 1000.5;
    }
    assert w <= 10.0;
  }

  /**
   * An offset given in whole hundredths of a second splits exactly: the trim
   * is the offset less the chunk start, and so stays below a whole chunk.
   */
  lemma HundredthsSplitExactly(n: nat)
    ensures var offset := n as real / 100.0;
      && ChunkOffset(offset) == n / 1000
      && OffsetWithinChunk(offset) == (n % 1000) as real / 100.0
      && OffsetWithinChunk(offset) < 10.0
  {
    var offset := n as real / 100.0;
    var q, m := n / 1000, n % 1000;
    assert offset == (q * 10) as real + m as real / 100.0;
    assert ChunkOffset(offset) == q by {
      assert q as real <= offset / 10.0 < q as real + 1.0;
    }
    assert Trunc(offset / 10.0) == q;
    var rem := ChunkRemainder(offset);
    assert rem == m as real / 100.0;
    assert (rem * 100.0 + 0.5).Floor == m by {
      assert rem * 100.0 + 0.5 == m as real + 0.5;
    }
  }

  /**
   * Rounding can reach a whole chunk: 9.996 s falls in chunk 0 yet its trim
   * rounds to 10.00, a whole chunk's duration.
   */
  lemma TrimRoundsToWholeChunk()
    ensures ChunkOffset(9.996) == 0 && OffsetWithinChunk(9.996) == 10.0
  {
    assert (9.996 / 10.0).Floor == 0;
    assert ChunkRemainder(9.996) == 9.996;
    assert (9.996 * 100.0 + 0.5).Floor == 1000;
  }

  /** Trimming 10.00 s off a full chunk leaves no frame at all in any channel. */
  lemma WholeChunkTrimEmpties(chunk: AudioChunk)
    requires chunk.length == ChunkLength(chunk.sampleRate, ChunkDuration)
    requires forall c :: 0 <= c < |chunk.channels| ==> |chunk.channels[c]| == chunk.length
    ensures var r := OffsetAudioChunk(chunk, 10.0);
      r.length == 0 && forall c :: 0 <= c < |r.channels| ==> r.channels[c] == []
  {
    assert FrameOffset(chunk, 10.0) == chunk.length;
  }

  // ---------------------------------------------------------------------
  // Keys of the `songs` store

  /** A `songs` key: the key path `["beatmapId", "chunk"]` applied to a chunk. */
  function SongKey(beatmapId: string, chunk: int): Key {
    Arr([Str(beatmapId), Num(chunk as real)])
  }

  function KeyOf(c: AudioChunk): Key {
    SongKey(c.beatmapId, c.chunk)
  }

  /** `[beatmapId, []]`: an array sorts above every number, so this is above every chunk of the beatmap. */
  function SongUpper(beatmapId: string): Key {
    Arr([Str(beatmapId), Arr([])])
  }

  /**
   * `IDBKeyRange.bound([beatmapId, chunkOffset], [beatmapId, []])`: the bound
   * never throws, since the lower key sorts below the upper.
   */
  function SongRange(beatmapId: string, chunkOffset: int): (r: KeyRange)
    ensures Bound(SongKey(beatmapId, chunkOffset), SongUpper(beatmapId), false, false) == Some(r)
  {
    var lo, hi := SongKey(beatmapId, chunkOffset), SongUpper(beatmapId);
    assert lo.items[1..] == [Num(chunkOffset as real)] && hi.items[1..] == [Arr([])];
    assert SeqLess(lo.items[1..], hi.items[1..]);
    assert Less(lo, hi);
    KeyRange(Some(SongKey(beatmapId, chunkOffset)), Some(SongUpper(beatmapId)), false, false)
  }

  /** Two keys of the same beatmap compare by chunk index. */
  lemma SameBeatmapOrder(id: string, a: int, b: int)
    ensures Less(SongKey(id, a), SongKey(id, b)) <==> a < b
  {
    var x, y := [Str(id), Num(a as real)], [Str(id), Num(b as real)];
    assert x[1..] == [Num(a as real)] && y[1..] == [Num(b as real)];
    assert SeqLess(x, y) == SeqLess(x[1..], y[1..]);
  }

  /** The range holds exactly the keys of that beatmap whose chunk index is at least `chunkOffset`. */
  lemma InSongRange(id: string, chunkOffset: int, id2: string, n: int)
    ensures InRange(SongKey(id2, n), SongRange(id, chunkOffset)) <==> id2 == id && chunkOffset <= n
  {
    var k := SongKey(id2, n);
    var lo, hi := SongKey(id, chunkOffset), SongUpper(id);
    assert k.items[1..] == [Num(n as real)];
    assert lo.items[1..] == [Num(chunkOffset as real)];
    assert hi.items[1..] == [Arr([])];
    if id2 == id {
      SameBeatmapOrder(id, chunkOffset, n);
      assert SeqLess([Num(n as real)], [Arr([])]);
      assert Less(k, hi);
    } else {
      assert Less(lo, k) == Less(Str(id), Str(id2));
      assert Less(k, hi) == Less(Str(id2), Str(id));
      if Less(Str(id), Str(id2)) {
        LessAsymmetric(Str(id), Str(id2));
      }
    }
  }

  /** The store of chunks as a sorted snapshot: every record holds a chunk, under that chunk's key. */
  ghost predicate SongStore(store: seq<Record<AudioChunk>>) {
    && Sorted(store)
    && forall j :: 0 <= j < |store| ==> store[j].value.Some? && store[j].key == KeyOf(store[j].value.value)
  }

  /** No chunk key equals the range's upper bound `[beatmapId, []]`. */
  lemma NoSongAtUpper(store: seq<Record<AudioChunk>>, id: string, chunkOffset: int)
    requires SongStore(store)
    ensures NothingAtUpper(store, SongRange(id, chunkOffset))
  {
    forall j | 0 <= j < |store|
      ensures store[j].key != SongUpper(id)
    {
      assert store[j].key.items[1] != SongUpper(id).items[1];
    }
  }

  // ---------------------------------------------------------------------
  // What `getAudioStream` reads

  /** The stored chunks of beatmap `id` with index at least `chunkOffset`, from index `p` of the store on, in store order. */
  function ChunksFrom(store: seq<Record<AudioChunk>>, id: string, chunkOffset: int, p: nat): seq<AudioChunk>
    requires p <= |store|
    decreases |store| - p
  {
    if p == |store| then []
    else
      var here := match store[p].value
        case Some(v) => if v.beatmapId == id && chunkOffset <= v.chunk then [v] else []
        case None => [];
      here + ChunksFrom(store, id, chunkOffset, p + 1)
  }

  lemma {:induction false} ExpectedIsChunksFrom(store: seq<Record<AudioChunk>>, id: string, chunkOffset: int, p: nat)
    requires SongStore(store) && p <= |store|
    ensures Expected(store, SongRange(id, chunkOffset), p) == ChunksFrom(store, id, chunkOffset, p)
    decreases |store| - p
  {
    if p < |store| {
      var v := store[p].value.value;
      InSongRange(id, chunkOffset, v.beatmapId, v.chunk);
      ExpectedIsChunksFrom(store, id, chunkOffset, p + 1);
    }
  }

  /**
   * The `where` run of `getAudioStream` yields exactly the stored chunks of
   * the beatmap from `chunkOffset` on, and returns rather than hanging.
   */
  lemma StoredChunksStreamed(store: seq<Record<AudioChunk>>, id: string, chunkOffset: int)
    requires SongStore(store)
    ensures WhereFrom(store, SongRange(id, chunkOffset), 0) == WhereRun(ChunksFrom(store, id, chunkOffset, 0), false)
  {
    NoSongAtUpper(store, id, chunkOffset);
    WhereYieldsRange(store, SongRange(id, chunkOffset));
    ExpectedIsChunksFrom(store, id, chunkOffset, 0);
  }

  /** Chunk indices strictly increase along a sequence. */
  predicate Ascending(s: seq<AudioChunk>) {
    forall a, b :: 0 <= a < b < |s| ==> s[a].chunk < s[b].chunk
  }

  /** Every chunk of the beatmap stored after index `q` has a higher index than the one at `q`. */
  lemma {:induction false} ChunksAfter(store: seq<Record<AudioChunk>>, id: string, chunkOffset: int, q: nat, p: nat)
    requires SongStore(store) && q < p <= |store| && store[q].value.value.beatmapId == id
    ensures forall k :: 0 <= k < |ChunksFrom(store, id, chunkOffset, p)| ==>
      store[q].value.value.chunk < ChunksFrom(store, id, chunkOffset, p)[k].chunk
    decreases |store| - p
  {
    if p < |store| {
      ChunksAfter(store, id, chunkOffset, q, p + 1);
      var v := store[p].value.value;
      if v.beatmapId == id {
        assert OrderedAt(store, q, p);
        SameBeatmapOrder(id, store[q].value.value.chunk, v.chunk);
      }
    }
  }

  /** Only chunks of beatmap `id` at index `chunkOffset` or above are read. */
  lemma {:induction false} ChunksFromBeatmap(store: seq<Record<AudioChunk>>, id: string, chunkOffset: int, p: nat)
    requires p <= |store|
    ensures forall k :: 0 <= k < |ChunksFrom(store, id, chunkOffset, p)| ==>
      ChunksFrom(store, id, chunkOffset, p)[k].beatmapId == id && chunkOffset <= ChunksFrom(store, id, chunkOffset, p)[k].chunk
    decreases |store| - p
  {
    if p < |store| {
      ChunksFromBeatmap(store, id, chunkOffset, p + 1);
      var rest := ChunksFrom(store, id, chunkOffset, p + 1);
      var s := ChunksFrom(store, id, chunkOffset, p);
      if s != rest {
        var v := store[p].value.value;
        assert s == [v] + rest && v.beatmapId == id && chunkOffset <= v.chunk;
        forall k | 0 < k < |s| ensures s[k] == rest[k - 1] {
        }
      }
    }
  }

  /** The chunks are read in strictly increasing index order. */
  lemma {:induction false} ChunksFromAscending(store: seq<Record<AudioChunk>>, id: string, chunkOffset: int, p: nat)
    requires SongStore(store) && p <= |store|
    ensures Ascending(ChunksFrom(store, id, chunkOffset, p))
    decreases |store| - p
  {
    if p < |store| {
      ChunksFromAscending(store, id, chunkOffset, p + 1);
      var v := store[p].value.value;
      if v.beatmapId == id && chunkOffset <= v.chunk {
        ChunksAfter(store, id, chunkOffset, p, p + 1);
      }
    }
  }

  /** Every stored chunk of beatmap `id` at index `chunkOffset` or above, from index `p` on, is read. */
  lemma {:induction false} ChunksFromComplete(store: seq<Record<AudioChunk>>, id: string, chunkOffset: int, p: nat)
    requires SongStore(store) && p <= |store|
    ensures forall j :: p <= j < |store| && store[j].value.value.beatmapId == id && chunkOffset <= store[j].value.value.chunk ==>
      store[j].value.value in ChunksFrom(store, id, chunkOffset, p)
    decreases |store| - p
  {
    if p < |store| {
      ChunksFromComplete(store, id, chunkOffset, p + 1);
    }
  }

  // ---------------------------------------------------------------------
  // The `ReadableStream` source

  /** `offsetWithinChunk ? offsetAudioChunk(chunk, offsetWithinChunk) : chunk`. */
  function Trim(chunk: AudioChunk, offsetWithinChunk: real): AudioChunk {
    if offsetWithinChunk != 0.0 then OffsetAudioChunk(chunk, offsetWithinChunk) else chunk
  }

  /** What the stream emits for the chunks it reads: the first trimmed, the rest as read. */
  function Emitted(chunks: seq<AudioChunk>, offsetWithinChunk: real): seq<AudioChunk> {
    if chunks == [] then [] else [Trim(chunks[0], offsetWithinChunk)] + chunks[1..]
  }

  /** Unfolding `Emitted` once. */
  lemma FirstTrimmed(chunks: seq<AudioChunk>, offsetWithinChunk: real)
    ensures chunks == [] ==> Emitted(chunks, offsetWithinChunk) == []
    ensures chunks != [] ==> Emitted(chunks, offsetWithinChunk) == [Trim(chunks[0], offsetWithinChunk)] + chunks[1..]
  {
  }

  /**
   * Only the first emitted chunk differs from what was read; it keeps its
   * beatmap and index, and it is left whole when the trim is zero.
   */
  lemma OnlyFirstTrimmed(chunks: seq<AudioChunk>, offsetWithinChunk: real)
    ensures var e := Emitted(chunks, offsetWithinChunk);
      && |e| == |chunks|
      && (forall k :: 0 < k < |e| ==> e[k] == chunks[k])
      && (forall k :: 0 <= k < |e| ==> e[k].beatmapId == chunks[k].beatmapId && e[k].chunk == chunks[k].chunk)
      && (|e| > 0 && offsetWithinChunk == 0.0 ==> e[0] == chunks[0])
      && (|e| > 0 && offsetWithinChunk != 0.0 ==> e[0] == OffsetAudioChunk(chunks[0], offsetWithinChunk))
  {
  }

  /**
   * The whole stream for `getAudioStream(id, offset)`: chunks of that beatmap
   * only, from chunk `ChunkOffset(offset)` on, in increasing index order,
   * every stored one of them, and only the first trimmed.
   */
  lemma StreamedChunks(store: seq<Record<AudioChunk>>, id: string, offset: real)
    requires SongStore(store)
    ensures var read := ChunksFrom(store, id, ChunkOffset(offset), 0);
      var e := Emitted(read, OffsetWithinChunk(offset));
      && |e| == |read|
      && (forall k :: 0 <= k < |e| ==> e[k].beatmapId == id && ChunkOffset(offset) <= e[k].chunk)
      && (forall a, b :: 0 <= a < b < |e| ==> e[a].chunk < e[b].chunk)
      && (forall j :: 0 <= j < |store| && store[j].value.value.beatmapId == id && ChunkOffset(offset) <= store[j].value.value.chunk ==>
            store[j].value.value in read)
      && (forall k :: 0 < k < |e| ==> e[k] == read[k])
  {
    var read := ChunksFrom(store, id, ChunkOffset(offset), 0);
    ChunksFromBeatmap(store, id, ChunkOffset(offset), 0);
    ChunksFromAscending(store, id, ChunkOffset(offset), 0);
    ChunksFromComplete(store, id, ChunkOffset(offset), 0);
    OnlyFirstTrimmed(read, OffsetWithinChunk(offset));
  }

  /**
   * The generator of `getAudioStream` has passed the records before index
   * `p`, the last of them in its range.
   */
  ghost predicate Reading(store: seq<Record<AudioChunk>>, id: string, chunkOffset: int, p: nat) {
    && SongStore(store) && p <= |store|
    && (p > 0 ==> InRange(store[p - 1].key, SongRange(id, chunkOffset)))
  }

  /**
   * One `chunkGenerator.next()` from index `p`: the generator returns when
   * nothing is left to read, and otherwise yields the next chunk to read
   * and moves its range past record `i`.
   */
  lemma PullStep(store: seq<Record<AudioChunk>>, id: string, chunkOffset: int, p: nat) returns (i: nat)
    requires Reading(store, id, chunkOffset, p)
    ensures var q := SongRange(id, chunkOffset);
      var rest := ChunksFrom(store, id, chunkOffset, p);
      && (rest == [] ==> StepOf(store, q, Cur(store, q, p)) == Done)
      && (rest != [] ==>
            && StepOf(store, q, Cur(store, q, p)) == Yield(rest[0])
            && p <= i < |store| && InRange(store[i].key, q)
            && NextRange(store, q, Cur(store, q, p)) == Cur(store, q, i + 1)
            && ChunksFrom(store, id, chunkOffset, i + 1) == rest[1..])
  {
    var q := SongRange(id, chunkOffset);
    WhereFromChunks(store, id, chunkOffset, p);
    StepAt(store, q, p);
    var step := StepOf(store, q, Cur(store, q, p));
    if step.Yield? {
      i := FirstFrom(store, Cur(store, q, p), 0).value;
      assert InRange(store[i].key, q) by {
        NoSongAtUpper(store, id, chunkOffset);
        CurAgrees(store, q, p);
      }
      WhereFromChunks(store, id, chunkOffset, i + 1);
    } else {
      i := 0;
    }
  }

  /** From a position just past an in-range record, the rest of the run is the chunks still to read. */
  lemma WhereFromChunks(store: seq<Record<AudioChunk>>, id: string, chunkOffset: int, p: nat)
    requires Reading(store, id, chunkOffset, p)
    ensures WhereFrom(store, SongRange(id, chunkOffset), p) == WhereRun(ChunksFrom(store, id, chunkOffset, p), false)
  {
    NoSongAtUpper(store, id, chunkOffset);
    WhereFromExpected(store, SongRange(id, chunkOffset), p);
    ExpectedIsChunksFrom(store, id, chunkOffset, p);
  }

  /**
   * The `ReadableStream` of `getAudioStream`: `start` and `pull` each take
   * one step of `chunkGenerator` and either close the stream or enqueue the
   * chunk, `start` trimming it by `offsetWithinChunk`. `queue` is what has
   * been enqueued so far; `pos` is how far into the store the generator has
   * read.
   */
  class AudioChunkStream {
    const cursor: WhereCursor<AudioChunk>
    const offsetWithinChunk: real
    ghost const beatmapId: string
    ghost const chunkOffset: int
    ghost const emission: seq<AudioChunk>
    var queue: seq<AudioChunk>
    var closed: bool
    var started: bool
    ghost var pos: nat

    /** Every chunk the stream will read, in order. */
    ghost function All(): seq<AudioChunk> {
      ChunksFrom(cursor.store, beatmapId, chunkOffset, 0)
    }

    /** The chunks not read yet. */
    ghost function Remaining(): seq<AudioChunk>
      reads this
      requires pos <= |cursor.store|
    {
      ChunksFrom(cursor.store, beatmapId, chunkOffset, pos)
    }

    ghost predicate Valid()
      reads this, cursor
    {
      && Reading(cursor.store, beatmapId, chunkOffset, pos)
      && cursor.query == SongRange(beatmapId, chunkOffset)
      && (closed ==> cursor.returned && Remaining() == [])
      && (!closed ==> !cursor.returned && !cursor.hung && cursor.current == Cur(cursor.store, cursor.query, pos))
      && (!started ==> !closed && pos == 0 && queue == [])
      && (!started ==> emission == Emitted(All(), offsetWithinChunk))
      && (started ==> queue + Remaining() == emission)
    }

    constructor (cursor: WhereCursor<AudioChunk>, offsetWithinChunk: real, ghost beatmapId: string, ghost chunkOffset: int)
      requires SongStore(cursor.store) && cursor.query == SongRange(beatmapId, chunkOffset)
      requires cursor.current == cursor.query && !cursor.returned && !cursor.hung
      ensures this.cursor == cursor && this.offsetWithinChunk == offsetWithinChunk
      ensures this.beatmapId == beatmapId && this.chunkOffset == chunkOffset
      ensures Valid() && !started && !closed && queue == []
    {
      this.cursor := cursor;
      this.offsetWithinChunk := offsetWithinChunk;
      this.beatmapId := beatmapId;
      this.chunkOffset := chunkOffset;
      emission := Emitted(ChunksFrom(cursor.store, beatmapId, chunkOffset, 0), offsetWithinChunk);
      queue := [];
      closed := false;
      started := false;
      pos := 0;
    }

    /** `start(controller)`: close on an exhausted generator, else enqueue the first chunk, trimmed. */
    method Start()
      requires Valid() && !started
      modifies this, cursor
      ensures Valid() && started
      ensures All() == [] ==> closed && queue == []
      ensures All() != [] ==> !closed && queue == [Trim(All()[0], offsetWithinChunk)]
    {
      ghost var i := StartEmits(cursor.store, beatmapId, chunkOffset, offsetWithinChunk, emission);
      var step := cursor.Next();
      started := true;
      match step
      case Done =>
        closed := true;
      case Yield(chunk) =>
        queue := queue + [Trim(chunk, offsetWithinChunk)];
        pos := i + 1;
      case Hang =>
        assert false;
    }

    /**
     * `pull(controller)`: close on an exhausted generator, else enqueue the
     * next chunk untouched. Once closed, everything emitted is `Emitted(All())`.
     */
    method Pull()
      requires Valid() && started && !closed
      modifies this, cursor
      ensures Valid()
      ensures old(Remaining()) == [] ==> closed && queue == old(queue)
      ensures old(Remaining()) != [] ==> !closed && queue == old(queue) + [old(Remaining())[0]]
      ensures closed ==> queue == emission
    {
      ghost var i := PullAppends(cursor.store, beatmapId, chunkOffset, pos, queue, emission);
      var step := cursor.Next();
      match step
      case Done =>
        closed := true;
      case Yield(chunk) =>
        queue := queue + [chunk];
        pos := i + 1;
      case Hang =>
        assert false;
    }
  }

  /**
   * `PullStep` for the first read: with nothing read yet, the stream either
   * finds nothing and emits nothing, or emits the first chunk trimmed, and
   * the chunks still to read complete the emission.
   */
  lemma StartEmits(store: seq<Record<AudioChunk>>, id: string, chunkOffset: int, w: real, emission: seq<AudioChunk>)
    returns (i: nat)
    requires Reading(store, id, chunkOffset, 0)
    requires emission == Emitted(ChunksFrom(store, id, chunkOffset, 0), w)
    ensures var q := SongRange(id, chunkOffset);
      var step := StepOf(store, q, Cur(store, q, 0));
      var all := ChunksFrom(store, id, chunkOffset, 0);
      && !step.Hang?
      && (step.Done? ==> all == [] && emission == [])
      && (step.Yield? ==>
            && i < |store| && Reading(store, id, chunkOffset, i + 1)
            && NextRange(store, q, Cur(store, q, 0)) == Cur(store, q, i + 1)
            && all != [] && all[0] == step.value
            && [Trim(step.value, w)] + ChunksFrom(store, id, chunkOffset, i + 1) == emission)
  {
    var all := ChunksFrom(store, id, chunkOffset, 0);
    i := PullStep(store, id, chunkOffset, 0);
    FirstTrimmed(all, w);
  }

  /**
   * `PullStep` seen from the stream: with `queue` followed by the chunks
   * still to read making up `all`, a pull either finds nothing left, and
   * `queue` is `all`, or appends the next chunk and keeps that balance.
   */
  lemma PullAppends(store: seq<Record<AudioChunk>>, id: string, chunkOffset: int, p: nat, queue: seq<AudioChunk>, all: seq<AudioChunk>)
    returns (i: nat)
    requires Reading(store, id, chunkOffset, p)
    requires queue + ChunksFrom(store, id, chunkOffset, p) == all
    ensures var q := SongRange(id, chunkOffset);
      var step := StepOf(store, q, Cur(store, q, p));
      && !step.Hang?
      && (step.Done? ==> ChunksFrom(store, id, chunkOffset, p) == [] && queue == all)
      && (step.Yield? ==>
            && p <= i < |store| && Reading(store, id, chunkOffset, i + 1)
            && NextRange(store, q, Cur(store, q, p)) == Cur(store, q, i + 1)
            && ChunksFrom(store, id, chunkOffset, p) == [step.value] + ChunksFrom(store, id, chunkOffset, i + 1)
            && (queue + [step.value]) + ChunksFrom(store, id, chunkOffset, i + 1) == all)
  {
    var rest := ChunksFrom(store, id, chunkOffset, p);
    i := PullStep(store, id, chunkOffset, p);
    if rest != [] {
      assert rest == [rest[0]] + rest[1..];
    } else {
      assert queue + rest == queue;
    }
  }

  // ---------------------------------------------------------------------
  // The database

  /** A parsed beatmap together with its decoded audio; its levels are not part of this model. */
  datatype ParsedBeatmap = ParsedBeatmap(id: string, audioSource: DecodedAudio)

  /** Each `songs` entry sits under the key its key path gives. */
  ghost predicate KeyedByPath(songs: map<Key, AudioChunk>) {
    forall k | k in songs :: k == KeyOf(songs[k])
  }

  /** A snapshot of the `songs` store as `where` reads it: its entries in key order. */
  ghost predicate SnapshotOf(snapshot: seq<Record<AudioChunk>>, songs: map<Key, AudioChunk>) {
    && Sorted(snapshot)
    && (forall j :: 0 <= j < |snapshot| ==> snapshot[j].key in songs && snapshot[j].value == Some(songs[snapshot[j].key]))
    && (forall k | k in songs :: exists j :: 0 <= j < |snapshot| && snapshot[j].key == k)
  }

  /** The chunks `addItem` stores for one beatmap: its audio sliced by `CHUNK_DURATION`, each tagged with its id. */
  function ChunksFor(b: ParsedBeatmap): seq<AudioChunk>
    requires b.audioSource.Valid()
  {
    var chunks := SliceIntoChunks(b.audioSource.channels, b.audioSource.length, b.audioSource.numberOfChannels,
                                  b.audioSource.sampleRate, ChunkDuration);
    Tag(b.id, chunks)
  }

  /** `{...chunk, beatmapId}` for each chunk. */
  function Tag(beatmapId: string, chunks: seq<UntaggedChunk>): seq<AudioChunk> {
    seq(|chunks|, i requires 0 <= i < |chunks| =>
      AudioChunk(beatmapId, chunks[i].chunk, chunks[i].channels, chunks[i].length, chunks[i].numberOfChannels, chunks[i].sampleRate))
  }

  /**
   * Every stored chunk of a beatmap carries the beatmap's id and its own
   * position as index, so the keys of one beatmap's chunks are distinct.
   */
  lemma TaggedChunks(b: ParsedBeatmap)
    requires b.audioSource.Valid()
    ensures var batch := ChunksFor(b);
      && |batch| == ChunkCount(b.audioSource.length, ChunkLength(b.audioSource.sampleRate, ChunkDuration))
      && (forall i :: 0 <= i < |batch| ==> batch[i].beatmapId == b.id && batch[i].chunk == i)
      && (forall i :: 0 <= i < |batch| ==> batch[i].sampleRate == b.audioSource.sampleRate)
      && (forall i, j :: 0 <= i < j < |batch| ==> KeyOf(batch[i]) != KeyOf(batch[j]))
  {
  }

  /**
   * `objectStore.add(items)`: one readwrite transaction adding each item in
   * turn; a key already present aborts it and undoes every add (`None`).
   */
  function AddBatch(songs: map<Key, AudioChunk>, batch: seq<AudioChunk>): Option<map<Key, AudioChunk>>
    decreases |batch|
  {
    if batch == [] then Some(songs)
    else if KeyOf(batch[0]) in songs then None
    else AddBatch(songs[KeyOf(batch[0]) := batch[0]], batch[1..])
  }

  /** The keys a batch adds. */
  function BatchKeys(batch: seq<AudioChunk>): set<Key> {
    set i | 0 <= i < |batch| :: KeyOf(batch[i])
  }

  /**
   * The transaction commits exactly when no key of the batch is stored
   * already or repeated within the batch.
   */
  lemma {:induction false} AddBatchCommits(songs: map<Key, AudioChunk>, batch: seq<AudioChunk>)
    ensures AddBatch(songs, batch).Some? <==>
      && (forall i :: 0 <= i < |batch| ==> KeyOf(batch[i]) !in songs)
      && (forall i, j :: 0 <= i < j < |batch| ==> KeyOf(batch[i]) != KeyOf(batch[j]))
    decreases |batch|
  {
    if batch != [] && KeyOf(batch[0]) !in songs {
      AddBatchCommits(songs[KeyOf(batch[0]) := batch[0]], batch[1..]);
      assert forall i :: 1 <= i < |batch| ==> batch[i] == batch[1..][i - 1];
    }
  }

  /** A committed batch adds every chunk under its key and keeps every stored entry. */
  lemma {:induction false} AddBatchContents(songs: map<Key, AudioChunk>, batch: seq<AudioChunk>)
    requires AddBatch(songs, batch).Some?
    ensures var r := AddBatch(songs, batch).value;
      && r.Keys == songs.Keys + BatchKeys(batch)
      && (forall k | k in songs :: r[k] == songs[k])
      && (forall i :: 0 <= i < |batch| ==> r[KeyOf(batch[i])] == batch[i])
    decreases |batch|
  {
    if batch != [] {
      AddBatchContents(songs[KeyOf(batch[0]) := batch[0]], batch[1..]);
      BatchKeysCons(batch);
      assert forall i :: 1 <= i < |batch| ==> batch[i] == batch[1..][i - 1];
    }
  }

  lemma BatchKeysCons(batch: seq<AudioChunk>)
    requires batch != []
    ensures BatchKeys(batch) == {KeyOf(batch[0])} + BatchKeys(batch[1..])
  {
    forall k | k in BatchKeys(batch) ensures k in {KeyOf(batch[0])} + BatchKeys(batch[1..]) {
      var i :| 0 <= i < |batch| && k == KeyOf(batch[i]);
      if i > 0 { assert KeyOf(batch[1..][i - 1]) == k; }
    }
  }

  /** The `songs` store after adding the beatmaps' chunk batches one transaction after another. */
  function SongsAfter(songs: map<Key, AudioChunk>, beatmaps: seq<ParsedBeatmap>): map<Key, AudioChunk>
    requires Decodable(beatmaps)
  {
    if beatmaps == [] then songs
    else
      var prev := SongsAfter(songs, beatmaps[..|beatmaps| - 1]);
      match AddBatch(prev, ChunksFor(beatmaps[|beatmaps| - 1]))
      case Some(next) => next
      case None => prev
  }

  /** The `beatmaps` store after `add(f)` for each beatmap in turn: an id already present is rejected. */
  function BeatmapsAfter(beatmaps: map<string, ParsedBeatmap>, added: seq<ParsedBeatmap>): map<string, ParsedBeatmap> {
    if added == [] then beatmaps
    else
      var prev := BeatmapsAfter(beatmaps, added[..|added| - 1]);
      var b := added[|added| - 1];
      if b.id in prev then prev else prev[b.id := b]
  }

  /** Adding chunks never changes a stored entry. */
  lemma {:induction false} SongsAfterKeeps(songs: map<Key, AudioChunk>, beatmaps: seq<ParsedBeatmap>)
    requires Decodable(beatmaps)
    ensures forall k | k in songs :: k in SongsAfter(songs, beatmaps) && SongsAfter(songs, beatmaps)[k] == songs[k]
  {
    if beatmaps != [] {
      var init := beatmaps[..|beatmaps| - 1];
      SongsAfterKeeps(songs, init);
      var prev, batch := SongsAfter(songs, init), ChunksFor(beatmaps[|beatmaps| - 1]);
      if AddBatch(prev, batch).Some? {
        AddBatchContents(prev, batch);
      }
    }
  }

  /** Every entry stays under the key its key path gives. */
  lemma {:induction false} SongsAfterKeyed(songs: map<Key, AudioChunk>, beatmaps: seq<ParsedBeatmap>)
    requires KeyedByPath(songs)
    requires Decodable(beatmaps)
    ensures KeyedByPath(SongsAfter(songs, beatmaps))
  {
    if beatmaps != [] {
      var init := beatmaps[..|beatmaps| - 1];
      SongsAfterKeyed(songs, init);
      var prev := SongsAfter(songs, init);
      var batch := ChunksFor(beatmaps[|beatmaps| - 1]);
      if AddBatch(prev, batch).Some? {
        AddBatchContents(prev, batch);
        var next := AddBatch(prev, batch).value;
        forall k | k in next ensures k == KeyOf(next[k]) {
          if k !in prev {
            var i :| 0 <= i < |batch| && k == KeyOf(batch[i]);
          }
        }
      }
    }
  }

  /** No batch of other beatmaps adds a chunk of beatmap `id`. */
  lemma {:induction false} NoChunksOf(songs: map<Key, AudioChunk>, beatmaps: seq<ParsedBeatmap>, id: string)
    requires Decodable(beatmaps)
    requires forall k | k in songs :: songs[k].beatmapId != id
    requires forall j :: 0 <= j < |beatmaps| ==> beatmaps[j].id != id
    ensures forall k | k in SongsAfter(songs, beatmaps) :: SongsAfter(songs, beatmaps)[k].beatmapId != id
  {
    if beatmaps != [] {
      var init := beatmaps[..|beatmaps| - 1];
      NoChunksOf(songs, init, id);
      var prev := SongsAfter(songs, init);
      var last := beatmaps[|beatmaps| - 1];
      var batch := ChunksFor(last);
      TaggedChunks(last);
      if AddBatch(prev, batch).Some? {
        AddBatchContents(prev, batch);
        var next := AddBatch(prev, batch).value;
        forall k | k in next ensures next[k].beatmapId != id {
          if k !in prev {
            var i :| 0 <= i < |batch| && k == KeyOf(batch[i]);
          }
        }
      }
    }
  }

  /**
   * A beatmap stored for the first time, with an id no other added beatmap
   * shares, ends up with every chunk of its audio in `songs`, each under its
   * own key.
   */
  lemma {:induction false} SongsAfterStores(songs: map<Key, AudioChunk>, beatmaps: seq<ParsedBeatmap>, i: nat)
    requires Decodable(beatmaps)
    requires KeyedByPath(songs) && i < |beatmaps|
    requires forall k | k in songs :: songs[k].beatmapId != beatmaps[i].id
    requires forall j :: 0 <= j < |beatmaps| && j != i ==> beatmaps[j].id != beatmaps[i].id
    ensures forall c | c in ChunksFor(beatmaps[i]) ::
      KeyOf(c) in SongsAfter(songs, beatmaps) && SongsAfter(songs, beatmaps)[KeyOf(c)] == c
  {
    var init := beatmaps[..|beatmaps| - 1];
    if i < |beatmaps| - 1 {
      assert init[i] == beatmaps[i];
      SongsAfterStores(songs, init, i);
      forall c | c in ChunksFor(beatmaps[i])
        ensures KeyOf(c) in SongsAfter(songs, beatmaps) && SongsAfter(songs, beatmaps)[KeyOf(c)] == c
      {
        StaysStored(songs, beatmaps, c);
      }
    } else {
      LastBatchStored(songs, beatmaps);
    }
  }

  /** A chunk stored before the last beatmap's batch is still stored after it. */
  lemma StaysStored(songs: map<Key, AudioChunk>, beatmaps: seq<ParsedBeatmap>, c: AudioChunk)
    requires Decodable(beatmaps) && beatmaps != []
    requires var prev := SongsAfter(songs, beatmaps[..|beatmaps| - 1]); KeyOf(c) in prev && prev[KeyOf(c)] == c
    ensures KeyOf(c) in SongsAfter(songs, beatmaps) && SongsAfter(songs, beatmaps)[KeyOf(c)] == c
  {
    var prev := SongsAfter(songs, beatmaps[..|beatmaps| - 1]);
    var batch := ChunksFor(beatmaps[|beatmaps| - 1]);
    if AddBatch(prev, batch).Some? {
      AddBatchContents(prev, batch);
    }
  }

  /** The last beatmap's batch, with an id no earlier beatmap or stored chunk has, is stored whole. */
  lemma LastBatchStored(songs: map<Key, AudioChunk>, beatmaps: seq<ParsedBeatmap>)
    requires Decodable(beatmaps) && beatmaps != []
    requires KeyedByPath(songs)
    requires forall k | k in songs :: songs[k].beatmapId != beatmaps[|beatmaps| - 1].id
    requires forall j :: 0 <= j < |beatmaps| - 1 ==> beatmaps[j].id != beatmaps[|beatmaps| - 1].id
    ensures forall c | c in ChunksFor(beatmaps[|beatmaps| - 1]) ::
      KeyOf(c) in SongsAfter(songs, beatmaps) && SongsAfter(songs, beatmaps)[KeyOf(c)] == c
  {
    var init := beatmaps[..|beatmaps| - 1];
    var prev := SongsAfter(songs, init);
    var last := beatmaps[|beatmaps| - 1];
    var batch := ChunksFor(last);
    NoChunksOf(songs, init, last.id);
    SongsAfterKeyed(songs, init);
    TaggedChunks(last);
    AddBatchCommits(prev, batch);
    AddBatchContents(prev, batch);
  }

  /** The `beatmaps` store only gains entries, one under each added id. */
  lemma {:induction false} BeatmapsAfterAdds(beatmaps: map<string, ParsedBeatmap>, added: seq<ParsedBeatmap>)
    ensures var r := BeatmapsAfter(beatmaps, added);
      && r.Keys == beatmaps.Keys + (set j | 0 <= j < |added| :: added[j].id)
      && (forall id | id in beatmaps :: r[id] == beatmaps[id])
      && (forall id | id in r :: r[id].id == id || (id in beatmaps && r[id] == beatmaps[id]))
  {
    if added != [] {
      var init := added[..|added| - 1];
      BeatmapsAfterAdds(beatmaps, init);
      var ids := set j | 0 <= j < |added| :: added[j].id;
      var initIds := set j | 0 <= j < |init| :: init[j].id;
      assert ids == initIds + {added[|added| - 1].id} by {
        forall id | id in ids ensures id in initIds + {added[|added| - 1].id} {
          var j :| 0 <= j < |added| && id == added[j].id;
          if j < |init| { assert init[j].id == id; }
        }
      }
    }
  }

  /** Every beatmap's audio decodes to a well-formed buffer. */
  ghost predicate Decodable(beatmaps: seq<ParsedBeatmap>) {
    forall b | b in beatmaps :: b.audioSource.Valid()
  }

  /**
   * The `mapAsync` stage of `addItem`: each beatmap's audio through
   * `blobToAudioChunks` with `CHUNK_DURATION`, each chunk tagged with the
   * beatmap's id.
   */
  method ChunkBeatmaps(beatmaps: seq<ParsedBeatmap>) returns (batches: seq<seq<AudioChunk>>)
    requires Decodable(beatmaps)
    ensures |batches| == |beatmaps|
    ensures forall j :: 0 <= j < |beatmaps| ==> batches[j] == ChunksFor(beatmaps[j])
  {
    batches := [];
    for i := 0 to |beatmaps|
      invariant |batches| == i
      invariant forall j :: 0 <= j < i ==> batches[j] == ChunksFor(beatmaps[j])
    {
      var chunks := BlobToAudioChunks(beatmaps[i].audioSource, ChunkDuration);
      batches := batches + [Tag(beatmaps[i].id, chunks)];
    }
  }

  /** One more beatmap: its batch is added to the store the earlier ones left. */
  lemma SongsAfterStep(songs: map<Key, AudioChunk>, beatmaps: seq<ParsedBeatmap>, i: nat)
    requires Decodable(beatmaps) && i < |beatmaps|
    ensures var prev := SongsAfter(songs, beatmaps[..i]);
      SongsAfter(songs, beatmaps[..i + 1]) ==
        match AddBatch(prev, ChunksFor(beatmaps[i]))
        case Some(next) => next
        case None => prev
  {
    assert beatmaps[..i + 1][..i] == beatmaps[..i];
  }

  /**
   * The database object. `isOpen` stands for `this.db` being set; `songs`
   * and `beatmaps` are the contents of the two object stores, keyed by their
   * key paths `["beatmapId", "chunk"]` and `"id"`.
   */
  class BeatmapsDatabase {
    var isOpen: bool
    var songs: map<Key, AudioChunk>
    var beatmaps: map<string, ParsedBeatmap>

    ghost predicate Valid()
      reads this
    {
      && KeyedByPath(songs)
      && forall id | id in beatmaps :: beatmaps[id].id == id
    }

    constructor ()
      ensures !isOpen && songs == map[] && beatmaps == map[] && Valid()
    {
      isOpen := false;
      songs := map[];
      beatmaps := map[];
    }

    /** `open()`: sets `this.db`; the stores keep what they hold. */
    method Open()
      modifies this
      ensures isOpen && songs == old(songs) && beatmaps == old(beatmaps)
    {
      isOpen := true;
    }

    /** `removeItem()`: not implemented, so it always throws. */
    method RemoveItem() returns (r: Result<()>)
      requires isOpen
      ensures r.Failure?
    {
      r := Failure("Missing implementation");
    }

    /**
     * `addItem(files)` as written, given what `oszToJson` settled to for each
     * file. The settled records are settled a second time, so every record
     * comes back "fulfilled" with the record itself; reading `audioSource`
     * off such a record gives undefined, `blobToAudioChunks` rejects on it,
     * and `addItem` rejects before any store is written. Only an empty list
     * of files gets through, and it adds nothing.
     */
    method AddItem(outcomes: seq<Settled<ParsedBeatmap>>) returns (r: Result<()>)
      requires isOpen && Valid()
      ensures r.Success? <==> outcomes == []
    {
      var records, rejectedBeatmaps := FulfilledAndRejected(Settle(outcomes));
      SettledTwice(outcomes);
      assert rejectedBeatmaps == [] && records == outcomes;
      if records != [] {
        r := Failure("TypeError: cannot read arrayBuffer of undefined");
      } else {
        r := Success(());
      }
    }

    /**
     * `addItem` as evidently intended: the parse outcomes go to
     * `fulfilledAndRejected` once; each parsed beatmap's audio is sliced with
     * `CHUNK_DURATION` and its chunks tagged with its id; each beatmap's
     * chunks go in one `add` transaction; then each beatmap is added under
     * its id. Failed transactions are only logged.
     */
    method AddItemIntended(outcomes: seq<Settled<ParsedBeatmap>>)
      requires isOpen && Valid()
      requires Decodable(FulfilledValues(outcomes))
      modifies this
      ensures isOpen && Valid()
      ensures songs == SongsAfter(old(songs), FulfilledValues(outcomes))
      ensures beatmaps == BeatmapsAfter(old(beatmaps), FulfilledValues(outcomes))
    {
      var parsed, rejectedBeatmaps := FulfilledAndRejected(outcomes);
      var batches := ChunkBeatmaps(parsed);
      AddBatches(parsed, batches);
      AddBeatmaps(parsed);
      SongsAfterKeyed(old(songs), parsed);
      BeatmapsAfterAdds(old(beatmaps), parsed);
      assert forall id | id in old(beatmaps) :: old(beatmaps)[id].id == id;
    }

    /** The chunk transactions of `addItem`, one per beatmap, in order. */
    method AddBatches(parsed: seq<ParsedBeatmap>, batches: seq<seq<AudioChunk>>)
      requires Decodable(parsed) && |batches| == |parsed|
      requires forall j :: 0 <= j < |parsed| ==> batches[j] == ChunksFor(parsed[j])
      modifies this
      ensures isOpen == old(isOpen) && beatmaps == old(beatmaps)
      ensures songs == SongsAfter(old(songs), parsed)
    {
      for i := 0 to |batches|
        invariant isOpen == old(isOpen) && beatmaps == old(beatmaps)
        invariant songs == SongsAfter(old(songs), parsed[..i])
      {
        SongsAfterStep(old(songs), parsed, i);
        match AddBatch(songs, batches[i])
        case Some(next) =>
          songs := next;
        case None =>
      }
      assert parsed[..|parsed|] == parsed;
    }

    /** The beatmap transactions of `addItem`: each beatmap under its id, unless the id is taken. */
    method AddBeatmaps(parsed: seq<ParsedBeatmap>)
      modifies this
      ensures isOpen == old(isOpen) && songs == old(songs)
      ensures beatmaps == BeatmapsAfter(old(beatmaps), parsed)
    {
      for i := 0 to |parsed|
        invariant isOpen == old(isOpen) && songs == old(songs)
        invariant beatmaps == BeatmapsAfter(old(beatmaps), parsed[..i])
      {
        assert parsed[..i + 1][..i] == parsed[..i];
        if parsed[i].id !in beatmaps {
          beatmaps := beatmaps[parsed[i].id := parsed[i]];
        }
      }
      assert parsed[..|parsed|] == parsed;
    }

    /**
     * `getAudioStream(beatmapId, offset)` over a snapshot of `songs`: split
     * the offset, create the generator on the beatmap's range and the stream
     * that reads it.
     */
    method GetAudioStream(snapshot: seq<Record<AudioChunk>>, beatmapId: string, offset: real) returns (stream: AudioChunkStream)
      requires isOpen && Valid() && SnapshotOf(snapshot, songs)
      ensures fresh(stream) && fresh(stream.cursor)
      ensures stream.cursor.store == snapshot && stream.cursor.query == SongRange(beatmapId, ChunkOffset(offset))
      ensures stream.beatmapId == beatmapId && stream.chunkOffset == ChunkOffset(offset)
      ensures stream.offsetWithinChunk == OffsetWithinChunk(offset)
      ensures stream.Valid() && !stream.started && !stream.closed && stream.queue == []
    {
      var chunkOffset := ChunkOffset(offset);
      var offsetWithinChunk := OffsetWithinChunk(offset);
      var chunkGenerator := new WhereCursor(snapshot, SongRange(beatmapId, chunkOffset));
      stream := new AudioChunkStream(chunkGenerator, offsetWithinChunk, beatmapId, chunkOffset);
    }
  }
}

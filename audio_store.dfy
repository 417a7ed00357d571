/**
 * The audio chunk codec of src/resources/audio/store.ts: a decoded track is
 * cut into fixed-duration chunks per channel, a chunk is turned back into a
 * playable buffer, and a chunk can be trimmed so that playback starts in the
 * middle of it.
 */
module AudioStore {
  import opened JsNumbers

  /** One sample of a `Float32Array`, kept as its 32-bit pattern: the codec only copies samples. */
  type Sample = bv32

  /** Web Audio sample rates are positive (decodeAudioData resamples to the context's rate). */
  type SampleRate = r: int | r > 0 witness 1

  /** A chunk as the `songs` object store holds it (`AudioChunk`). */
  datatype AudioChunk = AudioChunk(
    beatmapId: string,
    chunk: int,
    channels: seq<seq<Sample>>,
    length: int,
    numberOfChannels: nat,
    sampleRate: SampleRate)

  /** What `blobToAudioChunks` returns: `Omit<AudioChunk, "beatmapId">`. */
  datatype UntaggedChunk = UntaggedChunk(
    chunk: int,
    channels: seq<seq<Sample>>,
    length: int,
    numberOfChannels: nat,
    sampleRate: SampleRate)

  /** The platform decoder's output: one sample array of `length` frames per channel. */
  datatype DecodedAudio = DecodedAudio(
    channels: seq<seq<Sample>>,
    length: nat,
    numberOfChannels: nat,
    sampleRate: SampleRate)
  {
    ghost predicate Valid() {
      |channels| == numberOfChannels && forall c :: 0 <= c < |channels| ==> |channels[c]| == length
    }
  }

  /** `sampleRate * chunkDuration`: the number of frames in a full chunk. */
  function ChunkLength(sampleRate: SampleRate, chunkDuration: nat): int {
    sampleRate * chunkDuration
  }

  /**
   * lodash `range(length / chunkLength)`: `range` over a fractional bound
   * yields ceil(length / chunkLength) indices.
   */
  function ChunkCount(length: nat, chunkLength: int): (n: nat)
    requires chunkLength > 0
    ensures length <= n * chunkLength
    ensures length > 0 ==> (n - 1) * chunkLength < length
    ensures length == 0 ==> n == 0
  {
    var n := (length + chunkLength - 1) / chunkLength;
    var r := (length + chunkLength - 1) % chunkLength;
    assert length + chunkLength - 1 == n * chunkLength + r;
    assert (n - 1) * chunkLength == n * chunkLength - chunkLength;
    n
  }

  /** Multiplication by a non-negative factor is monotonic. */
  lemma MulMonotonic(a: int, b: int, c: nat)
    requires a <= b
    ensures a * c <= b * c
  {
  }

  /** `TypedArray.prototype.slice(begin, end)` for non-negative bounds: both are clamped to the array. */
  function Slice(s: seq<Sample>, begin: nat, end: nat): (r: seq<Sample>)
    ensures begin <= end <= |s| ==> r == s[begin..end]
    ensures end <= begin || |s| <= begin ==> r == []
    ensures begin < |s| < end ==> r == s[begin..]
  {
    var lo := if begin < |s| then begin else |s|;
    var hi := if end < |s| then end else |s|;
    if hi <= lo then [] else s[lo..hi]
  }

  /** The chunk numbered `i`: every channel sliced to the window [i*cl, (i+1)*cl). */
  function ChunkAt(channels: seq<seq<Sample>>, i: nat, chunkLength: nat, numberOfChannels: nat, sampleRate: SampleRate): UntaggedChunk
  {
    UntaggedChunk(
      i,
      seq(|channels|, c requires 0 <= c < |channels| => Slice(channels[c], i * chunkLength, (i + 1) * chunkLength)),
      chunkLength,
      numberOfChannels,
      sampleRate)
  }

  /**
   * The slicing part of `blobToAudioChunks` (after the platform decode):
   * `range(numberOfchunks).map(...)`.
   */
  function SliceIntoChunks(channels: seq<seq<Sample>>, length: nat, numberOfChannels: nat, sampleRate: SampleRate, chunkDuration: nat): (r: seq<UntaggedChunk>)
    requires chunkDuration > 0
    ensures |r| == ChunkCount(length, ChunkLength(sampleRate, chunkDuration))
    ensures forall i :: 0 <= i < |r| ==>
      r[i].chunk == i && |r[i].channels| == |channels| &&
      r[i].sampleRate == sampleRate && r[i].numberOfChannels == numberOfChannels &&
      r[i].length == ChunkLength(sampleRate, chunkDuration)
  {
    var cl := ChunkLength(sampleRate, chunkDuration);
    seq(ChunkCount(length, cl), i requires 0 <= i => ChunkAt(channels, i, cl, numberOfChannels, sampleRate))
  }

  /**
   * The `forEach` of `blobToAudioChunks` that fills one fresh `Float32Array`
   * per channel from the decoded buffer (`copyFromChannel`).
   */
  method CopyChannels(audio: DecodedAudio) returns (channels: seq<seq<Sample>>)
    requires audio.Valid()
    ensures channels == audio.channels
  {
    channels := [];
    for c := 0 to audio.numberOfChannels
      invariant channels == audio.channels[..c]
    {
      assert audio.channels[c][..audio.length] == audio.channels[c];
      // `copyFromChannel` copies min(destination length, buffer length) = length frames.
      var copied := audio.channels[c][..audio.length];
      channels := channels + [copied];
    }
  }

  /** `blobToAudioChunks` once the blob has been decoded. */
  method BlobToAudioChunks(audio: DecodedAudio, chunkDuration: nat) returns (chunks: seq<UntaggedChunk>)
    requires audio.Valid() && chunkDuration > 0
    ensures chunks == SliceIntoChunks(audio.channels, audio.length, audio.numberOfChannels, audio.sampleRate, chunkDuration)
  {
    var channels := CopyChannels(audio);
    chunks := SliceIntoChunks(channels, audio.length, audio.numberOfChannels, audio.sampleRate, chunkDuration);
  }

  /** Channel `c` of every chunk, concatenated in chunk order. */
  function ConcatChannel(chunks: seq<UntaggedChunk>, c: nat): seq<Sample>
    requires forall i :: 0 <= i < |chunks| ==> c < |chunks[i].channels|
  {
    if chunks == [] then [] else ConcatChannel(chunks[..|chunks| - 1], c) + chunks[|chunks| - 1].channels[c]
  }

  /** A prefix ending at `lo` followed by the slice [lo, hi) is the prefix ending at min(hi, |s|). */
  lemma PrefixThenSlice(s: seq<Sample>, lo: nat, hi: nat)
    requires lo <= hi && lo < |s|
    ensures s[..lo] + Slice(s, lo, hi) == s[..if hi < |s| then hi else |s|]
  {
  }

  /** Concatenating the first `k` chunks' channel `c` gives the first min(k*cl, |s|) samples. */
  lemma {:induction false} ConcatPrefix(channels: seq<seq<Sample>>, c: nat, length: nat, numberOfChannels: nat, sampleRate: SampleRate, chunkDuration: nat, k: nat)
    requires chunkDuration > 0 && c < |channels| && |channels[c]| == length
    requires k <= |SliceIntoChunks(channels, length, numberOfChannels, sampleRate, chunkDuration)|
    ensures var chunks := SliceIntoChunks(channels, length, numberOfChannels, sampleRate, chunkDuration);
            var cl := ChunkLength(sampleRate, chunkDuration);
            ConcatChannel(chunks[..k], c) == channels[c][..if k * cl < length then k * cl else length]
  {
    var chunks := SliceIntoChunks(channels, length, numberOfChannels, sampleRate, chunkDuration);
    var cl := ChunkLength(sampleRate, chunkDuration);
    if k > 0 {
      var s := channels[c];
      var lo, hi := (k - 1) * cl, k * cl;
      ConcatPrefix(channels, c, length, numberOfChannels, sampleRate, chunkDuration, k - 1);
      assert lo < length by {
        MulMonotonic(k - 1, |chunks| - 1, cl);
      }
      assert hi == lo + cl;
      assert ConcatChannel(chunks[..k], c) == ConcatChannel(chunks[..k - 1], c) + chunks[k - 1].channels[c] by {
        assert chunks[..k][..k - 1] == chunks[..k - 1];
      }
      assert chunks[k - 1].channels[c] == Slice(s, lo, hi);
      PrefixThenSlice(s, lo, hi);
    }
  }

  /** Concatenating chunk i's channel c over all i reproduces channel c exactly. */
  lemma ConcatReproducesChannel(channels: seq<seq<Sample>>, c: nat, length: nat, numberOfChannels: nat, sampleRate: SampleRate, chunkDuration: nat)
    requires chunkDuration > 0 && c < |channels| && |channels[c]| == length
    ensures ConcatChannel(SliceIntoChunks(channels, length, numberOfChannels, sampleRate, chunkDuration), c) == channels[c]
  {
    var chunks := SliceIntoChunks(channels, length, numberOfChannels, sampleRate, chunkDuration);
    ConcatPrefix(channels, c, length, numberOfChannels, sampleRate, chunkDuration, |chunks|);
    assert chunks[..|chunks|] == chunks;
    var cl := ChunkLength(sampleRate, chunkDuration);
    assert length <= |chunks| * cl;
  }

  /**
   * Every chunk but the last holds exactly chunkLength samples per channel;
   * the last holds length - (n-1)*chunkLength.
   */
  lemma ChunkSampleCounts(channels: seq<seq<Sample>>, c: nat, length: nat, numberOfChannels: nat, sampleRate: SampleRate, chunkDuration: nat, i: nat)
    requires chunkDuration > 0 && c < |channels| && |channels[c]| == length
    requires i < |SliceIntoChunks(channels, length, numberOfChannels, sampleRate, chunkDuration)|
    ensures var chunks := SliceIntoChunks(channels, length, numberOfChannels, sampleRate, chunkDuration);
            var cl := ChunkLength(sampleRate, chunkDuration);
            |chunks[i].channels[c]| == if i < |chunks| - 1 then cl else length - (|chunks| - 1) * cl
  {
    var chunks := SliceIntoChunks(channels, length, numberOfChannels, sampleRate, chunkDuration);
    var cl := ChunkLength(sampleRate, chunkDuration);
    assert length > 0;
    assert (i + 1) * cl == i * cl + cl;
    if i < |chunks| - 1 {
      MulMonotonic(i + 1, |chunks| - 1, cl);
    } else {
      assert i * cl < length;
    }
  }

  /** A multiple of `m` leaves no remainder. */
  lemma MultipleHasNoRemainder(n: nat, m: int)
    requires m > 0
    ensures (n * m) % m == 0
  {
    var q, r := (n * m) / m, (n * m) % m;
    assert (n - q) * m == r;
    if n - q >= 1 {
      MulMonotonic(1, n - q, m);
    } else if n - q <= -1 {
      MulMonotonic(n - q, -1, m);
    }
  }

  /**
   * The defect flagged at line 17: when the track is not a whole number of
   * chunks, the last chunk's `length` field still says chunkLength although
   * its channels hold fewer samples.
   */
  lemma LastChunkLengthOverstated(channels: seq<seq<Sample>>, c: nat, length: nat, numberOfChannels: nat, sampleRate: SampleRate, chunkDuration: nat)
    requires chunkDuration > 0 && c < |channels| && |channels[c]| == length
    requires length % ChunkLength(sampleRate, chunkDuration) != 0
    ensures var chunks := SliceIntoChunks(channels, length, numberOfChannels, sampleRate, chunkDuration);
            |chunks| > 0 && |chunks[|chunks| - 1].channels[c]| < chunks[|chunks| - 1].length
  {
    var chunks := SliceIntoChunks(channels, length, numberOfChannels, sampleRate, chunkDuration);
    var cl := ChunkLength(sampleRate, chunkDuration);
    assert length > 0;
    ChunkSampleCounts(channels, c, length, numberOfChannels, sampleRate, chunkDuration, |chunks| - 1);
    if length == |chunks| * cl {
      MultipleHasNoRemainder(|chunks|, cl);
    }
  }

  /**
   * The platform `AudioBuffer`: `length` frames per channel, created silent
   * and written with `copyToChannel`.
   */
  class AudioBuffer {
    const length: nat
    const numberOfChannels: nat
    const sampleRate: SampleRate
    var data: seq<seq<Sample>>

    ghost predicate Valid()
      reads this
    {
      |data| == numberOfChannels && forall c :: 0 <= c < |data| ==> |data[c]| == length
    }

    constructor (length: nat, numberOfChannels: nat, sampleRate: SampleRate, silence: Sample)
      ensures this.length == length && this.numberOfChannels == numberOfChannels && this.sampleRate == sampleRate
      ensures data == seq(numberOfChannels, _ => Fill(silence, length))
      ensures Valid()
    {
      this.length := length;
      this.numberOfChannels := numberOfChannels;
      this.sampleRate := sampleRate;
      data := seq(numberOfChannels, _ => Fill(silence, length));
    }

    /** `copyToChannel(source, channelNumber)`: min(|source|, length) frames are written from frame 0. */
    method CopyToChannel(source: seq<Sample>, channelNumber: nat)
      requires Valid() && channelNumber < numberOfChannels
      modifies this
      ensures Valid()
      ensures data == old(data)[channelNumber := Overwrite(old(data)[channelNumber], source)]
    {
      data := data[channelNumber := Overwrite(data[channelNumber], source)];
    }
  }

  /** `n` copies of `x`. */
  function Fill(x: Sample, n: nat): (r: seq<Sample>)
    ensures |r| == n && forall i :: 0 <= i < n ==> r[i] == x
  {
    seq(n, _ => x)
  }

  /** `dest` with its first min(|src|, |dest|) samples replaced by those of `src`. */
  function Overwrite(dest: seq<Sample>, src: seq<Sample>): (r: seq<Sample>)
    ensures |r| == |dest|
    ensures forall i :: 0 <= i < |r| ==> r[i] == if i < |src| then src[i] else dest[i]
  {
    if |src| >= |dest| then src[..|dest|] else src + dest[|src|..]
  }

  /** The silent sample a fresh `AudioBuffer` holds (+0.0). */
  const Silence: Sample := 0

  /**
   * `audioChunkToAudioBuffer`. The platform constructor rejects a buffer of no
   * frames or no channels, and `copyToChannel` rejects a channel index past
   * `numberOfChannels`; both throw, and the model returns `null` instead.
   */
  method AudioChunkToAudioBuffer(chunk: AudioChunk) returns (buffer: AudioBuffer?)
    ensures buffer == null <==> chunk.length < 1 || chunk.numberOfChannels < 1 || |chunk.channels| > chunk.numberOfChannels
    ensures buffer != null ==> fresh(buffer) && buffer.Valid()
    ensures buffer != null ==> buffer.length == chunk.length && buffer.numberOfChannels == chunk.numberOfChannels
    ensures buffer != null ==> buffer.sampleRate == chunk.sampleRate
    ensures buffer != null ==> forall i :: 0 <= i < |chunk.channels| ==>
      buffer.data[i] == Overwrite(Fill(Silence, chunk.length), chunk.channels[i])
    ensures buffer != null ==> forall i :: |chunk.channels| <= i < chunk.numberOfChannels ==>
      buffer.data[i] == Fill(Silence, chunk.length)
  {
    if chunk.length < 1 || chunk.numberOfChannels < 1 || |chunk.channels| > chunk.numberOfChannels {
      return null;
    }
    buffer := new AudioBuffer(chunk.length, chunk.numberOfChannels, chunk.sampleRate, Silence);
    for i := 0 to |chunk.channels|
      invariant buffer.Valid() && buffer.length == chunk.length && buffer.numberOfChannels == chunk.numberOfChannels
      invariant forall k :: 0 <= k < i ==> buffer.data[k] == Overwrite(Fill(Silence, chunk.length), chunk.channels[k])
      invariant forall k :: i <= k < chunk.numberOfChannels ==> buffer.data[k] == Fill(Silence, chunk.length)
    {
      buffer.CopyToChannel(chunk.channels[i], i);
    }
  }

  /** A buffer channel written from a channel of exactly `length` samples is that channel. */
  lemma OverwriteFull(length: nat, channel: seq<Sample>)
    requires |channel| == length
    ensures Overwrite(Fill(Silence, length), channel) == channel
  {
  }

  /**
   * Playing the short last chunk: its buffer channel is the chunk's samples
   * followed by silence up to the overstated `length`.
   */
  lemma OverwriteShort(length: nat, channel: seq<Sample>)
    requires |channel| < length
    ensures Overwrite(Fill(Silence, length), channel) == channel + Fill(Silence, length - |channel|)
  {
  }

  /**
   * `TypedArray.prototype.subarray(begin, end)`: negative bounds count from
   * the end, both are clamped to the array, and an end before the begin gives
   * an empty view.
   */
  function Subarray(s: seq<Sample>, begin: int, end: int): (r: seq<Sample>)
    ensures 0 <= begin <= end <= |s| ==> r == s[begin..end]
    ensures 0 <= end <= begin ==> r == []
  {
    var len := |s|;
    var lo := if begin < 0 then (if len + begin < 0 then 0 else len + begin) else (if begin < len then begin else len);
    var hi := if end < 0 then (if len + end < 0 then 0 else len + end) else (if end < len then end else len);
    if hi <= lo then [] else s[lo..hi]
  }

  /** The number of frames `offsetAudioChunk` drops: `Math.round(offset * sampleRate)`. */
  function FrameOffset(chunk: AudioChunk, offset: real): int {
    Round(offset * chunk.sampleRate as real)
  }

  /** `offsetAudioChunk(chunk, offset)`, `offset` in seconds. */
  function OffsetAudioChunk(chunk: AudioChunk, offset: real): (r: AudioChunk)
    ensures r.beatmapId == chunk.beatmapId && r.chunk == chunk.chunk
    ensures r.numberOfChannels == chunk.numberOfChannels && r.sampleRate == chunk.sampleRate
    ensures |r.channels| == |chunk.channels|
    ensures r.length == chunk.length - FrameOffset(chunk, offset)
    ensures var k := FrameOffset(chunk, offset);
            0 <= k ==> forall c :: 0 <= c < |r.channels| && |chunk.channels[c]| == chunk.length && k <= chunk.length ==>
              r.channels[c] == chunk.channels[c][k..]
  {
    var k := FrameOffset(chunk, offset);
    chunk.(
      channels := seq(|chunk.channels|, c requires 0 <= c < |chunk.channels| => Subarray(chunk.channels[c], k, chunk.length)),
      length := Round((chunk.length - k) as real))
  }

  /** Offset 0 leaves the samples and `length` of a well-formed chunk unchanged. */
  lemma OffsetZeroIsIdentity(chunk: AudioChunk)
    requires forall c :: 0 <= c < |chunk.channels| ==> |chunk.channels[c]| == chunk.length
    ensures OffsetAudioChunk(chunk, 0.0) == chunk
  {
    var r := OffsetAudioChunk(chunk, 0.0);
    assert FrameOffset(chunk, 0.0) == 0;
    forall c | 0 <= c < |chunk.channels| ensures r.channels[c] == chunk.channels[c] {
      assert chunk.channels[c][0..] == chunk.channels[c];
    }
  }

  /**
   * A negative offset (which `getAudioStream` passes on for a negative
   * playback offset, since `%` keeps the dividend's sign) makes `subarray`
   * count from the end: each channel keeps only its last frames, while
   * `length` grows past the chunk's own length.
   */
  lemma OffsetNegative(chunk: AudioChunk, offset: real)
    requires FrameOffset(chunk, offset) < 0
    requires forall c :: 0 <= c < |chunk.channels| ==> |chunk.channels[c]| == chunk.length
    ensures var r := OffsetAudioChunk(chunk, offset);
            var k := FrameOffset(chunk, offset);
            r.length > chunk.length &&
            forall c :: 0 <= c < |r.channels| ==>
              r.channels[c] == chunk.channels[c][(if chunk.length + k < 0 then 0 else chunk.length + k)..]
  {
  }

  /**
   * A channel shorter than `length` (the short last chunk) loses its first
   * `k` frames, or all of them when it has fewer.
   */
  lemma OffsetShortChannel(chunk: AudioChunk, offset: real, c: nat)
    requires 0 <= FrameOffset(chunk, offset)
    requires c < |chunk.channels| && |chunk.channels[c]| <= chunk.length
    ensures var k := FrameOffset(chunk, offset);
            var channel := chunk.channels[c];
            OffsetAudioChunk(chunk, offset).channels[c] == channel[(if k < |channel| then k else |channel|)..]
  {
  }

  /**
   * There is no bounds check: an offset past the end of the chunk leaves every
   * channel empty and a negative `length`.
   */
  lemma OffsetPastEnd(chunk: AudioChunk, offset: real)
    requires 0 <= chunk.length < FrameOffset(chunk, offset)
    requires forall c :: 0 <= c < |chunk.channels| ==> |chunk.channels[c]| == chunk.length
    ensures var r := OffsetAudioChunk(chunk, offset);
            r.length < 0 && forall c :: 0 <= c < |r.channels| ==> r.channels[c] == []
  {
  }
}

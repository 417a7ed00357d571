/**
 * The chunk scheduler of src/resources/audio/AudioStream.ts. `stream()`
 * starts an async loop that reads chunks from a reader and schedules each
 * one as a buffer source right after the previous one. The loop's two
 * suspension points, a pending `reader.read()` and a pending `ended` event of
 * the newest buffer, become input events (`OnRead`, `OnEnded`), so the
 * object is a sequential state machine. The Web Audio platform is reduced to
 * buffer-source handles, the `when` passed to each `start`, and a ghost log
 * of the platform calls.
 */
module AudioStreams {
  import opened AudioStore

  /** An `AudioBufferSourceNode`, numbered in creation order. */
  type BufferId = nat

  /** A call the stream makes on the platform. */
  datatype StreamCall =
    | GetReader
    | Read
    | CreateSource(buffer: BufferId)
    | ConnectSource(buffer: BufferId)
    | StartSource(buffer: BufferId, when: real)
    | DisconnectSource(buffer: BufferId)
    | StopSource(buffer: BufferId)
    | CancelReader

  /** What a `reader.read()` resolves to. */
  datatype ReadResult = Done | Value(chunk: AudioChunk)

  /**
   * Where `_startStream` is suspended: before `stream()`, at the first read,
   * at a read inside the loop, at the `ended` await of a buffer whose chunk
   * lasts `duration`, returned, or ended by an exception from `_playChunk`.
   */
  datatype Phase = Idle | AwaitingFirstRead | AwaitingRead | AwaitingEnded(duration: real) | Finished | Failed

  /** `chunk.length / chunk.sampleRate`: how long a chunk plays, in seconds. */
  function Duration(c: AudioChunk): real {
    c.length as real / c.sampleRate as real
  }

  /** The total duration of a sequence of chunks. */
  function Elapsed(chunks: seq<AudioChunk>): real {
    if chunks == [] then 0.0 else Elapsed(chunks[..|chunks| - 1]) + Duration(chunks[|chunks| - 1])
  }

  /** The start time of every chunk: the total duration of the chunks before it. */
  function StartTimes(chunks: seq<AudioChunk>): (r: seq<real>)
    ensures |r| == |chunks|
  {
    if chunks == [] then [] else StartTimes(chunks[..|chunks| - 1]) + [Elapsed(chunks[..|chunks| - 1])]
  }

  /** Chunk k starts when the chunks before it have played. */
  lemma {:induction false} StartTimesArePrefixSums(chunks: seq<AudioChunk>, k: nat)
    requires k < |chunks|
    ensures StartTimes(chunks)[k] == Elapsed(chunks[..k])
  {
    var front := chunks[..|chunks| - 1];
    if k < |front| {
      StartTimesArePrefixSums(front, k);
      assert front[..k] == chunks[..k];
    }
  }

  /** A single chunk starts at 0 and lasts its own duration. */
  lemma OneChunk(c: AudioChunk)
    ensures StartTimes([c]) == [0.0] && Elapsed([c]) == Duration(c)
  {
    assert [c][..0] == [];
  }

  /** Chunks of equal duration `d` add up to `|chunks| * d`. */
  lemma {:induction false} ElapsedOfEqualDurations(chunks: seq<AudioChunk>, d: real)
    requires forall i :: 0 <= i < |chunks| ==> Duration(chunks[i]) == d
    ensures Elapsed(chunks) == |chunks| as real * d
  {
    if chunks != [] {
      var front := chunks[..|chunks| - 1];
      assert forall i :: 0 <= i < |front| ==> front[i] == chunks[i];
      ElapsedOfEqualDurations(front, d);
    }
  }

  /** Chunks never have negative length, so a longer prefix never starts earlier. */
  lemma {:induction false} ElapsedMonotone(chunks: seq<AudioChunk>, i: nat, j: nat)
    requires i <= j <= |chunks|
    requires forall k :: 0 <= k < |chunks| ==> chunks[k].length >= 0
    ensures Elapsed(chunks[..i]) <= Elapsed(chunks[..j])
    decreases j - i
  {
    if i < j {
      ElapsedMonotone(chunks, i, j - 1);
      assert chunks[..j][..j - 1] == chunks[..j - 1];
      assert Duration(chunks[j - 1]) >= 0.0;
    }
  }

  /** The chunks `audioChunkToAudioBuffer` accepts; on the others `_playChunk` throws. */
  predicate Playable(c: AudioChunk) {
    c.length >= 1 && c.numberOfChannels >= 1 && |c.channels| <= c.numberOfChannels
  }

  /** The calls the stop closure makes on the buffers it holds, in order. */
  function StopCalls(buffers: seq<BufferId>): (r: seq<StreamCall>)
    ensures |r| == 2 * |buffers|
  {
    if buffers == [] then [] else [DisconnectSource(buffers[0]), StopSource(buffers[0])] + StopCalls(buffers[1..])
  }

  /** Every held buffer is disconnected and then stopped, in the order they are held. */
  lemma {:induction false} StopCallsPairs(buffers: seq<BufferId>, i: nat)
    requires i < |buffers|
    ensures StopCalls(buffers)[2 * i] == DisconnectSource(buffers[i])
    ensures StopCalls(buffers)[2 * i + 1] == StopSource(buffers[i])
  {
    if i > 0 {
      StopCallsPairs(buffers[1..], i - 1);
    }
  }

  class AudioStream {
    /** `_playingBuffers`. */
    var playingBuffers: seq<BufferId>
    /** `_streaming`. */
    var streaming: bool
    /** `_cancelled`. */
    var cancelled: bool
    /** Where the `_startStream` coroutine is suspended. */
    var phase: Phase
    /** The local `startTime` of `_startStream`. */
    var startTime: real
    /** How many buffer sources have been created; the next one gets this id. */
    var created: nat
    /** The `when` passed to `start` of buffer k, at index k. */
    var starts: seq<real>
    /** The chunk buffer k plays, at index k. */
    ghost var scheduled: seq<AudioChunk>
    /** Every platform call, in order. */
    ghost var calls: seq<StreamCall>
    /** How many `reader.read()` calls have been issued. */
    ghost var readCount: nat

    ghost predicate Valid()
      reads this
    {
      && |playingBuffers| <= 2
      && starts == StartTimes(scheduled)
      && created == |scheduled| + (if phase.Failed? then 1 else 0)
      && (phase.Idle? ==> scheduled == [] && playingBuffers == [] && !streaming && !cancelled && calls == [] && readCount == 0)
      && (phase.AwaitingFirstRead? ==> scheduled == [] && playingBuffers == [] && startTime == 0.0)
      && (phase.AwaitingRead? ==>
            |scheduled| >= 1 && playingBuffers == [|scheduled| - 1] && startTime == Elapsed(scheduled))
      && (phase.AwaitingEnded? ==>
            |scheduled| >= 2 && playingBuffers == [|scheduled| - 2, |scheduled| - 1] &&
            phase.duration == Duration(scheduled[|scheduled| - 1]) &&
            startTime == Elapsed(scheduled[..|scheduled| - 1]))
      && (phase.Finished? || phase.Failed? ==>
            playingBuffers == [] || (|scheduled| >= 1 && playingBuffers == [|scheduled| - 1]))
    }

    /** A fresh stream holds no buffers and is neither streaming nor cancelled. */
    constructor ()
      ensures Valid()
      ensures playingBuffers == [] && !streaming && !cancelled && phase.Idle?
      ensures scheduled == [] && starts == [] && calls == []
    {
      playingBuffers := [];
      streaming := false;
      cancelled := false;
      phase := Idle;
      startTime := 0.0;
      created := 0;
      starts := [];
      scheduled := [];
      calls := [];
      readCount := 0;
    }

    /**
     * `stream()`: sets `_streaming`, takes the reader and runs `_startStream`
     * up to its first read. A second call finds the stream locked:
     * `getReader` throws after `_streaming` was set, and `ok` is false.
     */
    method Stream() returns (ok: bool)
      requires Valid()
      modifies this
      ensures Valid()
      ensures streaming
      ensures ok <==> old(phase) == Idle
      ensures ok ==> phase.AwaitingFirstRead? && calls == [GetReader, Read] && readCount == 1 && !cancelled
      ensures !ok ==> phase == old(phase) && calls == old(calls) && readCount == old(readCount) && cancelled == old(cancelled)
      ensures playingBuffers == old(playingBuffers) && scheduled == old(scheduled) && starts == old(starts)
    {
      streaming := true;
      if !phase.Idle? {
        return false;
      }
      calls := calls + [GetReader, Read];
      readCount := readCount + 1;
      startTime := 0.0;
      phase := AwaitingFirstRead;
      ok := true;
    }

    /** `isStreaming()`. */
    function IsStreaming(): bool
      reads this
    {
      streaming
    }

    /**
     * `_playChunk(chunk, when)`: creates a buffer source, fills it from the
     * chunk, connects it and starts it at `when`. A chunk
     * `audioChunkToAudioBuffer` rejects makes it throw before the source is
     * connected.
     */
    method PlayChunk(chunk: AudioChunk, when: real) returns (ok: bool, b: BufferId)
      modifies this
      ensures b == old(created) && created == old(created) + 1
      ensures ok <==> Playable(chunk)
      ensures ok ==> calls == old(calls) + [CreateSource(b), ConnectSource(b), StartSource(b, when)]
      ensures ok ==> scheduled == old(scheduled) + [chunk] && starts == old(starts) + [when]
      ensures !ok ==> calls == old(calls) + [CreateSource(b)] && scheduled == old(scheduled) && starts == old(starts)
      ensures playingBuffers == old(playingBuffers) && streaming == old(streaming) && cancelled == old(cancelled)
      ensures phase == old(phase) && startTime == old(startTime) && readCount == old(readCount)
    {
      b := created;
      created := created + 1;
      calls := calls + [CreateSource(b)];
      var buffer := AudioChunkToAudioBuffer(chunk);
      if buffer == null {
        return false, b;
      }
      calls := calls + [ConnectSource(b), StartSource(b, when)];
      scheduled := scheduled + [chunk];
      starts := starts + [when];
      ok := true;
    }

    /**
     * The first `reader.read()` resolves. `done` returns from `_startStream`
     * with nothing scheduled. A chunk is scheduled at time 0, `startTime`
     * advances by its duration, and the loop tests `_cancelled` before
     * reading again.
     */
    method OnFirstRead(r: ReadResult)
      requires Valid() && phase.AwaitingFirstRead?
      modifies this
      ensures Valid()
      ensures streaming == old(streaming) && cancelled == old(cancelled)
      ensures r.Done? ==>
        phase.Finished? && playingBuffers == [] && scheduled == [] && calls == old(calls) &&
        startTime == old(startTime) && readCount == old(readCount)
      ensures r.Value? && !Playable(r.chunk) ==>
        phase.Failed? && scheduled == [] && playingBuffers == [] && startTime == old(startTime) &&
        calls == old(calls) + [CreateSource(0)] && readCount == old(readCount)
      ensures r.Value? && Playable(r.chunk) ==>
        scheduled == [r.chunk] && starts == [0.0] && playingBuffers == [0] &&
        startTime == Duration(r.chunk) && phase == (if cancelled then Finished else AwaitingRead) &&
        calls == old(calls) + [CreateSource(0), ConnectSource(0), StartSource(0, 0.0)] + (if cancelled then [] else [Read]) &&
        readCount == old(readCount) + (if cancelled then 0 else 1)
    {
      if r.Done? {
        phase := Finished;
        return;
      }
      var chunk := r.chunk;
      var ok, b := PlayChunk(chunk, startTime);
      if !ok {
        phase := Failed;
        return;
      }
      OneChunk(chunk);
      playingBuffers := playingBuffers + [b];
      startTime := startTime + Duration(chunk);
      if cancelled {
        phase := Finished;
      } else {
        calls := calls + [Read];
        readCount := readCount + 1;
        phase := AwaitingRead;
      }
    }

    /**
     * A `reader.read()` inside the loop resolves. `done` returns from
     * `_startStream`. A chunk is scheduled at `startTime`, right after the
     * chunks before it, and the loop waits for the new buffer's `ended`.
     */
    method OnLoopRead(r: ReadResult)
      requires Valid() && phase.AwaitingRead?
      modifies this
      ensures Valid()
      ensures streaming == old(streaming) && cancelled == old(cancelled) && readCount == old(readCount)
      ensures startTime == old(startTime)
      ensures r.Done? ==>
        phase.Finished? && playingBuffers == old(playingBuffers) && scheduled == old(scheduled) && calls == old(calls)
      ensures r.Value? && !Playable(r.chunk) ==>
        phase.Failed? && scheduled == old(scheduled) && playingBuffers == old(playingBuffers) &&
        calls == old(calls) + [CreateSource(|old(scheduled)|)]
      ensures r.Value? && Playable(r.chunk) ==>
        scheduled == old(scheduled) + [r.chunk] && starts == old(starts) + [Elapsed(old(scheduled))] &&
        playingBuffers == old(playingBuffers) + [|old(scheduled)|] && phase == AwaitingEnded(Duration(r.chunk)) &&
        calls == old(calls) + [CreateSource(|old(scheduled)|), ConnectSource(|old(scheduled)|), StartSource(|old(scheduled)|, Elapsed(old(scheduled)))]
    {
      if r.Done? {
        phase := Finished;
        return;
      }
      var chunk := r.chunk;
      ghost var before := scheduled;
      var ok, b := PlayChunk(chunk, startTime);
      if !ok {
        phase := Failed;
        return;
      }
      playingBuffers := playingBuffers + [b];
      assert scheduled[..|scheduled| - 1] == before;
      assert starts == StartTimes(scheduled);
      phase := AwaitingEnded(Duration(chunk));
    }

    /**
     * The newest buffer fires `ended`: the oldest buffer is shifted out,
     * `startTime` advances by the chunk's duration, and the loop reads again
     * unless it was cancelled.
     */
    method OnEnded()
      requires Valid() && phase.AwaitingEnded?
      modifies this
      ensures Valid()
      ensures playingBuffers == old(playingBuffers)[1..] && |playingBuffers| == 1
      ensures startTime == old(startTime) + old(phase).duration
      ensures phase == (if cancelled then Finished else AwaitingRead)
      ensures calls == old(calls) + (if cancelled then [] else [Read])
      ensures readCount == old(readCount) + (if cancelled then 0 else 1)
      ensures streaming == old(streaming) && cancelled == old(cancelled)
      ensures scheduled == old(scheduled) && starts == old(starts)
    {
      playingBuffers := playingBuffers[1..];
      startTime := startTime + phase.duration;
      if cancelled {
        phase := Finished;
      } else {
        calls := calls + [Read];
        readCount := readCount + 1;
        phase := AwaitingRead;
      }
    }

    /**
     * The closure `stream()` returns: clears `_streaming`, sets `_cancelled`,
     * disconnects and stops every buffer held, then cancels the reader.
     */
    method Stop()
      requires Valid() && !phase.Idle?
      modifies this
      ensures Valid()
      ensures !streaming && cancelled
      ensures calls == old(calls) + StopCalls(old(playingBuffers)) + [CancelReader]
      ensures playingBuffers == old(playingBuffers) && phase == old(phase) && startTime == old(startTime)
      ensures scheduled == old(scheduled) && starts == old(starts) && readCount == old(readCount)
    {
      streaming := false;
      cancelled := true;
      var held := playingBuffers;
      ghost var log := calls;
      for i := 0 to |held|
        invariant log == old(calls) + StopCalls(held[..i])
      {
        assert StopCalls(held[..i + 1]) == StopCalls(held[..i]) + [DisconnectSource(held[i]), StopSource(held[i])] by {
          StopCallsAppend(held[..i], held[i]);
          assert held[..i + 1] == held[..i] + [held[i]];
        }
        log := log + [DisconnectSource(held[i]), StopSource(held[i])];
      }
      assert held[..|held|] == held;
      calls := log + [CancelReader];
    }
  }

  /** The stop calls of one more buffer come after those of the others. */
  lemma {:induction false} StopCallsAppend(buffers: seq<BufferId>, b: BufferId)
    ensures StopCalls(buffers + [b]) == StopCalls(buffers) + [DisconnectSource(b), StopSource(b)]
  {
    if buffers != [] {
      assert (buffers + [b])[1..] == buffers[1..] + [b];
      StopCallsAppend(buffers[1..], b);
    }
  }

  /**
   * Reading `chunks` to the end, with every `ended` arriving and no stop:
   * chunk k is started at the total duration of the chunks before it, each
   * chunk is scheduled once and in order, and at most two buffers are held.
   */
  method PlayAll(chunks: seq<AudioChunk>) returns (starts: seq<real>, held: nat)
    requires forall i :: 0 <= i < |chunks| ==> Playable(chunks[i])
    ensures |starts| == |chunks|
    ensures forall k :: 0 <= k < |chunks| ==> starts[k] == Elapsed(chunks[..k])
    ensures held == (if chunks == [] then 0 else 1)
  {
    var s := new AudioStream();
    var ok := s.Stream();
    for i := 0 to |chunks|
      invariant s.Valid() && !s.cancelled
      invariant s.scheduled == chunks[..i]
      invariant s.phase == (if i == 0 then AwaitingFirstRead else AwaitingRead)
    {
      assert chunks[..i + 1] == chunks[..i] + [chunks[i]];
      if i == 0 {
        s.OnFirstRead(Value(chunks[i]));
      } else {
        s.OnLoopRead(Value(chunks[i]));
        s.OnEnded();
      }
    }
    assert chunks[..|chunks|] == chunks;
    forall k | 0 <= k < |chunks| ensures s.starts[k] == Elapsed(chunks[..k]) {
      StartTimesArePrefixSums(chunks, k);
    }
    if chunks == [] {
      s.OnFirstRead(Done);
    } else {
      s.OnLoopRead(Done);
    }
    starts, held := s.starts, |s.playingBuffers|;
  }
}

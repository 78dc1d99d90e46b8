/** The playback cursor of src/audio_player.py: a buffer of samples, a cursor into
    it, and the block-pull callback the audio device calls for every block.

    The pure half describes one callback on a value `Deck` (the fields the
    callback reads); the class `AudioPlayer` holds those fields and changes them in
    place, and its methods are proved against the pure half. */
module Player {

  /** The fields the callback reads. */
  datatype Deck = Deck(buffer: seq<real>, bufferLength: nat, cursor: nat, volume: real, isPlaying: bool)

  /** What every operation keeps: the cursor never passes the end, and a non-empty
      buffer_length is the length of the buffer (only the initial state, a block of
      zeros with buffer_length 0, has them differ). */
  predicate Consistent(d: Deck) {
    && d.cursor <= d.bufferLength
    && (d.bufferLength > 0 ==> d.bufferLength == |d.buffer|)
  }

  function Zeros(n: nat): (z: seq<real>)
    ensures |z| == n
  {
    seq(n, _ => 0.0)
  }

  /** chunk * volume */
  function Scaled(s: seq<real>, volume: real): (r: seq<real>)
    ensures |r| == |s|
  {
    seq(|s|, k requires 0 <= k < |s| => s[k] * volume)
  }

  /** np.clip(value, 0.0, 1.0) */
  function Clip01(value: real): (r: real)
    ensures 0.0 <= r <= 1.0
    ensures 0.0 <= value <= 1.0 ==> r == value
    ensures value < 0.0 ==> r == 0.0
    ensures value > 1.0 ==> r == 1.0
  {
    if value < 0.0 then 0.0 else if value > 1.0 then 1.0 else value
  }

  /** The callback has nothing to play. */
  predicate Silent(d: Deck) {
    !d.isPlaying || d.cursor >= d.bufferLength
  }

  /** The block the callback writes (and keeps as current_chunk), by its three cases:
      silence, the partial final block padded with zeros, and a full block. */
  function Block(d: Deck, frames: nat): (out: seq<real>)
    requires Consistent(d)
    ensures |out| == frames
  {
    if Silent(d) then Zeros(frames)
    else if d.cursor + frames > d.bufferLength then
      Scaled(d.buffer[d.cursor..], d.volume) + Zeros(frames - (d.bufferLength - d.cursor))
    else Scaled(d.buffer[d.cursor..d.cursor + frames], d.volume)
  }

  /** The state after the callback: only the cursor moves. */
  function Advance(d: Deck, frames: nat): (e: Deck)
    requires Consistent(d)
    ensures Consistent(e)
    ensures e.buffer == d.buffer && e.bufferLength == d.bufferLength
    ensures e.volume == d.volume && e.isPlaying == d.isPlaying
  {
    if Silent(d) then d
    else if d.cursor + frames > d.bufferLength then d.(cursor := d.bufferLength)
    else d.(cursor := d.cursor + frames)
  }

  /** What the device should hear k samples after the cursor: that buffer sample
      scaled by the volume when playing and the sample exists, silence otherwise. */
  function Heard(d: Deck, k: nat): real
    requires Consistent(d)
  {
    if d.isPlaying && d.cursor + k < d.bufferLength then d.buffer[d.cursor + k] * d.volume else 0.0
  }

  /** Sample k of a block is the sample k past the cursor, scaled by the volume,
      when playing and that sample exists, and silence otherwise. */
  lemma BlockSample(d: Deck, frames: nat, k: nat)
    requires Consistent(d) && k < frames
    ensures Block(d, frames)[k] == Heard(d, k)
  {
    if !Silent(d) && d.cursor + frames > d.bufferLength {
      var remaining := d.bufferLength - d.cursor;
      var head := Scaled(d.buffer[d.cursor..], d.volume);
      assert |head| == remaining;
      if k < remaining {
        assert Block(d, frames)[k] == head[k];
      } else {
        assert Block(d, frames)[k] == Zeros(frames - remaining)[k - remaining];
      }
    }
  }

  /** The cursor moves by the whole block, or stops at the end of the buffer, and
      stays where it is when the callback is silent. */
  lemma AdvanceCursor(d: Deck, frames: nat)
    requires Consistent(d)
    ensures Advance(d, frames).cursor ==
      if Silent(d) then d.cursor
      else if d.cursor + frames <= d.bufferLength then d.cursor + frames
      else d.bufferLength
    ensures Silent(d) ==> Block(d, frames) == Zeros(frames) && Advance(d, frames) == d
  {
  }

  /** At the end of the buffer the callback stays silent and the cursor stays
      pinned, however many blocks are pulled. */
  lemma {:induction false} PinnedAtEnd(d: Deck, frames: nat, m: nat)
    requires Consistent(d) && d.cursor == d.bufferLength
    ensures Pulled(d, frames, m) == Zeros(m * frames)
    ensures AdvancedBy(d, frames, m) == d
  {
    if m > 0 {
      PinnedAtEnd(Advance(d, frames), frames, m - 1);
      assert (m - 1) * frames + frames == m * frames;
    }
  }

  /** The audio the device receives over m callbacks in a row. */
  function Pulled(d: Deck, frames: nat, m: nat): seq<real>
    requires Consistent(d)
    decreases m
  {
    if m == 0 then [] else Block(d, frames) + Pulled(Advance(d, frames), frames, m - 1)
  }

  /** The state after m callbacks in a row. */
  function AdvancedBy(d: Deck, frames: nat, m: nat): (e: Deck)
    requires Consistent(d)
    ensures Consistent(e)
    decreases m
  {
    if m == 0 then d else AdvancedBy(Advance(d, frames), frames, m - 1)
  }

  /** m callbacks deliver m blocks. */
  lemma {:induction false} PulledLength(d: Deck, frames: nat, m: nat)
    requires Consistent(d)
    decreases m
    ensures |Pulled(d, frames, m)| == m * frames
  {
    if m > 0 {
      PulledLength(Advance(d, frames), frames, m - 1);
      assert (m - 1) * frames + frames == m * frames;
    }
  }

  /** Pulling the buffer block by block plays it from the cursor on exactly once,
      with no sample skipped or repeated, and silence after its end. */
  lemma {:induction false} PulledSample(d: Deck, frames: nat, m: nat, k: nat)
    requires Consistent(d) && k < |Pulled(d, frames, m)|
    decreases m
    ensures Pulled(d, frames, m)[k] == Heard(d, k)
  {
    var e := Advance(d, frames);
    var whole := Pulled(d, frames, m);
    assert m > 0;
    assert whole == Block(d, frames) + Pulled(e, frames, m - 1);
    if k < frames {
      BlockSample(d, frames, k);
      assert whole[k] == Block(d, frames)[k];
    } else {
      assert whole[k] == Pulled(e, frames, m - 1)[k - frames];
      PulledSample(e, frames, m - 1, k - frames);
      HeardAfterAdvance(d, frames, k);
    }
  }

  /** After one callback, what is heard a block further on is what was heard
      before at that offset. */
  lemma HeardAfterAdvance(d: Deck, frames: nat, k: nat)
    requires Consistent(d) && frames <= k
    ensures Heard(Advance(d, frames), k - frames) == Heard(d, k)
  {
    var e := Advance(d, frames);
    AdvanceCursor(d, frames);
    if Silent(d) {
      assert e == d;
    } else if d.cursor + frames > d.bufferLength {
      assert e.cursor + (k - frames) >= e.bufferLength;
    } else {
      assert e.cursor + (k - frames) == d.cursor + k;
    }
  }

  /** After m callbacks the cursor has moved m blocks on, or stopped at the end of
      the buffer; without playback it has not moved. */
  lemma {:induction false} PulledCursor(d: Deck, frames: nat, m: nat)
    requires Consistent(d)
    decreases m
    ensures AdvancedBy(d, frames, m).cursor ==
      if !d.isPlaying then d.cursor
      else if d.cursor + m * frames <= d.bufferLength then d.cursor + m * frames
      else d.bufferLength
  {
    if m > 0 {
      PulledCursor(Advance(d, frames), frames, m - 1);
      AdvanceCursor(d, frames);
      assert (m - 1) * frames + frames == m * frames;
    }
  }

  /** The player. The stream it opens on the audio device is not part of this
      model; the device's callback is the method AudioCallback. */
  class AudioPlayer {
    const defaultRate: nat
    var sampleRate: nat
    const blocksize: nat
    var volume: real
    var buffer: seq<real>
    var bufferLength: nat
    var cursor: nat
    var isPlaying: bool
    var currentChunk: seq<real>

    /** The fields the callback reads, as a value. */
    function State(): Deck
      reads this
    {
      Deck(buffer, bufferLength, cursor, volume, isPlaying)
    }

    ghost predicate Valid()
      reads this
    {
      Consistent(State()) && 0.0 <= volume <= 1.0
    }

    /** AudioPlayer(sample_rate=44100, blocksize=1024): half volume, a block of
        zeros as buffer and as current chunk, nothing to play. */
    constructor (sampleRate: nat := 44100, blocksize: nat := 1024)
      ensures Valid()
      ensures this.defaultRate == sampleRate && this.sampleRate == sampleRate && this.blocksize == blocksize
      ensures volume == 0.5
      ensures buffer == Zeros(blocksize) && bufferLength == 0 && cursor == 0
      ensures !isPlaying && currentChunk == Zeros(blocksize)
    {
      defaultRate := sampleRate;
      this.sampleRate := sampleRate;
      this.blocksize := blocksize;
      volume := 0.5;
      buffer := Zeros(blocksize);
      bufferLength := 0;
      cursor := 0;
      isPlaying := false;
      currentChunk := Zeros(blocksize);
    }

    /** set_volume(value) */
    method SetVolume(value: real)
      requires Valid()
      modifies this
      ensures Valid()
      ensures volume == Clip01(value)
      ensures buffer == old(buffer) && bufferLength == old(bufferLength) && cursor == old(cursor)
      ensures isPlaying == old(isPlaying) && currentChunk == old(currentChunk) && sampleRate == old(sampleRate)
    {
      volume := Clip01(value);
    }

    /** play(audio_data): start the new buffer from its beginning. */
    method Play(audioData: seq<real>)
      requires Valid()
      modifies this
      ensures Valid()
      ensures State() == Started(old(State()), audioData)
      ensures currentChunk == old(currentChunk) && sampleRate == old(sampleRate)
    {
      buffer := audioData;
      bufferLength := |audioData|;
      cursor := 0;
      isPlaying := true;
    }

    /** update_buffer(audio_data): swap the buffer and keep the position, unless the
        new buffer is too short for it. */
    method UpdateBuffer(audioData: seq<real>)
      requires Valid()
      modifies this
      ensures Valid()
      ensures State() == Swapped(old(State()), audioData)
      ensures currentChunk == old(currentChunk) && sampleRate == old(sampleRate)
    {
      var newLen := |audioData|;
      if cursor >= newLen {
        cursor := 0;
      }
      buffer := audioData;
      bufferLength := newLen;
    }

    /** get_state() */
    method GetState() returns (chunk: seq<real>, position: nat, length: nat)
      ensures chunk == currentChunk && position == cursor && length == bufferLength
    {
      return currentChunk, cursor, bufferLength;
    }

    /** _audio_callback(output_data, frames, time, status) for the one channel of
        the stream: fill the block, remember it as current_chunk, move the cursor. */
    method AudioCallback(output: array<real>, frames: nat)
      requires Valid() && output.Length == frames
      modifies this, output
      ensures Valid()
      ensures output[..] == Block(old(State()), frames)
      ensures currentChunk == output[..]
      ensures State() == Advance(old(State()), frames)
      ensures sampleRate == old(sampleRate)
    {
      if !isPlaying || cursor >= bufferLength {
        forall k | 0 <= k < frames {
          output[k] := 0.0;
        }
        currentChunk := Zeros(frames);
        assert output[..] == currentChunk;
        return;
      }
      var start := cursor;
      var end := cursor + frames;
      if end > bufferLength {
        var remaining := bufferLength - start;
        forall k | 0 <= k < remaining {
          output[k] := buffer[start + k] * volume;
        }
        forall k | remaining <= k < frames {
          output[k] := 0.0;
        }
        currentChunk := Scaled(buffer[start..], volume) + Zeros(frames - remaining);
        assert forall k :: 0 <= k < remaining ==> currentChunk[k] == output[k];
        assert forall k :: remaining <= k < frames ==> currentChunk[k] == Zeros(frames - remaining)[k - remaining];
        assert output[..] == currentChunk;
        cursor := bufferLength;
      } else {
        var chunk := buffer[start..end];
        forall k | 0 <= k < frames {
          output[k] := chunk[k] * volume;
        }
        currentChunk := Scaled(chunk, volume);
        assert forall k :: 0 <= k < frames ==> currentChunk[k] == output[k];
        assert output[..] == currentChunk;
        cursor := cursor + frames;
      }
    }
  }

  /** The state play(audio_data) leaves. */
  function Started(d: Deck, audioData: seq<real>): (e: Deck)
    ensures Consistent(e) && e.volume == d.volume
    ensures e.buffer == audioData && e.bufferLength == |audioData| && e.cursor == 0 && e.isPlaying
  {
    Deck(audioData, |audioData|, 0, d.volume, true)
  }

  /** The state update_buffer(audio_data) leaves: the cursor is kept exactly when it
      still lies inside the new buffer. */
  function Swapped(d: Deck, audioData: seq<real>): (e: Deck)
    ensures Consistent(e)
    ensures e.buffer == audioData && e.bufferLength == |audioData|
    ensures e.cursor == if d.cursor < |audioData| then d.cursor else 0
    ensures e.isPlaying == d.isPlaying && e.volume == d.volume
  {
    Deck(audioData, |audioData|, if d.cursor >= |audioData| then 0 else d.cursor, d.volume, d.isPlaying)
  }

  /** Swapping the playing buffer for one of the same length, as a change of the
      downsample rate does, keeps the position; a shorter one that the cursor has
      passed restarts it. */
  lemma SwapKeepsPosition(d: Deck, audioData: seq<real>)
    requires Consistent(d) && d.bufferLength > 0 && |audioData| == d.bufferLength
    ensures Swapped(d, audioData).cursor == d.cursor || d.cursor == d.bufferLength
  {
  }

  /** After play, pulling the buffer block by block plays it from its first sample. */
  lemma PlayThenPull(d: Deck, audioData: seq<real>, frames: nat, m: nat)
    ensures |Pulled(Started(d, audioData), frames, m)| == m * frames
    ensures forall k :: 0 <= k < m * frames ==>
      Pulled(Started(d, audioData), frames, m)[k] == if k < |audioData| then audioData[k] * d.volume else 0.0
  {
    PulledLength(Started(d, audioData), frames, m);
    forall k | 0 <= k < m * frames
      ensures Pulled(Started(d, audioData), frames, m)[k] == if k < |audioData| then audioData[k] * d.volume else 0.0
    {
      PlayedSample(d, audioData, frames, m, k);
    }
  }

  lemma PlayedSample(d: Deck, audioData: seq<real>, frames: nat, m: nat, k: nat)
    requires k < |Pulled(Started(d, audioData), frames, m)|
    ensures Pulled(Started(d, audioData), frames, m)[k] == if k < |audioData| then audioData[k] * d.volume else 0.0
  {
    PulledSample(Started(d, audioData), frames, m, k);
  }
}

/** The chord sequencer of src/audio_engine.py: the waveform pools of get_tone and
    chord_player, which renders n three-voice chords and their metadata.

    The waveform generators themselves (trigonometry, scipy's sawtooth, numpy's
    random numbers) are a parameter `synth`; the random choices of chord_player
    are a parameter `picks`. */
module AudioEngine {
  import opened Wrappers
  import opened ScaleTheory
  import opened Resample

  // ---------------------------------------------------------------------------
  // Waveform pools
  // ---------------------------------------------------------------------------

  /** sine_tone, square_tone, triangle_tone, saw_tone and white_noise. */
  datatype Waveform = Sine | Square | Triangle | Saw | WhiteNoise

  /** The menu entries that select tonal waveforms. */
  const TonalChoices: set<string> :=
    {"Random (All)", "Sine", "Square", "Triangle", "Saw", "Sine + Triangle", "Square + Saw"}

  /** Reference table, waveform by waveform: which menu entries offer it. */
  predicate Offers(choice: string, w: Waveform) {
    match w
    case Sine => choice in {"Random (All)", "Sine", "Sine + Triangle"}
    case Square => choice in {"Random (All)", "Square", "Square + Saw"}
    case Triangle => choice in {"Random (All)", "Triangle", "Sine + Triangle"}
    case Saw => choice in {"Random (All)", "Saw", "Square + Saw"}
    case WhiteNoise => choice !in TonalChoices
  }

  /** get_tone: the pool each voice's waveform is drawn from. Every entry outside
      the tonal menu, "play file" included, falls back to white noise. */
  function GetTone(choice: string): (pool: seq<Waveform>)
    ensures 1 <= |pool| <= 4
    ensures forall i, j :: 0 <= i < j < |pool| ==> pool[i] != pool[j]
    ensures forall w :: w in pool <==> Offers(choice, w)
    ensures choice !in TonalChoices ==> pool == [WhiteNoise]
  {
    if choice == "Random (All)" then [Sine, Square, Triangle, Saw]
    else if choice == "Sine" then [Sine]
    else if choice == "Square" then [Square]
    else if choice == "Triangle" then [Triangle]
    else if choice == "Saw" then [Saw]
    else if choice == "Sine + Triangle" then [Sine, Triangle]
    else if choice == "Square + Saw" then [Square, Saw]
    else if choice == "White Noise" then [WhiteNoise]
    else [WhiteNoise]
  }

  // ---------------------------------------------------------------------------
  // Voices and their lengths
  // ---------------------------------------------------------------------------

  /** One call of a waveform generator: kind, MIDI pitch, sample rate, sample count,
      and the position of the call (3 * slot + voice), which lets white noise differ
      from call to call. */
  datatype ToneRequest = ToneRequest(kind: Waveform, midi: int, sampleRate: nat, count: nat, draw: nat)

  type Synth = ToneRequest -> seq<real>

  /** Every generator returns exactly int(sample_rate * duration) samples. */
  ghost predicate RightLengths(synth: Synth) {
    forall t :: |synth(t)| == t.count
  }

  /** int(rate * (60 / bpm)), in exact rationals. */
  function SlotSamples(rate: nat, bpm: nat): nat
    requires bpm > 0
  {
    (60 * rate) / bpm
  }

  /** `if downsample_rate`: None and 0 are falsy. */
  predicate Downsampling(downsampleRate: Option<nat>) {
    downsampleRate.Some? && downsampleRate.value != 0
  }

  function GenerationRate(downsampleRate: Option<nat>): (rate: nat)
    ensures Downsampling(downsampleRate) ==> rate == downsampleRate.value
    ensures !Downsampling(downsampleRate) ==> rate == PlaybackRate
  {
    if Downsampling(downsampleRate) then downsampleRate.value else PlaybackRate
  }

  /** (root_wave + third_wave + fifth_wave) * 0.3 */
  function Mix(a: seq<real>, b: seq<real>, c: seq<real>): (m: seq<real>)
    requires |a| == |b| == |c|
    ensures |m| == |a|
  {
    seq(|a|, k requires 0 <= k < |a| => (a[k] + b[k] + c[k]) * 0.3)
  }

  // ---------------------------------------------------------------------------
  // Fades
  // ---------------------------------------------------------------------------

  /** fade_len = min(100, len(chord) // 2): at most 100 samples and at most half the
      chord, so the fade-in [0, f) and the fade-out [len - f, len) never overlap. */
  function FadeLength(chordLength: nat): (f: nat)
    ensures f <= 100 && 2 * f <= chordLength
    ensures f == 100 || f == chordLength / 2
  {
    if chordLength / 2 < 100 then chordLength / 2 else 100
  }

  /** np.linspace(start, stop, count)[k]: start + k * step with step = (stop - start) / (count - 1);
      a single point is `start`. */
  function Linspace(start: real, stop: real, count: nat, k: nat): (r: real)
    requires k < count
    ensures k == 0 ==> r == start
    ensures count >= 2 && k == count - 1 ==> r == stop
  {
    if count == 1 then start else start + (k as real) * ((stop - start) / ((count - 1) as real))
  }

  /** Both ramps of the fades stay within [0, 1]. */
  lemma RampBounds(count: nat, k: nat)
    requires k < count
    ensures 0.0 <= Linspace(0.0, 1.0, count, k) <= 1.0
    ensures 0.0 <= Linspace(1.0, 0.0, count, k) <= 1.0
  {
    if count > 1 {
      var d := (count - 1) as real;
      var x := k as real;
      assert x <= d;
      assert x * (1.0 / d) == x / d;
      assert x * ((0.0 - 1.0) / d) == 0.0 - x / d;
      assert 0.0 <= x / d <= 1.0;
    }
  }

  /** The gain the two fades leave on sample k of a chord of the given length. */
  function FadeGain(chordLength: nat, k: nat): (g: real)
    requires k < chordLength
  {
    var f := FadeLength(chordLength);
    if k < f then Linspace(0.0, 1.0, f, k)
    else if k >= chordLength - f then Linspace(1.0, 0.0, f, k - (chordLength - f))
    else 1.0
  }

  /** chord[:fade_len] *= np.linspace(0, 1, fade_len) */
  function FadeIn(chord: seq<real>, fadeLen: nat): (r: seq<real>)
    requires fadeLen <= |chord|
    ensures |r| == |chord|
    ensures forall k :: fadeLen <= k < |chord| ==> r[k] == chord[k]
  {
    seq(|chord|, k requires 0 <= k < |chord| =>
      if k < fadeLen then chord[k] * Linspace(0.0, 1.0, fadeLen, k) else chord[k])
  }

  /** chord[-fade_len:] *= np.linspace(1, 0, fade_len), for fade_len > 0 */
  function FadeOut(chord: seq<real>, fadeLen: nat): (r: seq<real>)
    requires 0 < fadeLen <= |chord|
    ensures |r| == |chord|
    ensures forall k :: 0 <= k < |chord| - fadeLen ==> r[k] == chord[k]
  {
    var start := |chord| - fadeLen;
    seq(|chord|, k requires 0 <= k < |chord| =>
      if k >= start then chord[k] * Linspace(1.0, 0.0, fadeLen, k - start) else chord[k])
  }

  /** The chord after both fades. A one-sample chord is refused: its fade length is
      0, chord[-0:] selects the whole chord, and numpy cannot scale it by the empty
      np.linspace(1, 0, 0). An empty chord has nothing to fade. */
  function Faded(chord: seq<real>): (r: seq<real>)
    requires |chord| != 1
    ensures |r| == |chord|
  {
    var f := FadeLength(|chord|);
    if f == 0 then chord else FadeOut(FadeIn(chord, f), f)
  }

  /** The fades scale each sample once, by its gain: fade-in and fade-out never
      touch the same sample. */
  lemma FadedSample(chord: seq<real>, k: nat)
    requires |chord| != 1 && k < |chord|
    ensures Faded(chord)[k] == chord[k] * FadeGain(|chord|, k)
  {
    // a fade length of 0 leaves only the empty chord, which has no sample k
    var L, f := |chord|, FadeLength(|chord|);
    if f > 0 {
      var fadedIn := FadeIn(chord, f);
      var faded := FadeOut(fadedIn, f);
      assert Faded(chord) == faded;
      if k < f {
        assert faded[k] == fadedIn[k];
        assert FadeGain(L, k) == Linspace(0.0, 1.0, f, k);
      } else if k >= L - f {
        assert fadedIn[k] == chord[k];
        assert FadeGain(L, k) == Linspace(1.0, 0.0, f, k - (L - f));
      } else {
        assert faded[k] == chord[k];
        assert FadeGain(L, k) == 1.0;
      }
    }
  }

  /** The gains lie in [0, 1], leave the middle untouched, silence the first sample
      and, once the fade is two samples or longer, the last one. */
  lemma FadeGainShape(chordLength: nat, k: nat)
    requires k < chordLength
    ensures 0.0 <= FadeGain(chordLength, k) <= 1.0
    ensures FadeLength(chordLength) <= k < chordLength - FadeLength(chordLength) ==> FadeGain(chordLength, k) == 1.0
    ensures FadeLength(chordLength) >= 1 && k == 0 ==> FadeGain(chordLength, k) == 0.0
    ensures FadeLength(chordLength) >= 2 && k == chordLength - 1 ==> FadeGain(chordLength, k) == 0.0
  {
    var f := FadeLength(chordLength);
    if k < f {
      RampBounds(f, k);
    } else if k >= chordLength - f {
      RampBounds(f, k - (chordLength - f));
    }
  }

  /** The two in-place scalings chord[:fade_len] *= ... and chord[-fade_len:] *= ... */
  method FadeInPlace(chord: array<real>)
    requires chord.Length != 1
    modifies chord
    ensures chord[..] == Faded(old(chord[..]))
  {
    var fadeLen := FadeLength(chord.Length);
    FadeInHead(chord, fadeLen);
    if fadeLen > 0 {
      // with fadeLen == 0 the chord is empty here and chord[-0:] touches nothing
      FadeOutTail(chord, fadeLen);
    }
  }

  /** chord[:fade_len] *= np.linspace(0, 1, fade_len), in place. */
  method FadeInHead(chord: array<real>, fadeLen: nat)
    requires fadeLen <= chord.Length
    modifies chord
    ensures chord[..] == FadeIn(old(chord[..]), fadeLen)
  {
    forall k | 0 <= k < fadeLen {
      chord[k] := chord[k] * Linspace(0.0, 1.0, fadeLen, k);
    }
    ghost var faded := FadeIn(old(chord[..]), fadeLen);
    assert forall k :: 0 <= k < fadeLen ==> chord[k] == faded[k];
    assert forall k :: fadeLen <= k < chord.Length ==> chord[k] == faded[k];
  }

  /** chord[-fade_len:] *= np.linspace(1, 0, fade_len), in place, for fade_len > 0. */
  method FadeOutTail(chord: array<real>, fadeLen: nat)
    requires 0 < fadeLen <= chord.Length
    modifies chord
    ensures chord[..] == FadeOut(old(chord[..]), fadeLen)
  {
    var start := chord.Length - fadeLen;
    forall k | start <= k < chord.Length {
      chord[k] := chord[k] * Linspace(1.0, 0.0, fadeLen, k - start);
    }
    ghost var faded := FadeOut(old(chord[..]), fadeLen);
    assert forall k :: start <= k < chord.Length ==> chord[k] == faded[k];
    assert forall k :: 0 <= k < start ==> chord[k] == faded[k];
  }

  // ---------------------------------------------------------------------------
  // Chords and songs
  // ---------------------------------------------------------------------------

  /** One entry of chord_data. The source stores the three frequencies computed from
      these MIDI numbers; a loaded file gets a single entry whose root, third and
      fifth are 0, whose quality is "File" and whose note_name is the file name. */
  datatype ChordInfo =
    | Generated(rootMidi: int, thirdMidi: int, fifthMidi: int, quality: Quality, noteName: string)
    | FileChord(noteName: string)

  /** The random draws of one slot: np.random.choice(playable_indices) and the three
      random.choice(pool), as indices. */
  datatype Pick = Pick(degree: nat, rootVoice: nat, thirdVoice: nat, fifthVoice: nat)

  /** What chord_player has computed before its loop. */
  datatype Setting = Setting(scale: seq<int>, pool: seq<Waveform>, bpm: nat, downsampleRate: Option<nat>)

  /** A song and its chord_data. */
  datatype Song = Song(samples: seq<real>, chordData: seq<ChordInfo>)

  /** The draws that the random sources can produce: a playable root (0 .. len(scale) - 6)
      and pool positions. */
  predicate PickFits(c: Setting, p: Pick) {
    && p.degree < |c.scale| - 5
    && p.rootVoice < |c.pool| && p.thirdVoice < |c.pool| && p.fifthVoice < |c.pool|
  }

  predicate PicksFit(c: Setting, picks: seq<Pick>) {
    forall k :: 0 <= k < |picks| ==> PickFits(c, picks[k])
  }

  /** The samples of one chord before the stretch. */
  function ChordLength(c: Setting): nat
    requires c.bpm > 0
  {
    SlotSamples(GenerationRate(c.downsampleRate), c.bpm)
  }

  /** target_length = int(duration * PLAYBACK_RATE). */
  function TargetLength(c: Setting): nat
    requires c.bpm > 0
  {
    SlotSamples(PlaybackRate, c.bpm)
  }

  /** The failure of the slot loop, if any. Every slot has the same lengths, so the
      first slot fails exactly when any would. */
  function SlotError(c: Setting): (e: Option<EngineError>)
    requires c.bpm > 0
    ensures e == Some(FadeShapeMismatch) <==> ChordLength(c) == 1
    ensures e == Some(IndexOutOfRange) <==>
      Downsampling(c.downsampleRate) && ChordLength(c) == 0 && TargetLength(c) > 0
    ensures e.None? || e == Some(FadeShapeMismatch) || e == Some(IndexOutOfRange)
  {
    if ChordLength(c) == 1 then Some(FadeShapeMismatch)
    else if Downsampling(c.downsampleRate) && ChordLength(c) == 0 && TargetLength(c) > 0 then Some(IndexOutOfRange)
    else None
  }

  /** The triad on a playable root: scale positions +2 and +4, classified by their
      semitone distances, named after the root. */
  function ChordAt(scale: seq<int>, degree: nat): (info: ChordInfo)
    requires degree < |scale| - 5
    ensures info.Generated?
    ensures info.rootMidi == scale[degree] && info.thirdMidi == scale[degree + 2] && info.fifthMidi == scale[degree + 4]
    ensures info.quality == Classify(info.thirdMidi - info.rootMidi, info.fifthMidi - info.rootMidi)
    ensures info.noteName == NoteName(info.rootMidi)
  {
    var root, third, fifth := scale[degree], scale[degree + 2], scale[degree + 4];
    Generated(root, third, fifth, Classify(third - root, fifth - root), NoteName(root))
  }

  /** The three voices of a slot, mixed. */
  function SlotMix(c: Setting, p: Pick, slot: nat, synth: Synth): (m: seq<real>)
    requires c.bpm > 0 && PickFits(c, p) && RightLengths(synth)
    ensures |m| == ChordLength(c)
  {
    var info := ChordAt(c.scale, p.degree);
    var rate, count := GenerationRate(c.downsampleRate), ChordLength(c);
    Mix(synth(ToneRequest(c.pool[p.rootVoice], info.rootMidi, rate, count, 3 * slot)),
        synth(ToneRequest(c.pool[p.thirdVoice], info.thirdMidi, rate, count, 3 * slot + 1)),
        synth(ToneRequest(c.pool[p.fifthVoice], info.fifthMidi, rate, count, 3 * slot + 2)))
  }

  /** The finished buffer of a slot: mixed, faded and, when downsampling, stretched
      back to the full-rate duration. Its length is target_length either way. */
  function SlotBuffer(c: Setting, p: Pick, slot: nat, synth: Synth): (b: seq<real>)
    requires c.bpm > 0 && PickFits(c, p) && RightLengths(synth) && SlotError(c).None?
    ensures |b| == TargetLength(c)
  {
    var faded := Faded(SlotMix(c, p, slot, synth));
    if Downsampling(c.downsampleRate) then Stretch(faded, TargetLength(c), c.downsampleRate.value)
    else faded
  }

  function Slots(c: Setting, picks: seq<Pick>, synth: Synth): (parts: seq<seq<real>>)
    requires c.bpm > 0 && PicksFit(c, picks) && RightLengths(synth) && SlotError(c).None?
    ensures |parts| == |picks|
    ensures forall k :: 0 <= k < |parts| ==> |parts[k]| == TargetLength(c)
  {
    seq(|picks|, k requires 0 <= k < |picks| => SlotBuffer(c, picks[k], k, synth))
  }

  function Meta(c: Setting, picks: seq<Pick>): seq<ChordInfo>
    requires PicksFit(c, picks)
  {
    seq(|picks|, k requires 0 <= k < |picks| => ChordAt(c.scale, picks[k].degree))
  }

  /** np.concatenate(chunk_parts) */
  function Concat(parts: seq<seq<real>>): (r: seq<real>)
    ensures parts == [] ==> r == []
    ensures parts != [] ==> |parts[|parts| - 1]| <= |r| && r[|r| - |parts[|parts| - 1]|..] == parts[|parts| - 1]
  {
    if parts == [] then [] else Concat(parts[..|parts| - 1]) + parts[|parts| - 1]
  }

  function SumLengths(parts: seq<seq<real>>): nat {
    if parts == [] then 0 else SumLengths(parts[..|parts| - 1]) + |parts[|parts| - 1]|
  }

  /** The song is as long as its parts together. */
  lemma {:induction false} ConcatLength(parts: seq<seq<real>>)
    ensures |Concat(parts)| == SumLengths(parts)
  {
    if parts != [] {
      ConcatLength(parts[..|parts| - 1]);
    }
  }

  /** With parts of equal length, part k occupies samples [k * len, k * len + len). */
  lemma {:induction false} ConcatSlot(parts: seq<seq<real>>, len: nat, k: nat)
    requires forall j :: 0 <= j < |parts| ==> |parts[j]| == len
    requires k < |parts|
    ensures |Concat(parts)| == |parts| * len
    ensures 0 <= k * len && k * len + len <= |parts| * len
    ensures Concat(parts)[k * len .. k * len + len] == parts[k]
  {
    var n := |parts|;
    var init := parts[..n - 1];
    ConcatParts(parts, len);
    ConcatParts(init, len);
    MulSucc(k, len);
    MulLeftMonotone(0, k, len);
    MulLeftMonotone(k + 1, n, len);
    assert Concat(parts) == Concat(init) + parts[n - 1];
    if k < n - 1 {
      ConcatSlot(init, len, k);
      assert Concat(parts)[k * len .. k * len + len] == Concat(init)[k * len .. k * len + len];
    } else {
      MulSucc(n - 1, len);
      assert k * len == |Concat(init)|;
    }
  }

  lemma {:induction false} ConcatParts(parts: seq<seq<real>>, len: nat)
    requires forall j :: 0 <= j < |parts| ==> |parts[j]| == len
    ensures |Concat(parts)| == |parts| * len
  {
    if parts != [] {
      ConcatParts(parts[..|parts| - 1], len);
      MulSucc(|parts| - 1, len);
    }
  }

  /** One pass of the loop of chord_player: the chord_data entry of the slot, and its
      buffer or the failure that stops the loop. */
  method RenderChord(c: Setting, p: Pick, slot: nat, synth: Synth) returns (info: ChordInfo, r: Result<seq<real>>)
    requires c.bpm > 0 && PickFits(c, p) && RightLengths(synth)
    ensures info == ChordAt(c.scale, p.degree)
    ensures r == if SlotError(c).Some? then Err(SlotError(c).value) else Ok(SlotBuffer(c, p, slot, synth))
  {
    var generationRate := GenerationRate(c.downsampleRate);
    // one of the playable indices 0 .. len(scale) - 6
    var rootIndexScale := p.degree;
    var thirdIndexScale := rootIndexScale + 2;
    var fifthIndexScale := rootIndexScale + 4;
    var rootMidi, thirdMidi, fifthMidi := c.scale[rootIndexScale], c.scale[thirdIndexScale], c.scale[fifthIndexScale];
    var quality := Classify(thirdMidi - rootMidi, fifthMidi - rootMidi);

    var count := SlotSamples(generationRate, c.bpm);
    var rootWave := synth(ToneRequest(c.pool[p.rootVoice], rootMidi, generationRate, count, 3 * slot));
    var thirdWave := synth(ToneRequest(c.pool[p.thirdVoice], thirdMidi, generationRate, count, 3 * slot + 1));
    var fifthWave := synth(ToneRequest(c.pool[p.fifthVoice], fifthMidi, generationRate, count, 3 * slot + 2));

    info := Generated(rootMidi, thirdMidi, fifthMidi, quality, NoteName(rootMidi));

    var mixed := Mix(rootWave, thirdWave, fifthWave);
    assert mixed == SlotMix(c, p, slot, synth);
    if |mixed| == 1 {
      return info, Err(FadeShapeMismatch);
    }
    var chord := new real[|mixed|](k requires 0 <= k < |mixed| => mixed[k]);
    assert chord[..] == mixed;
    FadeInPlace(chord);
    var rendered := chord[..];

    if Downsampling(c.downsampleRate) {
      var targetLength := SlotSamples(PlaybackRate, c.bpm);
      if |rendered| == 0 && targetLength > 0 {
        // np.clip(indexes, 0, -1) sends every index to -1 of an empty chord
        return info, Err(IndexOutOfRange);
      }
      rendered := Stretch(rendered, targetLength, c.downsampleRate.value);
    }
    return info, Ok(rendered);
  }

  /** The draws fit the scale of any mode and the pool of the choice. */
  predicate PicksFitChoice(waveChoice: string, picks: seq<Pick>) {
    forall k :: 0 <= k < |picks| ==>
      && picks[k].degree < ScaleSize - 5
      && picks[k].rootVoice < |GetTone(waveChoice)|
      && picks[k].thirdVoice < |GetTone(waveChoice)|
      && picks[k].fifthVoice < |GetTone(waveChoice)|
  }

  /** What chord_player returns or raises: the unknown mode first (get_scale), then
      the tempo (60 / bpm), then the first failing slot, then the empty concatenation. */
  function Render(n: nat, bpm: nat, rootIndex: int, scaleType: string, waveChoice: string,
                  downsampleRate: Option<nat>, picks: seq<Pick>, synth: Synth): (r: Result<Song>)
    requires |picks| == n && RightLengths(synth) && PicksFitChoice(waveChoice, picks)
    ensures IntervalTable(scaleType).None? ==> r == Err(UnknownScaleType)
    ensures IntervalTable(scaleType).Some? && bpm == 0 ==> r == Err(ZeroTempo)
    ensures IntervalTable(scaleType).Some? && bpm > 0 && n == 0 ==> r == Err(NothingToConcatenate)
    ensures r.Ok? ==> |r.value.chordData| == n
  {
    if IntervalTable(scaleType).None? then Err(UnknownScaleType)
    else if bpm == 0 then Err(ZeroTempo)
    else if n == 0 then Err(NothingToConcatenate)
    else
      var c := Setting(Scale(rootIndex, IntervalTable(scaleType).value), GetTone(waveChoice), bpm, downsampleRate);
      if SlotError(c).Some? then Err(SlotError(c).value)
      else Ok(Song(Concat(Slots(c, picks, synth)), Meta(c, picks)))
  }

  /** chord_player(n, bpm, root_index, scale_type, wave_choice, downsample_rate). */
  method ChordPlayer(n: nat, bpm: nat, rootIndex: int, scaleType: string, waveChoice: string,
                     downsampleRate: Option<nat>, picks: seq<Pick>, synth: Synth)
    returns (r: Result<Song>)
    requires |picks| == n && RightLengths(synth) && PicksFitChoice(waveChoice, picks)
    ensures r == Render(n, bpm, rootIndex, scaleType, waveChoice, downsampleRate, picks, synth)
  {
    var pool := GetTone(waveChoice);
    var scaleResult := GetScale(rootIndex, scaleType);
    if scaleResult.Err? {
      return Err(scaleResult.error);
    }
    var scale := scaleResult.value;
    if bpm == 0 {
      return Err(ZeroTempo);
    }
    var c := Setting(scale, pool, bpm, downsampleRate);
    assert PicksFit(c, picks);
    var chunkParts: seq<seq<real>> := [];
    var chordData: seq<ChordInfo> := [];
    for i := 0 to n
      invariant |chunkParts| == i
      invariant i > 0 ==> SlotError(c).None?
      invariant SlotError(c).None? ==> chunkParts == Slots(c, picks[..i], synth)
      invariant chordData == Meta(c, picks[..i])
    {
      var info, rendered := RenderChord(c, picks[i], i, synth);
      chordData := chordData + [info];
      MetaSnoc(c, picks, i);
      if rendered.Err? {
        return Err(rendered.error);
      }
      SlotsSnoc(c, picks, synth, i);
      chunkParts := chunkParts + [rendered.value];
    }
    if chunkParts == [] {
      return Err(NothingToConcatenate);
    }
    assert picks[..n] == picks;
    return Ok(Song(Concat(chunkParts), chordData));
  }

  lemma SlotsSnoc(c: Setting, picks: seq<Pick>, synth: Synth, i: nat)
    requires c.bpm > 0 && PicksFit(c, picks) && RightLengths(synth) && SlotError(c).None?
    requires i < |picks|
    ensures PicksFit(c, picks[..i]) && PicksFit(c, picks[..i + 1])
    ensures Slots(c, picks[..i + 1], synth) == Slots(c, picks[..i], synth) + [SlotBuffer(c, picks[i], i, synth)]
  {
    var init, next := picks[..i], picks[..i + 1];
    assert PicksFit(c, init);
    assert PicksFit(c, next);
    var longer, shorter := Slots(c, next, synth), Slots(c, init, synth);
    forall j | 0 <= j < i
      ensures longer[j] == shorter[j]
    {
      assert next[j] == init[j];
    }
  }

  lemma MetaSnoc(c: Setting, picks: seq<Pick>, i: nat)
    requires PicksFit(c, picks) && i < |picks|
    ensures PicksFit(c, picks[..i]) && PicksFit(c, picks[..i + 1])
    ensures Meta(c, picks[..i + 1]) == Meta(c, picks[..i]) + [ChordAt(c.scale, picks[i].degree)]
  {
    var init, next := picks[..i], picks[..i + 1];
    assert PicksFit(c, init);
    assert PicksFit(c, next);
    var longer, shorter := Meta(c, next), Meta(c, init);
    forall j | 0 <= j < i
      ensures longer[j] == shorter[j]
    {
      assert next[j] == init[j];
    }
  }

  // ---------------------------------------------------------------------------
  // Properties of the rendered song
  // ---------------------------------------------------------------------------

  /** The song is target_length samples per slot (by ConcatSlot, slot k's buffer
      sits at k * target_length), and there is one metadata entry per slot, in the
      same order. */
  lemma SongLayout(c: Setting, picks: seq<Pick>, synth: Synth, k: nat)
    requires c.bpm > 0 && PicksFit(c, picks) && RightLengths(synth) && SlotError(c).None?
    requires k < |picks|
    ensures |Concat(Slots(c, picks, synth))| == |picks| * TargetLength(c)
    ensures |Meta(c, picks)| == |picks| && Meta(c, picks)[k] == ChordAt(c.scale, picks[k].degree)
  {
    ConcatParts(Slots(c, picks, synth), TargetLength(c));
  }

  /** Every chord the player generates from a valid scale is the diatonic triad of
      its degree, never "Aug" and never "???". */
  lemma GeneratedQualities(rootIndex: int, scaleType: string, c: Setting, picks: seq<Pick>, k: nat)
    requires IntervalTable(scaleType).Some?
    requires c.scale == Scale(rootIndex, IntervalTable(scaleType).value)
    requires PicksFit(c, picks) && k < |picks|
    ensures Meta(c, picks)[k].quality == DiatonicTriad(scaleType, picks[k].degree % 7)
    ensures Meta(c, picks)[k].quality !in {Aug, Unclassified}
  {
    DiatonicQuality(rootIndex, scaleType, picks[k].degree);
  }

  /** A song chord_player returns has n metadata entries and n * target_length
      samples, and entry k is the diatonic triad on the degree drawn for slot k. */
  lemma RenderedLayout(n: nat, bpm: nat, rootIndex: int, scaleType: string, waveChoice: string,
                       downsampleRate: Option<nat>, picks: seq<Pick>, synth: Synth, k: nat)
    requires |picks| == n && RightLengths(synth) && PicksFitChoice(waveChoice, picks)
    requires Render(n, bpm, rootIndex, scaleType, waveChoice, downsampleRate, picks, synth).Ok?
    requires k < n
    ensures bpm > 0 && IntervalTable(scaleType).Some?
    ensures var song := Render(n, bpm, rootIndex, scaleType, waveChoice, downsampleRate, picks, synth).value;
      && |song.chordData| == n
      && |song.samples| == n * SlotSamples(PlaybackRate, bpm)
      && song.chordData[k].Generated?
      && song.chordData[k].quality == DiatonicTriad(scaleType, picks[k].degree % 7)
  {
    var c := Setting(Scale(rootIndex, IntervalTable(scaleType).value), GetTone(waveChoice), bpm, downsampleRate);
    assert PicksFit(c, picks);
    var song := Render(n, bpm, rootIndex, scaleType, waveChoice, downsampleRate, picks, synth).value;
    assert song == Song(Concat(Slots(c, picks, synth)), Meta(c, picks));
    SongLayout(c, picks, synth, k);
    GeneratedQualities(rootIndex, scaleType, c, picks, k);
  }

  /** Tempos of 40 to 300 BPM with no downsampling or a rate of at least 1000 Hz (the
      ranges of the tempo box and of the downsample slider) never hit a failure of
      the slot loop, and every chord then fades over exactly 100 samples. */
  lemma WidgetRangesRender(c: Setting)
    requires 40 <= c.bpm <= 300
    requires c.downsampleRate.None? || c.downsampleRate.value >= 1000
    ensures ChordLength(c) >= 200 && FadeLength(ChordLength(c)) == 100
    ensures SlotError(c).None?
  {
    var rate := GenerationRate(c.downsampleRate);
    var q := (60 * rate) / c.bpm;
    DivBounds(60 * rate, c.bpm);
    assert 200 * c.bpm <= 60 * rate < q * c.bpm + c.bpm;
    assert q * c.bpm + c.bpm == (q + 1) * c.bpm;
    MulStrictCancel(200, q + 1, c.bpm);
  }

  /** At 120 BPM every slot lasts half a second: 22050 samples. */
  lemma HalfSecondSlots(c: Setting)
    requires c.bpm == 120
    ensures TargetLength(c) == 22050
  {
  }
}

# Chord sequencer and playback cursor, modelled in Dafny

The repository is a small desktop synthesiser. It has three parts.

- The **engine** (`src/audio_engine.py`) builds a four-octave major or minor scale from a root note. It draws `n` random triads on playable degrees, classifies each one (Maj, Min, Dim, Aug or "???") and renders three voices per chord from a pool of waveforms. Each chord fades in and out over `min(100, len // 2)` samples. When a reduced generation rate is chosen, the chord is stretched back to the full-rate duration by nearest-neighbour indexing. All the chords are then concatenated into one song, with one metadata entry per chord. The engine also has `apply_downsample`, a nearest-neighbour resampler that keeps the buffer's length.
- The **player** (`src/audio_player.py`) holds a buffer and a cursor. The audio device pulls one block of samples per callback; a block is silence, a partial final block padded with zeros, or a full block. Every block is scaled by the volume.
- The **controller** (`src/audio_controller.py`) decides where the next buffer comes from: a file (possibly the remembered one) or the generator. It also decides whether the player restarts (`play`) or swaps the buffer under the running cursor (`update_buffer`).

The model has six modules.

- `Wrappers` (`wrappers.dfy`) holds `Option`, `Result` and the exceptions the core can raise, each as an `EngineError`.
- `ScaleTheory` (`scale_theory.dfy`) covers get_scale, chord quality and the integer step of find_note. A parser is proved to invert the note names.
- `Resample` (`resample.dfy`) holds the two index maps: `apply_downsample` and the stretch step of `chord_player`. Samples are opaque values and rate ratios are exact rationals.
- `AudioEngine` (`audio_engine.dfy`) covers get_tone, the fades (in place on an `array`) and `chord_player`.
  - `chord_player` is a loop proved against the specification function `Render`.
  - The waveform generators are a function parameter `synth`. The random draws are a parameter `picks`.
- `Player` (`audio_player.dfy`) holds the class `AudioPlayer`, whose methods change its fields in place. Each method is proved against pure transition functions on the value `Deck`, the fields the callback reads. Lemmas prove what a run of callbacks plays.
- `Controller` (`audio_controller.dfy`) holds the classes `View` and `PlaybackController`. `start_playback` is modelled with the widget values as a record, and the file loader as a function parameter.

Python exceptions become `Err` results:

- an unknown scale mode leaves `intervals` unbound (`UnknownScaleType`);
- `bpm == 0` divides by zero (`ZeroTempo`);
- `n == 0` concatenates an empty list (`NothingToConcatenate`);
- a one-sample chord cannot be scaled by the empty `np.linspace(1, 0, 0)` fade, because `chord[-0:]` is the whole chord (`FadeShapeMismatch`);
- stretching an empty chord to a non-empty length indexes `chord[-1]` (`IndexOutOfRange`).

In two places the code may surprise a reader; the model follows the code:

- Any unrecognised waveform choice gets the pool `[white_noise]`, not the four tonal waves (src/audio_engine.py:85-86). This includes "play file", should the engine be asked for it.
- An unknown scale mode is not rejected up front. It fails where the code fails: after `get_tone`, and before the tempo is used.

## Model

| member | source | states |
|---|---|---|
| ScaleTheory.IntervalTable | src/audio_engine.py:41-44 | an interval table exists exactly for "Major" and "Minor"; each starts at 0, rises strictly and stays inside one octave |
| ScaleTheory.GetScale | src/audio_engine.py:37-52 | the nested loops return the 28-note scale `Scale(root, intervals)` for a known mode and `UnknownScaleType` otherwise |
| ScaleTheory.ScalePrefixGrows | src/audio_engine.py:47-50 | appending degree j of octave k after 7k+j notes keeps every entry m equal to start + 12*(m // 7) + intervals[m % 7] |
| ScaleTheory.ScaleEntry | src/audio_engine.py:47-50 | entry 7k+j of the scale is 48 + root + 12k + intervals[j] |
| ScaleTheory.ScaleStep | src/audio_engine.py:47-50 | each scale entry is below the next, across octave boundaries too |
| ScaleTheory.ScaleStrictlyIncreasing | src/audio_engine.py:37-52 | the scale is strictly increasing |
| ScaleTheory.ScaleOctave | src/audio_engine.py:47-50 | seven positions up is 12 semitones up |
| ScaleTheory.Classify | src/audio_engine.py:112-120 | Maj iff (4,7), Min iff (3,7), Dim iff (3,6), Aug iff (4,8), "???" iff none of these; the cases exclude each other |
| ScaleTheory.DiatonicTriad | src/audio_engine.py:112-120 | the reference triad table of the major and the natural minor scale never holds "Aug" or "???" |
| ScaleTheory.TriadSpans | src/audio_engine.py:101-110 | for a playable root r, the distances to r+2 and r+4 depend only on the degree r mod 7 |
| ScaleTheory.DiatonicDegree | src/audio_engine.py:112-120 | the seven triads of each mode classify as Maj/Min/Min/Maj/Maj/Min/Dim (major) and Min/Dim/Maj/Min/Min/Maj/Maj (minor) |
| ScaleTheory.DiatonicQuality | src/audio_engine.py:94-120 | every playable root (0 .. len(scale)-6) gives the diatonic triad of its degree; the indices r+2 and r+4 stay in the scale, and the quality is never Aug or "???" |
| ScaleTheory.NameIndex | src/audio_engine.py:63-65 | the search of the name table finds the only position of a name |
| ScaleTheory.NoteNameShape | src/audio_engine.py:63 | every name in the table is a letter from A to G, optionally followed by '#' |
| ScaleTheory.NameIndexMisses | src/audio_engine.py:63-66 | a lone "?" (the start of "???") matches no name in the table |
| ScaleTheory.ParseNameAndOctave | src/audio_engine.py:63-66 | a table name followed by a decimal octave number parses back to (octave + 1) * 12 + its index |
| ScaleTheory.NoteName | src/audio_engine.py:63-66 | name of the MIDI number: at least two characters, starting with a letter from A to G; NoteNameParses inverts it |
| ScaleTheory.FindNote | src/audio_engine.py:59-66 | "???" exactly for frequency 0 (no pitch), otherwise the note name; FindNoteRoundTrip inverts it |
| ScaleTheory.NoteNameParses | src/audio_engine.py:63-66 | name plus (midi // 12 - 1) determines the MIDI number: parsing it back gives the number |
| ScaleTheory.FindNoteRoundTrip | src/audio_engine.py:59-66 | find_note is invertible on rounded MIDI numbers, and "???" (frequency 0) parses back to "no pitch" |
| ScaleTheory.A4IsNamed | src/audio_engine.py:59-66 | MIDI 69 is "A4" and MIDI 48 is "C3" |
| ScaleTheory.NatToStringParses | src/audio_engine.py:64-66 | the decimal octave number parses back to itself |
| ScaleTheory.IntToStringParses | src/audio_engine.py:64-66 | the octave number, negative ones included, parses back to itself |
| Resample.DownsampleIndex | src/audio_engine.py:168-170 | floor(floor(i/step)*step) never exceeds i and lies less than step + 1 samples below it |
| Resample.Reduces | src/audio_engine.py:166 | downsampling happens only for a truthy target below the original rate (so 0 < target < rate); None, 0 and a target at or above the rate return early |
| Resample.ApplyDownsample | src/audio_engine.py:165-172 | the output always has the input's length; a falsy target or one at or above the original rate returns the buffer unchanged |
| Resample.DownsampleHolds | src/audio_engine.py:168-172 | when the rate is reduced, output i is input idx(i) with idx(i) <= i and less than step + 1 samples back |
| Resample.DownsampleIndexMonotone | src/audio_engine.py:169-171 | later outputs never take earlier samples |
| Resample.DownsampleExample | src/audio_engine.py:165-172 | at rate 8 down to 4, [1..8] becomes [1,1,3,3,5,5,7,7] |
| Resample.StretchIndex | src/audio_engine.py:147-150 | the index i/step is truncated and clamped: it lies inside the chord, at or before time i, and it is the last such sample |
| Resample.Stretch | src/audio_engine.py:146-150 | the stretched chord has exactly target_length samples |
| Resample.StretchIndexMonotone | src/audio_engine.py:148-150 | the index sequence is non-decreasing |
| Resample.StretchAtFullRate | src/audio_engine.py:146-150 | stretching at the full rate to the chord's own length is the identity |
| AudioEngine.GetTone | src/audio_engine.py:68-87 | every pool has 1 to 4 distinct waveforms, and a waveform is in a pool exactly when the reference table offers it for the choice; unrecognised strings give [white_noise] |
| AudioEngine.GenerationRate | src/audio_engine.py:97 | the downsample rate when it is truthy, otherwise 44100 |
| AudioEngine.Mix | src/audio_engine.py:138 | sample k of the chord is 0.3 times the sum of the three voices' samples k |
| AudioEngine.FadeLength | src/audio_engine.py:140 | the fade covers min(100, len // 2) samples, so fade-in and fade-out never overlap |
| AudioEngine.Linspace | src/audio_engine.py:141-142 | np.linspace point k: the first point is start and, for two or more points, the last is stop; RampBounds keeps both ramps in [0, 1] |
| AudioEngine.RampBounds | src/audio_engine.py:141-142 | both linspace ramps stay within [0, 1] |
| AudioEngine.FadeIn | src/audio_engine.py:141 | the fade-in keeps the chord's length and leaves every sample from fade_len on untouched |
| AudioEngine.FadeOut | src/audio_engine.py:142 | the fade-out keeps the chord's length and leaves every sample before the last fade_len untouched |
| AudioEngine.Faded | src/audio_engine.py:140-142 | the fades keep the chord's length |
| AudioEngine.FadeGainShape | src/audio_engine.py:140-142 | fade gains lie in [0, 1]; the middle is untouched; the first sample and (for fades of two or more) the last are silenced |
| AudioEngine.FadeInHead | src/audio_engine.py:141 | `chord[:fade_len] *= linspace(0, 1, fade_len)` in place: the array becomes `FadeIn` of its old contents |
| AudioEngine.FadeOutTail | src/audio_engine.py:142 | `chord[-fade_len:] *= linspace(1, 0, fade_len)` in place: the array becomes `FadeOut` of its old contents |
| AudioEngine.FadedSample | src/audio_engine.py:140-142 | sample k of the faded chord is sample k times its gain: the rising ramp on the first fade_len samples, the falling ramp on the last fade_len, and 1 in between |
| AudioEngine.FadeInPlace | src/audio_engine.py:140-142 | the array afterwards holds `Faded` of its old contents |
| AudioEngine.SlotError | src/audio_engine.py:140-150 | the slot loop fails with FadeShapeMismatch exactly for one-sample chords, with IndexOutOfRange exactly for an empty chord stretched to a non-empty target, and in no other way |
| AudioEngine.ChordAt | src/audio_engine.py:101-136 | the chord on a playable root takes scale positions r, r+2 and r+4; its quality is Classify of their distances and its name is the root's note name (GeneratedQualities, NoteNameParses) |
| AudioEngine.SlotMix | src/audio_engine.py:122-138 | the three voices of a slot mix to int(rate * duration) samples |
| AudioEngine.SlotBuffer | src/audio_engine.py:138-152 | every finished slot has exactly target_length samples, stretched or not |
| AudioEngine.Concat | src/audio_engine.py:154 | np.concatenate: no parts give the empty song, and the last part ends the song; ConcatLength and ConcatSlot place every part |
| AudioEngine.ConcatLength | src/audio_engine.py:154 | the song is as long as its parts together |
| AudioEngine.ConcatParts | src/audio_engine.py:154 | n parts of equal length give n times that length |
| AudioEngine.ConcatSlot | src/audio_engine.py:154 | with equal-length parts, n parts give n*len samples and part k occupies samples [k*len, (k+1)*len), which lie inside the song |
| AudioEngine.RenderChord | src/audio_engine.py:101-152 | one pass of the loop returns the ChordAt metadata, together with either the slot's buffer or the error of the slot loop |
| AudioEngine.SlotsSnoc | src/audio_engine.py:152 | one more pass appends exactly one buffer, in generation order |
| AudioEngine.MetaSnoc | src/audio_engine.py:130-136 | one more pass appends exactly one metadata entry, in generation order |
| AudioEngine.Render | src/audio_engine.py:89-155 | what chord_player returns: UnknownScaleType for an unknown mode, then ZeroTempo for bpm 0, then NothingToConcatenate for n == 0; a returned song has n metadata entries (RenderedLayout gives the rest) |
| AudioEngine.ChordPlayer | src/audio_engine.py:89-155 | the loop returns `Render`: the exceptions, in the order the code raises them, or the concatenated slots and their metadata |
| AudioEngine.Slots | src/audio_engine.py:100-152 | the loop yields one buffer per draw, each of target_length samples |
| AudioEngine.SongLayout | src/audio_engine.py:100-155 | a song of n slots has n*target_length samples (with ConcatSlot: slot k at [k*T, (k+1)*T)); there are n metadata entries and entry k describes slot k |
| AudioEngine.GeneratedQualities | src/audio_engine.py:101-120 | every generated chord is the diatonic triad of its degree, never "Aug" and never "???" |
| AudioEngine.RenderedLayout | src/audio_engine.py:89-155 | a returned song has n metadata entries and n*target_length samples, needs a known mode and bpm > 0, and entry k is the diatonic triad of its degree |
| AudioEngine.WidgetRangesRender | src/audio_engine.py:95-150 | with 40..300 BPM and no downsampling or a rate of at least 1000 Hz, no slot fails, and every fade is 100 samples |
| AudioEngine.HalfSecondSlots | src/audio_engine.py:146 | at 120 BPM a slot is 22050 samples |
| Player.Clip01 | src/audio_player.py:43 | the volume is clamped into [0, 1]: kept inside, 0 below, 1 above |
| Player.Block | src/audio_player.py:65-85 | each callback writes exactly `frames` samples |
| Player.Advance | src/audio_player.py:65-85 | the callback moves only the cursor and keeps cursor <= buffer_length |
| Player.BlockSample | src/audio_player.py:65-85 | output sample k is buffer[cursor+k]*volume while playing and inside the buffer, and 0 otherwise; this covers the silent, partial and full cases |
| Player.AdvanceCursor | src/audio_player.py:65-85 | silent: the block is zeros and nothing moves; full: the cursor advances by `frames`; partial: it stops at buffer_length |
| Player.PinnedAtEnd | src/audio_player.py:65-68 | once cursor == buffer_length, every further callback is silent and the cursor stays pinned |
| Player.PulledLength | src/audio_player.py:62-85 | m callbacks deliver m*frames samples |
| Player.PulledSample | src/audio_player.py:62-85 | sample k of a run of callbacks is buffer[cursor+k]*volume while playing and inside the buffer, and 0 otherwise: the buffer plays from the cursor exactly once, nothing skipped or repeated, then silence |
| Player.HeardAfterAdvance | src/audio_player.py:65-85 | after one callback, what is heard a block further on is what was heard at that offset before it |
| Player.PulledCursor | src/audio_player.py:62-85 | after m callbacks the cursor is min(cursor + m*frames, buffer_length) while playing, and unchanged otherwise |
| Player.AudioPlayer.constructor | src/audio_player.py:8-18 | volume 0.5, a block of zeros as buffer and as current chunk, buffer_length 0, cursor 0, not playing |
| Player.AudioPlayer.SetVolume | src/audio_player.py:42-43 | the volume becomes the clamped value; nothing else changes |
| Player.AudioPlayer.Play | src/audio_player.py:45-49 | the new state is `Started`; the current chunk is kept |
| Player.AudioPlayer.UpdateBuffer | src/audio_player.py:51-57 | the new state is `Swapped`; the current chunk is kept |
| Player.AudioPlayer.GetState | src/audio_player.py:59-60 | returns (current_chunk, cursor, buffer_length) and changes nothing |
| Player.AudioPlayer.AudioCallback | src/audio_player.py:62-85 | the output array receives `Block`, current_chunk mirrors it, and the state becomes `Advance`; the invariant is kept |
| Player.Started | src/audio_player.py:45-49 | play sets buffer, buffer_length = len, cursor 0 and playing, and keeps the volume |
| Player.Swapped | src/audio_player.py:51-57 | update_buffer keeps the cursor exactly when it is below the new length and resets it to 0 otherwise; it keeps is_playing and the volume |
| Player.PlayedSample | src/audio_player.py:45-85 | after play, sample k of a run of callbacks is audio_data[k] times the volume inside the buffer and silence past it |
| Player.SwapKeepsPosition | src/audio_player.py:51-57 | swapping in a buffer of the same length keeps the position, unless playback had already reached the end |
| Player.PlayThenPull | src/audio_player.py:45-85 | after play, a run of callbacks delivers the new buffer from its first sample, scaled by the volume, and then silence |
| Controller.DownsampleRate | src/audio_controller.py:15-16 | None exactly when the slider is above 44000, otherwise the slider value |
| Controller.FileRequest | src/audio_controller.py:21-25 | the remembered file is reused exactly when keep_position holds and a name is remembered; otherwise None (a random pick) |
| Controller.Remember | src/audio_controller.py:32-33 | the remembered name becomes chord_data[0]'s note_name when the metadata is non-empty, and is kept otherwise |
| Controller.FileBuffer | src/audio_controller.py:29-35 | downsampling the file keeps its length, so samples_per_chord is the loaded length |
| Controller.Dispatch | src/audio_controller.py:50-53 | update_buffer exactly when keep_position holds and the player is playing; play otherwise |
| Controller.SliderKeepsFilePosition | src/audio_controller.py:21-53 | a slider release during file playback reloads the same file and keeps the cursor, unless the cursor had reached the end of the buffer, where update_buffer resets it to 0 and a finished file that is still playing restarts from the top |
| Controller.View.constructor | src/gui.py:29-30 | the window starts with no chord data and 0 samples per chord |
| Controller.PlaybackController.constructor | src/audio_controller.py:5-7 | no file name is remembered at first |
| Controller.PlaybackController.StartPlayback | src/audio_controller.py:9-53 | specifies both modes: file mode (file choice, remembered name, chord_data, samples_per_chord) and generated mode (32 chords, name cleared, samples_per_chord = int(60/bpm*44100), errors leave view and player as they were); either way the player state is `Dispatch` of the new buffer, and the current chunk and the sample rate are kept |
| Controller.GeneratedSongLinesUp | src/audio_controller.py:41-45 | a successful generated song has 32 chord_data entries and exactly 32 * samples_per_chord samples, and entry k is the diatonic triad of its degree |

## Left out

- The waveform generators (sine, square, triangle, saw, white noise) are floating-point trigonometry and random numbers. They are a function parameter. The only assumption is that each returns exactly the requested number of samples.
- `midi_to_frequency` and the log2/round step of `find_note` are float conversions. The metadata stores MIDI numbers, and `FindNote` takes the rounded MIDI number. A frequency of 0 is `None`.
- Random choices of degree and voice are a parameter `picks` of draws the random sources can produce. The random file choice of the loader is inside the loader parameter.
- Floats are exact rationals (`real`). The rounding of `60 / bpm`, of `step`, and of the fade and mix multiplications is not modelled. `int(rate * 60 / bpm)` is the exact floor `(60 * rate) / bpm`.
- Negative tempos are not modelled: `bpm` is a natural number. The tempo box allows 40 to 300.
- The sounddevice stream (`_start_stream`, `update_rate`, the stream's channel layout) and the `status` printing in the callback are device I/O and are not modelled. The callback's `time` argument is unused and not modelled. `sampleRate` has no operation that changes it.
- The callback and the GUI thread share `buffer`, `buffer_length` and `cursor` without a lock. Each operation is modelled as one atomic step.
- The progress print of `chord_player` and the controller's info label texts are display output and are not modelled.
- src/gui.py (Qt widgets and plotting) is not part of this model. Its widget values are the `Widgets` record.
- src/audio_loader.py is not part of this model. `Loader` stands for what it returns: a waveform and zero or one metadata entries.
- The lab scripts and src/main.py are plotting and start-up code and are not modelled.
- Player.AudioPlayer.AudioCallback: the output array is a plain array of samples; the stream's second (channel) axis is not modelled.
- AudioEngine.ChordPlayer: the metadata stores MIDI numbers, not the three frequencies, and a loaded file's metadata entry keeps only its name (the zero frequencies and the "File" quality are dropped).

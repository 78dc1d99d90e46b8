/** The decision of src/audio_controller.py that runs on the play button and on a
    release of the downsample slider: where the new buffer comes from (a file or
    the generator), which file name to remember, and whether the player starts
    over or swaps the buffer under the running cursor. */
module Controller {
  import opened Wrappers
  import opened ScaleTheory
  import opened Resample
  import opened AudioEngine
  import opened Player

  /** The widget values start_playback reads. */
  datatype Widgets = Widgets(bpm: nat, rootIndex: int, scaleText: string, waveText: string, downsampleSlider: nat)

  /** A file buffer and its chord_data as load_wav_file returns them: zero entries
      when the file is missing, one (named after the file) otherwise. */
  datatype Loaded = Loaded(waveform: seq<real>, chordData: seq<ChordInfo>)

  /** load_wav_file(filename); None asks for a random file. */
  type Loader = Option<string> -> Loaded

  /** The wave menu entry that plays a file instead of generating chords. */
  const PlayFile: string := "play file"

  /** How many chords the generator is asked for. */
  const SongChords: nat := 32

  /** The slider's top end (above 44000) means no downsampling. */
  function DownsampleRate(slider: nat): (d: Option<nat>)
    ensures d.None? <==> slider > 44000
    ensures d.Some? ==> d.value == slider
  {
    if slider > 44000 then None else Some(slider)
  }

  /** The file to load: the remembered one only when the position is kept and a
      name is remembered; otherwise None, a random pick. */
  function FileRequest(keepPosition: bool, remembered: Option<string>): (f: Option<string>)
    ensures f.Some? <==> keepPosition && remembered.Some?
    ensures f.Some? ==> f == remembered
  {
    if keepPosition && remembered.Some? then remembered else None
  }

  /** The name remembered after loading: the note_name of the first entry of the
      returned chord_data, or the previous name when it is empty. */
  function Remember(remembered: Option<string>, chordData: seq<ChordInfo>): (f: Option<string>)
    ensures chordData == [] ==> f == remembered
    ensures chordData != [] ==> f == Some(chordData[0].noteName)
  {
    if chordData != [] then Some(chordData[0].noteName) else remembered
  }

  /** The loaded waveform, downsampled when a (truthy) rate is set. Downsampling
      keeps the length, so samples_per_chord is the loaded length either way. */
  function FileBuffer(waveform: seq<real>, downsampleRate: Option<nat>): (b: seq<real>)
    ensures |b| == |waveform|
    ensures downsampleRate.None? || downsampleRate.value >= PlaybackRate ==> b == waveform
  {
    if downsampleRate.Some? && downsampleRate.value != 0 then ApplyDownsample(waveform, downsampleRate, PlaybackRate)
    else waveform
  }

  /** The player's state after the dispatch: update_buffer exactly when the position
      is kept and the player is playing, play otherwise. */
  function Dispatch(d: Deck, keepPosition: bool, audioBuffer: seq<real>): (e: Deck)
    ensures e.buffer == audioBuffer && e.bufferLength == |audioBuffer| && Consistent(e)
    ensures keepPosition && d.isPlaying ==> e == Swapped(d, audioBuffer)
    ensures !(keepPosition && d.isPlaying) ==> e == Started(d, audioBuffer)
  {
    if keepPosition && d.isPlaying then Swapped(d, audioBuffer) else Started(d, audioBuffer)
  }

  /** A slider release while a file plays keeps the file and, since the downsampled
      buffer is as long as the loaded one, the position in it, except at the end of
      the buffer, where update_buffer resets the cursor to 0. */
  lemma SliderKeepsFilePosition(d: Deck, remembered: string, loader: Loader, slider: nat)
    requires Consistent(d) && d.isPlaying && d.bufferLength > 0
    requires |loader(Some(remembered)).waveform| == d.bufferLength
    ensures FileRequest(true, Some(remembered)) == Some(remembered)
    ensures var b := FileBuffer(loader(Some(remembered)).waveform, DownsampleRate(slider));
      Dispatch(d, true, b).cursor == if d.cursor < d.bufferLength then d.cursor else 0
  {
    var b := FileBuffer(loader(Some(remembered)).waveform, DownsampleRate(slider));
    SwapKeepsPosition(d, b);
  }

  /** The window's state that start_playback writes. */
  class View {
    var chordData: seq<ChordInfo>
    var samplesPerChord: nat
    const player: AudioPlayer

    /** A fresh window: no chord data, and 0 samples per chord. */
    constructor (player: AudioPlayer)
      ensures this.player == player && chordData == [] && samplesPerChord == 0
    {
      this.player := player;
      chordData := [];
      samplesPerChord := 0;
    }
  }

  class PlaybackController {
    const view: View
    var currentFilename: Option<string>

    constructor (view: View)
      ensures this.view == view && currentFilename == None
    {
      this.view := view;
      currentFilename := None;
    }

    /** start_playback(keep_position). The generator's random draws and voices are
        the parameters picks and synth; a failure of chord_player propagates as
        Err, after current_filename has already been cleared. */
    method StartPlayback(w: Widgets, keepPosition: bool, loader: Loader, picks: seq<Pick>, synth: Synth)
      returns (r: Result<()>)
      requires view.player.Valid()
      requires w.waveText != PlayFile ==>
        |picks| == SongChords && RightLengths(synth) && PicksFitChoice(w.waveText, picks)
      modifies this, view, view.player
      ensures view.player.Valid()
      ensures view.player.currentChunk == old(view.player.currentChunk)
      ensures view.player.sampleRate == old(view.player.sampleRate)
      ensures w.waveText == PlayFile ==>
        var loaded := loader(FileRequest(keepPosition, old(currentFilename)));
        var audioBuffer := FileBuffer(loaded.waveform, DownsampleRate(w.downsampleSlider));
        && r == Ok(())
        && view.chordData == loaded.chordData
        && currentFilename == Remember(old(currentFilename), loaded.chordData)
        && view.samplesPerChord == |audioBuffer|
        && view.player.State() == Dispatch(old(view.player.State()), keepPosition, audioBuffer)
      ensures w.waveText != PlayFile ==>
        var rendered := Render(SongChords, w.bpm, w.rootIndex, w.scaleText, w.waveText,
                               DownsampleRate(w.downsampleSlider), picks, synth);
        && currentFilename == None
        && (rendered.Err? ==>
              && r == Err(rendered.error)
              && view.chordData == old(view.chordData)
              && view.samplesPerChord == old(view.samplesPerChord)
              && view.player.State() == old(view.player.State()))
        && (rendered.Ok? ==>
              && r == Ok(())
              && view.chordData == rendered.value.chordData
              && w.bpm > 0 && view.samplesPerChord == SlotSamples(PlaybackRate, w.bpm)
              && view.player.State() == Dispatch(old(view.player.State()), keepPosition, rendered.value.samples))
    {
      var downsampleRate := DownsampleRate(w.downsampleSlider);
      var audioBuffer: seq<real> := [];
      if w.waveText == PlayFile {
        var fileToLoad := FileRequest(keepPosition, currentFilename);
        var loaded := loader(fileToLoad);
        audioBuffer := loaded.waveform;
        view.chordData := loaded.chordData;
        if downsampleRate.Some? && downsampleRate.value != 0 {
          audioBuffer := ApplyDownsample(audioBuffer, downsampleRate, PlaybackRate);
        }
        if view.chordData != [] {
          currentFilename := Some(view.chordData[0].noteName);
        }
        view.samplesPerChord := |audioBuffer|;
      } else {
        currentFilename := None;
        var rendered := ChordPlayer(SongChords, w.bpm, w.rootIndex, w.scaleText, w.waveText,
                                    downsampleRate, picks, synth);
        if rendered.Err? {
          return Err(rendered.error);
        }
        audioBuffer := rendered.value.samples;
        view.chordData := rendered.value.chordData;
        assert w.bpm > 0;
        view.samplesPerChord := SlotSamples(PlaybackRate, w.bpm);
      }
      if keepPosition && view.player.isPlaying {
        view.player.UpdateBuffer(audioBuffer);
      } else {
        view.player.Play(audioBuffer);
      }
      return Ok(());
    }
  }

  /** In generated mode the song is exactly samples_per_chord samples per chord_data
      entry, and entry k is the diatonic triad of its degree. */
  lemma GeneratedSongLinesUp(w: Widgets, picks: seq<Pick>, synth: Synth, k: nat)
    requires |picks| == SongChords && RightLengths(synth) && PicksFitChoice(w.waveText, picks)
    requires Render(SongChords, w.bpm, w.rootIndex, w.scaleText, w.waveText,
                    DownsampleRate(w.downsampleSlider), picks, synth).Ok?
    requires k < SongChords
    ensures w.bpm > 0
    ensures var song := Render(SongChords, w.bpm, w.rootIndex, w.scaleText, w.waveText,
                               DownsampleRate(w.downsampleSlider), picks, synth).value;
      && |song.chordData| == SongChords
      && |song.samples| == |song.chordData| * SlotSamples(PlaybackRate, w.bpm)
      && song.chordData[k].quality == DiatonicTriad(w.scaleText, picks[k].degree % 7)
  {
    RenderedLayout(SongChords, w.bpm, w.rootIndex, w.scaleText, w.waveText,
                   DownsampleRate(w.downsampleSlider), picks, synth, k);
  }
}

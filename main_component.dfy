/**
 * The main window's component of PluginHosting/Main.cpp: it owns the edit and
 * the plugin panel, toggles playback, keeps the play/stop button's text in
 * step with the transport, and loads a chosen sound file onto the first track
 * and loops around it.
 */
module MainComponents {
  import opened Tracktion
  import opened EngineHelpers
  import opened TrackPluginList

  /** The play/stop button's text for a transport state: "Pause" while playing, "Play" otherwise. */
  function PlayStopLabel(playing: bool): (s: string)
    ensures s == "Pause" <==> playing
    ensures s == "Play" <==> !playing
  {
    if playing then "Pause" else "Play"
  }

  /**
   * How loading a chosen file ends: no file was chosen; the file's clip is
   * looped; or the load yielded no clip, which the source then dereferences
   * without a check.
   */
  datatype LoadOutcome = NoFileChosen | Looping(clip: Clip) | NullClipDereferenced

  class MainComponent {
    const edit: Edit
    const pluginList: TrackPluginListComponent
    var playStopText: string

    /** The panel works on this component's edit and keeps its own invariant. */
    ghost predicate Valid()
      reads this, edit, edit.tracks, pluginList, pluginList.track, pluginList.updater
    {
      pluginList.edit == edit && pluginList.Valid()
    }

    /** A new, empty edit with a stopped transport, and the panel on its (new) first track. */
    constructor ()
      ensures Valid() && fresh(edit) && playStopText == "Play" && !edit.transport.playing
      ensures |edit.tracks| == 1 && edit.tracks[0].plugins == [] && pluginList.buttons == []
    {
      var e := new Edit();
      var list := new TrackPluginListComponent(e);
      edit := e;
      pluginList := list;
      playStopText := "Play";
    }

    /** The transport broadcast a change: the button's text follows its play state. */
    method ChangeListenerCallback()
      modifies this
      ensures playStopText == PlayStopLabel(edit.transport.playing)
    {
      playStopText := if edit.transport.playing then "Pause" else "Play";
    }

    /** Stops the transport when it is playing and starts it otherwise; nothing else of it changes. */
    method TogglePlay(e: Edit)
      modifies e.transport
      ensures e.transport.playing == !old(e.transport.playing)
      ensures e.transport.looping == old(e.transport.looping) && e.transport.position == old(e.transport.position)
      ensures e.transport.loopRange == old(e.transport.loopRange)
    {
      var transport := e.transport;
      if transport.playing {
        transport.Stop(false, false);
      } else {
        transport.Play(false);
      }
    }

    /**
     * The file chooser's callback: for a chosen file (a non-empty path), the
     * file becomes the first track's only clip and the transport loops
     * around it. The plugin chain, and with it the panel's invariant, is not
     * disturbed.
     */
    method LoadFileToTrack(file: SoundFile, insertOk: bool) returns (outcome: LoadOutcome)
      requires Valid()
      modifies edit, edit.tracks[0], edit.transport
      ensures Valid() && edit.tracks == old(edit.tracks)
      ensures edit.tracks[0].plugins == old(edit.tracks[0].plugins)
      ensures file.path == "" ==> outcome == NoFileChosen && edit.tracks[0].clips == old(edit.tracks[0].clips)
      ensures file.path != "" ==>
                && (outcome.Looping? <==> file.isValidAudio && insertOk)
                && (!outcome.Looping? ==> outcome == NullClipDereferenced)
                && edit.tracks[0].clips == (if outcome.Looping? then [outcome.clip] else [])
      ensures outcome.Looping? ==>
                && outcome.clip.name == file.nameWithoutExtension && outcome.clip.file == file.path
                && outcome.clip.range == TimeRange(0.0, file.length)
                && edit.transport.loopRange == TimeRange(0.0, file.length)
                && edit.transport.looping && edit.transport.position == 0.0 && edit.transport.playing
      ensures !outcome.Looping? ==>
                && edit.transport.playing == old(edit.transport.playing)
                && edit.transport.looping == old(edit.transport.looping)
                && edit.transport.position == old(edit.transport.position)
                && edit.transport.loopRange == old(edit.transport.loopRange)
    {
      if file.path == "" {
        return NoFileChosen;
      }
      var clip := LoadAudioFileAsClip(edit, file, insertOk);
      if clip == null {
        return NullClipDereferenced;
      }
      var looped := LoopAroundClip(clip);
      return Looping(looped);
    }
  }
}

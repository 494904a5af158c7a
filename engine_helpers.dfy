/**
 * The engine helpers of PluginHosting/Main.cpp: fetching (and creating) an
 * audio track by index, clearing a track's clips, loading a file as the first
 * track's only clip, looping the transport around a clip, and the flag-based
 * async updater the plugin panel inherits.
 */
module EngineHelpers {
  import opened Tracktion

  /**
   * Makes sure the edit has at least `index + 1` audio tracks and returns
   * track `index`; a negative index adds nothing and yields null, as an
   * out-of-range read of the engine's track array does.
   */
  method GetOrInsertAudioTrackAt(edit: Edit, index: int) returns (track: AudioTrack?)
    requires edit.Valid()
    modifies edit
    ensures edit.Valid()
    ensures index < 0 ==> track == null && edit.tracks == old(edit.tracks)
    ensures 0 <= index ==> |edit.tracks| == (if index < |old(edit.tracks)| then |old(edit.tracks)| else index + 1)
                           && track == edit.tracks[index]
    ensures |old(edit.tracks)| <= |edit.tracks| && edit.tracks[..|old(edit.tracks)|] == old(edit.tracks)
    ensures forall i :: |old(edit.tracks)| <= i < |edit.tracks| ==>
              fresh(edit.tracks[i]) && edit.tracks[i].plugins == [] && edit.tracks[i].clips == []
  {
    edit.EnsureNumberOfAudioTracks(index + 1);
    if 0 <= index < |edit.tracks| {
      track := edit.tracks[index];
    } else {
      track := null;
    }
  }

  /** Removes every clip of the track, the last one first; the plugin chain is untouched. */
  method RemoveAllClips(track: AudioTrack)
    requires track.Valid()
    modifies track
    ensures track.Valid() && track.clips == [] && track.plugins == old(track.plugins)
  {
    var clips := track.clips;
    var i := |clips|;
    while i > 0
      invariant 0 <= i <= |clips|
      invariant track.Valid() && track.clips == clips[..i] && track.plugins == old(track.plugins)
    {
      i := i - 1;
      assert clips[..i + 1] == clips[..i] + [clips[i]];
      assert clips[i] !in clips[..i];
      RemoveFirstOfLast(clips[..i], clips[i]);
      track.RemoveClip(clips[i]);
    }
  }

  /**
   * Loads `file` onto the first audio track (created when the edit has none):
   * the track's clips are removed first, then, when the file is valid audio
   * and the engine accepts the clip (`insertOk`), one clip named after the
   * file and spanning [0, length) is placed there and returned. Otherwise the
   * result is null and the track is left without clips.
   */
  method LoadAudioFileAsClip(edit: Edit, file: SoundFile, insertOk: bool) returns (clip: Clip?)
    requires edit.Valid()
    modifies edit, if |edit.tracks| > 0 then {edit.tracks[0]} else {}
    ensures edit.Valid() && |edit.tracks| >= 1
    ensures |old(edit.tracks)| > 0 ==> edit.tracks == old(edit.tracks)
                                       && edit.tracks[0].plugins == old(edit.tracks[0].plugins)
    ensures |old(edit.tracks)| == 0 ==> |edit.tracks| == 1 && fresh(edit.tracks[0]) && edit.tracks[0].plugins == []
    ensures (clip != null) == (file.isValidAudio && insertOk)
    ensures edit.tracks[0].clips == if clip == null then [] else [clip]
    ensures clip != null ==> fresh(clip) && clip.edit == edit && clip.name == file.nameWithoutExtension
                             && clip.file == file.path && clip.range == TimeRange(0.0, file.length)
  {
    var track := GetOrInsertAudioTrackAt(edit, 0);
    assert track in edit.tracks;
    RemoveAllClips(track);
    clip := null;
    if file.isValidAudio {
      clip := track.InsertWaveClip(file.nameWithoutExtension, file.path, TimeRange(0.0, file.length), insertOk);
    }
    assert edit.tracks[0] == track;
  }

  /**
   * Loops the clip's edit around it: the loop range becomes the clip's range,
   * looping is switched on, the play head goes to 0 and playback starts.
   */
  method LoopAroundClip(clip: Clip) returns (r: Clip)
    modifies clip.edit.transport
    ensures r == clip
    ensures var t := clip.edit.transport;
      t.loopRange == clip.range && t.looping && t.position == 0.0 && t.playing
  {
    var transport := clip.edit.transport;
    transport.SetLoopRange(clip.range);
    transport.looping := true;
    transport.position := 0.0;
    transport.Play(false);
    return clip;
  }

  /**
   * An async updater that pairs with a caller-owned flag: marking sets the
   * flag and requests a callback; the callback asks whether the flag was set,
   * clearing it.
   */
  class FlaggedAsyncUpdater {
    /** A callback has been requested and not yet delivered. */
    var updatePending: bool

    constructor ()
      ensures !updatePending
    {
      updatePending := false;
    }

    /** Sets the flag and requests the async callback. */
    method MarkAndUpdate(flag: bool) returns (flag': bool)
      modifies this
      ensures flag' && updatePending
    {
      flag' := true;
      updatePending := true;
    }

    /** Whether the flag was set; the flag is clear afterwards either way. */
    method CompareAndReset(flag: bool) returns (wasSet: bool, flag': bool)
      ensures wasSet == flag
      ensures !flag'
    {
      if !flag {
        return false, flag;
      }
      flag' := false;
      return true, flag';
    }
  }
}

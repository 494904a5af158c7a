/**
 * The parts of the audio engine that PluginHosting/Main.cpp drives, reduced to
 * the state the program reads and writes: an edit owning audio tracks and a
 * transport, a track owning a plugin chain and a list of clips. Plugins, clips
 * and tracks are objects, so that "button i refers to plugin i" is reference
 * identity as in the source.
 *
 * The engine's own behaviour is not visible; each engine call is modelled by
 * the smallest state change it is documented to make.
 */
module Tracktion {
  import opened Juce

  /** A span of edit time, in seconds. */
  datatype TimeRange = TimeRange(start: real, end: real)

  /** A plugin instance of a track's chain. */
  class Plugin {
    const name: string

    constructor (name: string)
      ensures this.name == name
    {
      this.name := name;
    }
  }

  /** A wave clip placed on a track: its name, source file, position in the edit and its edit. */
  class Clip {
    const name: string
    const file: string
    const range: TimeRange
    const edit: Edit

    constructor (name: string, file: string, range: TimeRange, edit: Edit)
      ensures this.name == name && this.file == file && this.range == range && this.edit == edit
    {
      this.name, this.file, this.range, this.edit := name, file, range, edit;
    }
  }

  // ---------------------------------------------------------------------------
  // List operations of the engine's ordered children

  predicate Distinct<T(==)>(s: seq<T>)
  {
    forall i, j :: 0 <= i < j < |s| ==> s[i] != s[j]
  }

  /**
   * `s` with `x` inserted before position `index`; an index past the end
   * appends (assumed to be the chain's behaviour, which clamps like the
   * toolkit's tree).
   */
  function InsertAt<T>(s: seq<T>, index: nat, x: T): (r: seq<T>)
    ensures |r| == |s| + 1
    ensures var k := Min(index, |s|); r[k] == x && r[..k] == s[..k] && r[k + 1..] == s[k..]
    ensures index >= |s| ==> r == s + [x]
  {
    var k := Min(index, |s|);
    s[..k] + [x] + s[k..]
  }

  /** The position of the first occurrence of `x` in `s`. */
  function FirstIndex<T(==)>(s: seq<T>, x: T): (k: nat)
    requires x in s
    ensures k < |s| && s[k] == x && x !in s[..k]
  {
    if s[0] == x then 0
    else
      var k' := FirstIndex(s[1..], x);
      assert s[..k' + 1] == [s[0]] + s[1..][..k'];
      k' + 1
  }

  /** `s` without its first occurrence of `x`; `s` itself when `x` does not occur. */
  function RemoveFirst<T(==)>(s: seq<T>, x: T): (r: seq<T>)
    ensures x !in s ==> r == s
    ensures x in s ==> |r| == |s| - 1
    ensures multiset(r) == multiset(s) - multiset{x}
    ensures x in s ==> exists k :: 0 <= k < |s| && s[k] == x && x !in s[..k] && r == s[..k] + s[k + 1..]
  {
    if x !in s then s
    else
      var k := FirstIndex(s, x);
      assert s == s[..k] + [x] + s[k + 1..];
      s[..k] + s[k + 1..]
  }

  /** Removing an element that occurs only at the end leaves what came before it. */
  lemma {:induction false} RemoveFirstOfLast<T>(s: seq<T>, x: T)
    requires x !in s
    ensures RemoveFirst(s + [x], x) == s
  {
    assert FirstIndex(s + [x], x) == |s| by {
      FirstIndexOfLast(s, x);
    }
    assert (s + [x])[..|s|] == s;
  }

  /** An element that occurs only at the end is first found there. */
  lemma FirstIndexOfLast<T>(s: seq<T>, x: T)
    requires x !in s
    ensures FirstIndex(s + [x], x) == |s|
  {
    assert forall i :: 0 <= i < |s| ==> (s + [x])[i] == s[i];
  }

  /** Removal keeps a list free of repetitions. */
  lemma RemoveFirstDistinct<T>(s: seq<T>, x: T)
    requires Distinct(s)
    ensures Distinct(RemoveFirst(s, x))
  {
    var r := RemoveFirst(s, x);
    if x in s {
      var k :| 0 <= k < |s| && s[k] == x && x !in s[..k] && r == s[..k] + s[k + 1..];
      assert forall i :: 0 <= i < |r| ==> r[i] == if i < k then s[i] else s[i + 1];
      forall i, j | 0 <= i < j < |r| ensures r[i] != r[j] {
        var i', j' := if i < k then i else i + 1, if j < k then j else j + 1;
        assert i' < j';
      }
    }
  }

  // ---------------------------------------------------------------------------
  // Tracks, transport and edit

  /**
   * An audio track: its plugin chain and its clips, in order. A clip object
   * sits on its track at most once (its state is one child of the track's tree).
   */
  class AudioTrack {
    const edit: Edit
    var plugins: seq<Plugin>
    var clips: seq<Clip>

    ghost predicate Valid()
      reads this
    {
      Distinct(clips)
    }

    constructor (edit: Edit)
      ensures Valid() && this.edit == edit && plugins == [] && clips == []
    {
      this.edit := edit;
      plugins, clips := [], [];
    }

    /** Inserts `p` into the chain before position `index` (at the end when the index is past it). */
    method InsertPlugin(p: Plugin, index: nat)
      modifies this
      ensures plugins == InsertAt(old(plugins), index, p) && clips == old(clips)
    {
      plugins := InsertAt(plugins, index, p);
    }

    /** Takes `p` out of the chain (the plugin deleting itself from its parent). */
    method RemovePlugin(p: Plugin)
      modifies this
      ensures plugins == RemoveFirst(old(plugins), p) && clips == old(clips)
    {
      plugins := RemoveFirst(plugins, p);
    }

    /** Takes clip `c` off the track (the clip removing itself from its parent track). */
    method RemoveClip(c: Clip)
      requires Valid()
      modifies this
      ensures Valid() && clips == RemoveFirst(old(clips), c) && plugins == old(plugins)
    {
      RemoveFirstDistinct(clips, c);
      clips := RemoveFirst(clips, c);
    }

    /**
     * Places a new wave clip on the track; `ok` is the engine's verdict (the
     * source receives a null clip when insertion fails).
     */
    method InsertWaveClip(name: string, file: string, range: TimeRange, ok: bool) returns (c: Clip?)
      requires Valid()
      modifies this
      ensures Valid() && plugins == old(plugins)
      ensures !ok ==> c == null && clips == old(clips)
      ensures ok ==> c != null && fresh(c) && clips == old(clips) + [c]
                     && c.name == name && c.file == file && c.range == range && c.edit == edit
    {
      if !ok {
        return null;
      }
      c := new Clip(name, file, range, edit);
      assert c !in clips;
      clips := clips + [c];
      forall i, j | 0 <= i < j < |clips| ensures clips[i] != clips[j] {
        if j < |clips| - 1 {
          assert clips[i] == old(clips)[i] && clips[j] == old(clips)[j];
        } else {
          assert clips[i] in old(clips);
        }
      }
    }
  }

  /** The edit's transport: play state, looping, play-head position and loop range. */
  class TransportControl {
    var playing: bool
    var looping: bool
    var position: real
    var loopRange: TimeRange

    constructor ()
      ensures !playing && !looping && position == 0.0 && loopRange == TimeRange(0.0, 0.0)
    {
      playing, looping, position, loopRange := false, false, 0.0, TimeRange(0.0, 0.0);
    }

    /** Starts playback; the flag (send MIDI machine control only) does not bear on the state modelled. */
    method Play(justSendMMCIfEnabled: bool)
      modifies this
      ensures playing && looping == old(looping) && position == old(position) && loopRange == old(loopRange)
    {
      playing := true;
    }

    /** Stops playback; the flags (discard recordings, clear devices) do not bear on the state modelled. */
    method Stop(discardRecordings: bool, clearDevices: bool)
      modifies this
      ensures !playing && looping == old(looping) && position == old(position) && loopRange == old(loopRange)
    {
      playing := false;
    }

    method SetLoopRange(r: TimeRange)
      modifies this
      ensures loopRange == r && playing == old(playing) && looping == old(looping) && position == old(position)
    {
      loopRange := r;
    }
  }

  /** An edit: its audio tracks in order and its transport. */
  class Edit {
    var tracks: seq<AudioTrack>
    const transport: TransportControl

    /** Every track belongs to this edit and keeps its own invariant. */
    ghost predicate Valid()
      reads this, tracks
    {
      forall t :: t in tracks ==> t.edit == this && t.Valid()
    }

    constructor ()
      ensures Valid() && tracks == [] && fresh(transport)
      ensures !transport.playing && !transport.looping && transport.position == 0.0
    {
      tracks := [];
      transport := new TransportControl();
    }

    /** Appends new, empty audio tracks until there are at least `n`; never removes one. */
    method EnsureNumberOfAudioTracks(n: int)
      requires Valid()
      modifies this
      ensures Valid()
      ensures |tracks| == if n > |old(tracks)| then n else |old(tracks)|
      ensures tracks[..|old(tracks)|] == old(tracks)
      ensures forall i :: |old(tracks)| <= i < |tracks| ==>
                fresh(tracks[i]) && tracks[i].plugins == [] && tracks[i].clips == []
    {
      while |tracks| < n
        invariant Valid()
        invariant |old(tracks)| <= |tracks| && (n > |old(tracks)| ==> |tracks| <= n)
        invariant n <= |old(tracks)| ==> |tracks| == |old(tracks)|
        invariant tracks[..|old(tracks)|] == old(tracks)
        invariant forall i :: |old(tracks)| <= i < |tracks| ==>
                    fresh(tracks[i]) && tracks[i].plugins == [] && tracks[i].clips == []
        decreases n - |tracks|
      {
        var t := new AudioTrack(this);
        tracks := tracks + [t];
      }
    }
  }

  /**
   * A file as the program sees it: its path (empty for the default, "no
   * file" value), its name without extension, and what the engine reports
   * about it as audio (valid or not, and its length in seconds).
   */
  datatype SoundFile = SoundFile(path: string, nameWithoutExtension: string, isValidAudio: bool, length: real)
}

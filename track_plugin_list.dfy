/**
 * The panel of PluginHosting/Main.cpp that shows one button per plugin of the
 * first audio track's chain, plus a "+" button that adds a plugin chosen from
 * the plugin menu.
 *
 * The panel listens to the track's state tree. Notifications about plugins
 * only set a dirty flag and request an async callback; the callback rebuilds
 * the buttons when the flag was set. The panel's invariant is that, unless a
 * rebuild is pending, its buttons mirror the chain.
 */
module TrackPluginList {
  import opened Juce
  import opened Tracktion
  import opened EngineHelpers
  import opened PluginComponents

  // ---------------------------------------------------------------------------
  // Notifications and the update bookkeeping

  /** The type of a child of the track's state tree: a plugin, or anything else (clips, ...). */
  datatype ChildType = PluginTree | OtherTree(id: string)

  /** The notifications the panel's listener receives. */
  datatype Notification =
    | TreeChanged
    | ChildAdded(child: ChildType)
    | ChildRemoved(child: ChildType)
    | ChildOrderChanged

  /** A notification marks the panel dirty: an added or removed plugin, or any reordering. */
  predicate Marks(n: Notification)
  {
    match n
    case TreeChanged => false
    case ChildAdded(c) => c == PluginTree
    case ChildRemoved(c) => c == PluginTree
    case ChildOrderChanged => true
  }

  /** The panel's update bookkeeping: the dirty flag and how many rebuilds the async callback has made. */
  datatype Bookkeeping = Bookkeeping(needsUpdate: bool, rebuilds: nat)

  /** What reaches the panel: a notification, or the delivery of the async callback. */
  datatype Event = Notify(n: Notification) | AsyncUpdate

  /** The effect of one event on the bookkeeping. */
  function Step(s: Bookkeeping, e: Event): Bookkeeping
  {
    match e
    case Notify(n) => s.(needsUpdate := s.needsUpdate || Marks(n))
    case AsyncUpdate => if s.needsUpdate then Bookkeeping(false, s.rebuilds + 1) else s
  }

  /** The effect of a run of events, in order. */
  function Run(s: Bookkeeping, es: seq<Event>): Bookkeeping
  {
    if es == [] then s else Step(Run(s, es[..|es| - 1]), es[|es| - 1])
  }

  /** The events of a run of notifications. */
  function Notifications(ns: seq<Notification>): (es: seq<Event>)
    ensures |es| == |ns| && forall i :: 0 <= i < |ns| ==> es[i] == Notify(ns[i])
  {
    seq(|ns|, i requires 0 <= i < |ns| => Notify(ns[i]))
  }

  lemma {:induction false} RunAppend(s: Bookkeeping, es: seq<Event>, fs: seq<Event>)
    ensures Run(s, es + fs) == Run(Run(s, es), fs)
    decreases |fs|
  {
    if fs == [] {
      assert es + fs == es;
    } else {
      var fs' := fs[..|fs| - 1];
      assert (es + fs)[..|es + fs| - 1] == es + fs';
      RunAppend(s, es, fs');
    }
  }

  /** Notifications never rebuild: they only raise the flag, when one of them marks. */
  lemma {:induction false} NotificationsOnlyMark(s: Bookkeeping, ns: seq<Notification>)
    ensures Run(s, Notifications(ns))
            == s.(needsUpdate := s.needsUpdate || exists i :: 0 <= i < |ns| && Marks(ns[i]))
  {
    if ns != [] {
      var init := ns[..|ns| - 1];
      assert Notifications(ns)[..|ns| - 1] == Notifications(init);
      NotificationsOnlyMark(s, init);
      if exists i :: 0 <= i < |ns| && Marks(ns[i]) {
        var i :| 0 <= i < |ns| && Marks(ns[i]);
        if i < |ns| - 1 {
          assert Marks(init[i]);
        }
      }
      if exists i :: 0 <= i < |init| && Marks(init[i]) {
        var i :| 0 <= i < |init| && Marks(init[i]);
        assert Marks(ns[i]);
      }
    }
  }

  /**
   * Any number of notifications followed by one async callback cause at most
   * one rebuild, exactly one when the flag was already set or one of them
   * marked, and leave the flag clear.
   */
  lemma NotificationsCoalesce(s: Bookkeeping, ns: seq<Notification>)
    ensures var r := Run(s, Notifications(ns) + [AsyncUpdate]);
      && !r.needsUpdate
      && r.rebuilds <= s.rebuilds + 1
      && (r.rebuilds == s.rebuilds + 1 <==> s.needsUpdate || exists i :: 0 <= i < |ns| && Marks(ns[i]))
  {
    RunAppend(s, Notifications(ns), [AsyncUpdate]);
    NotificationsOnlyMark(s, ns);
    assert [AsyncUpdate][..0] == [];
  }

  /** A second async callback with no notification in between does nothing. */
  lemma SecondUpdateIdle(s: Bookkeeping, es: seq<Event>)
    ensures Run(s, es + [AsyncUpdate, AsyncUpdate]) == Run(s, es + [AsyncUpdate])
  {
    assert (es + [AsyncUpdate, AsyncUpdate])[..|es| + 1] == es + [AsyncUpdate];
  }

  /** Notifications that do not mark (tree changes, non-plugin children) leave the bookkeeping as it was. */
  lemma UnmarkedNotificationsIgnored(s: Bookkeeping, ns: seq<Notification>)
    requires forall i :: 0 <= i < |ns| ==> !Marks(ns[i])
    ensures Run(s, Notifications(ns)) == s
  {
    NotificationsOnlyMark(s, ns);
  }

  // ---------------------------------------------------------------------------
  // Layout

  const ButtonHeight: nat := 20
  const ButtonWidth: nat := 40
  const Spacer: nat := 2

  /** What is left of `b` after `k` button rows (each a button and a spacer) are cut off its top. */
  function Remaining(b: Rect, k: nat): Rect
  {
    var top := Min((ButtonHeight + Spacer) * k, b.h);
    Rect(b.x, b.y + top, b.w, b.h - top)
  }

  /** The bounds of the `k`-th button (the "+" button when `k` is the number of plugins). */
  function Slot(b: Rect, k: nat): Rect
  {
    var top := Min((ButtonHeight + Spacer) * k, b.h);
    Rect(b.x, b.y + top, ButtonWidth, Min(ButtonHeight, b.h - top))
  }

  /** One button row cut off what is left after `k` rows yields slot `k` and what is left after `k + 1`. */
  lemma RowStep(b: Rect, k: nat)
    ensures var (strip, rest) := RemoveFromTop(Remaining(b, k), ButtonHeight);
      WithWidth(strip, ButtonWidth) == Slot(b, k) && RemoveFromTop(rest, Spacer).1 == Remaining(b, k + 1)
  {
  }

  /** While the bounds are tall enough, button `i` sits `22 * i` below the top, 40 wide and 20 high. */
  lemma SlotsWhenTallEnough(b: Rect, n: nat, i: nat)
    requires b.h >= (ButtonHeight + Spacer) * n + ButtonHeight && i <= n
    ensures Slot(b, i) == Rect(b.x, b.y + 22 * i, 40, 20)
  {
  }

  /** Slots never overlap and never leave the bounds, however short the bounds are. */
  lemma SlotsDisjoint(b: Rect, i: nat, j: nat)
    requires i < j
    ensures Slot(b, i).y + Slot(b, i).h <= Slot(b, j).y
    ensures b.y <= Slot(b, i).y && Slot(b, j).y + Slot(b, j).h <= b.y + b.h
  {
  }

  /** The buttons refer to the chain's plugins one for one, in order, each labelled with its plugin's name. */
  predicate Mirrors(buttons: seq<PluginComponent>, plugins: seq<Plugin>)
  {
    && |buttons| == |plugins|
    && forall i :: 0 <= i < |buttons| ==> buttons[i].plugin == plugins[i] && buttons[i].text == Label(plugins[i].name)
  }

  // ---------------------------------------------------------------------------
  // The panel

  class TrackPluginListComponent {
    const edit: Edit
    const track: AudioTrack
    /** The updater the panel inherits from in the source (its pending callback). */
    const updater: FlaggedAsyncUpdater
    /** The plugin buttons, one per chain entry when up to date. */
    var buttons: seq<PluginComponent>
    var addButtonBounds: Rect
    /** The panel's bounds as its parent set them; the layout starts from them. */
    var bounds: Rect
    var needsUpdate: bool
    /** Rebuilds made by the async callback so far. */
    ghost var rebuilds: nat

    ghost function State(): Bookkeeping
      reads this
    {
      Bookkeeping(needsUpdate, rebuilds)
    }

    /** The panel's track is the edit's first audio track. */
    ghost predicate Wired()
      reads this, edit, edit.tracks
    {
      edit.Valid() && |edit.tracks| >= 1 && edit.tracks[0] == track
    }

    /**
     * Unless a rebuild is pending, the buttons mirror the chain; and a pending
     * rebuild always has its async callback requested.
     */
    ghost predicate Valid()
      reads this, edit, edit.tracks, track, updater
    {
      Wired() && (needsUpdate || Mirrors(buttons, track.plugins)) && (needsUpdate ==> updater.updatePending)
    }

    /** Every button, and the "+" button after them, sits in its slot of the bounds. */
    ghost predicate LaidOut()
      reads this
    {
      && (forall i :: 0 <= i < |buttons| ==> buttons[i].bounds == Slot(bounds, i))
      && addButtonBounds == Slot(bounds, |buttons|)
    }

    /** Takes the edit's first audio track (creating it when needed) and builds its buttons. */
    constructor (e: Edit)
      requires e.Valid()
      modifies e
      ensures Valid() && LaidOut() && edit == e && fresh(updater)
      ensures |old(e.tracks)| > 0 ==> e.tracks == old(e.tracks) && track.plugins == old(e.tracks[0].plugins)
      ensures |old(e.tracks)| == 0 ==> |e.tracks| == 1 && fresh(track) && track.plugins == []
      ensures !needsUpdate && rebuilds == 0 && !updater.updatePending
      ensures Mirrors(buttons, track.plugins)
    {
      var t := GetOrInsertAudioTrackAt(e, 0);
      edit := e;
      track := t;
      updater := new FlaggedAsyncUpdater();
      buttons := [];
      addButtonBounds := Rect(0, 0, 0, 0);
      bounds := Rect(0, 0, 0, 0);
      needsUpdate := false;
      rebuilds := 0;
      new;
      RebuildPluginButtons();
    }

    /**
     * Places the buttons top-down from the panel's bounds: each button 20 high
     * and 40 wide followed by a 2-pixel spacer, then the "+" button.
     */
    method Resized()
      modifies this
      ensures LaidOut()
      ensures |buttons| == |old(buttons)|
      ensures forall i :: 0 <= i < |buttons| ==> buttons[i] == old(buttons[i]).(bounds := Slot(bounds, i))
      ensures bounds == old(bounds) && needsUpdate == old(needsUpdate) && rebuilds == old(rebuilds)
    {
      var spacer := Spacer;
      var b := bounds;
      var i := 0;
      while i < |buttons|
        invariant 0 <= i <= |buttons| == |old(buttons)|
        invariant b == Remaining(bounds, i)
        invariant forall k :: 0 <= k < i ==> buttons[k] == old(buttons[k]).(bounds := Slot(bounds, k))
        invariant forall k :: i <= k < |buttons| ==> buttons[k] == old(buttons[k])
        invariant bounds == old(bounds) && needsUpdate == old(needsUpdate) && rebuilds == old(rebuilds)
      {
        RowStep(bounds, i);
        var (strip, rest) := RemoveFromTop(b, ButtonHeight);
        buttons := buttons[i := buttons[i].(bounds := WithWidth(strip, ButtonWidth))];
        b := RemoveFromTop(rest, spacer).1;
        i := i + 1;
      }
      RowStep(bounds, i);
      addButtonBounds := WithWidth(RemoveFromTop(b, ButtonHeight).0, ButtonWidth);
    }

    /**
     * The parent gives the panel new bounds; the toolkit lays the panel out
     * again only when its size changes, not when it is merely moved.
     */
    method SetBounds(r: Rect)
      requires Valid()
      modifies this
      ensures Valid() && bounds == r && State() == old(State())
      ensures |buttons| == |old(buttons)|
      ensures r.w != old(bounds.w) || r.h != old(bounds.h) ==>
                LaidOut() && forall i :: 0 <= i < |buttons| ==> buttons[i] == old(buttons[i]).(bounds := Slot(r, i))
      ensures r.w == old(bounds.w) && r.h == old(bounds.h) ==>
                buttons == old(buttons) && addButtonBounds == old(addButtonBounds)
    {
      var resized := r.w != bounds.w || r.h != bounds.h;
      bounds := r;
      if resized {
        Resized();
      }
    }

    /** Drops every button and makes one per plugin of the chain, in order, then lays them out. */
    method RebuildPluginButtons()
      requires Wired()
      modifies this
      ensures Wired() && LaidOut() && Mirrors(buttons, track.plugins)
      ensures forall i :: 0 <= i < |buttons| ==> buttons[i] == NewPluginComponent(track.plugins[i]).(bounds := Slot(bounds, i))
      ensures bounds == old(bounds) && State() == old(State())
    {
      buttons := [];
      var plugins := track.plugins;
      var i := 0;
      while i < |plugins|
        invariant 0 <= i <= |plugins| == |buttons| + (|plugins| - i)
        invariant forall k :: 0 <= k < i ==> buttons[k] == NewPluginComponent(plugins[k])
        invariant bounds == old(bounds) && State() == old(State())
      {
        buttons := buttons + [NewPluginComponent(plugins[i])];
        i := i + 1;
      }
      Resized();
    }

    /** A child was added to the track's tree: only a plugin marks the panel dirty. */
    method ValueTreeChildAdded(c: ChildType)
      requires Wired()
      modifies this, updater
      ensures Wired() && (old(Valid()) ==> Valid())
      ensures State() == Step(old(State()), Notify(ChildAdded(c)))
      ensures updater.updatePending == (old(updater.updatePending) || Marks(ChildAdded(c)))
      ensures buttons == old(buttons) && addButtonBounds == old(addButtonBounds) && bounds == old(bounds)
    {
      if c == PluginTree {
        needsUpdate := updater.MarkAndUpdate(needsUpdate);
      }
    }

    /** A child was removed from the track's tree: only a plugin marks the panel dirty. */
    method ValueTreeChildRemoved(c: ChildType)
      requires Wired()
      modifies this, updater
      ensures Wired() && (old(Valid()) ==> Valid())
      ensures State() == Step(old(State()), Notify(ChildRemoved(c)))
      ensures updater.updatePending == (old(updater.updatePending) || Marks(ChildRemoved(c)))
      ensures buttons == old(buttons) && addButtonBounds == old(addButtonBounds) && bounds == old(bounds)
    {
      if c == PluginTree {
        needsUpdate := updater.MarkAndUpdate(needsUpdate);
      }
    }

    /** The track's children were reordered: this always marks the panel dirty. */
    method ValueTreeChildOrderChanged()
      requires Wired()
      modifies this, updater
      ensures Valid()
      ensures State() == Step(old(State()), Notify(ChildOrderChanged))
      ensures updater.updatePending
      ensures buttons == old(buttons) && addButtonBounds == old(addButtonBounds) && bounds == old(bounds)
    {
      needsUpdate := updater.MarkAndUpdate(needsUpdate);
    }

    /**
     * The async callback: rebuilds the buttons when the flag was set, clearing
     * it; otherwise nothing changes.
     */
    method HandleAsyncUpdate()
      requires Valid()
      modifies this, updater
      ensures Valid() && !needsUpdate && Mirrors(buttons, track.plugins)
      ensures State() == Step(old(State()), AsyncUpdate)
      ensures !updater.updatePending && bounds == old(bounds)
      ensures old(needsUpdate) ==> LaidOut()
      ensures !old(needsUpdate) ==> buttons == old(buttons) && addButtonBounds == old(addButtonBounds)
    {
      updater.updatePending := false;
      var rebuild;
      rebuild, needsUpdate := updater.CompareAndReset(needsUpdate);
      if rebuild {
        RebuildPluginButtons();
        rebuilds := rebuilds + 1;
      }
    }

    /**
     * The "+" button's handler, given what the plugin menu produced (null
     * when nothing was chosen or created): the plugin goes into the chain at
     * the position given by the number of buttons, the chain's tree notifies
     * the panel, one button is appended and the panel is laid out again.
     */
    method AddPluginClicked(plugin: Plugin?)
      requires Valid()
      modifies this, updater, edit, track
      ensures Valid() && edit.tracks == old(edit.tracks) && bounds == old(bounds) && track.clips == old(track.clips)
      ensures plugin == null ==> track.plugins == old(track.plugins) && buttons == old(buttons)
                                 && addButtonBounds == old(addButtonBounds) && State() == old(State())
                                 && updater.updatePending == old(updater.updatePending)
      ensures plugin != null ==>
                && track.plugins == InsertAt(old(track.plugins), |old(buttons)|, plugin)
                && State() == Step(old(State()), Notify(ChildAdded(PluginTree)))
                && updater.updatePending
                && LaidOut()
                && |buttons| == |old(buttons)| + 1
                && (forall i :: 0 <= i < |old(buttons)| ==> buttons[i] == old(buttons[i]).(bounds := Slot(bounds, i)))
                && buttons[|old(buttons)|] == NewPluginComponent(plugin).(bounds := Slot(bounds, |old(buttons)|))
      ensures plugin != null && Mirrors(old(buttons), old(track.plugins)) ==> Mirrors(buttons, track.plugins)
    {
      if plugin != null {
        var t := GetOrInsertAudioTrackAt(edit, 0);
        t.InsertPlugin(plugin, |buttons|);
        // The chain's tree tells its listener at once.
        ValueTreeChildAdded(PluginTree);
        buttons := buttons + [NewPluginComponent(plugin)];
        Resized();
      }
    }

    /**
     * A click on button `i`: a pop-up click offers "Delete", and when that is
     * chosen the plugin deletes itself from the chain, whose tree notifies the
     * panel. Any other click shows the plugin's window, which changes nothing here.
     */
    method ButtonClicked(i: nat, isPopupMenu: bool, deleteChosen: bool) returns (action: ClickAction)
      requires Valid() && i < |buttons|
      modifies this, updater, track
      ensures Valid() && action == Clicked(isPopupMenu)
      ensures buttons == old(buttons) && addButtonBounds == old(addButtonBounds) && bounds == old(bounds)
      ensures track.clips == old(track.clips)
      ensures var p := old(buttons[i]).plugin;
        if isPopupMenu && deleteChosen && p in old(track.plugins) then
          track.plugins == RemoveFirst(old(track.plugins), p)
          && State() == Step(old(State()), Notify(ChildRemoved(PluginTree)))
          && updater.updatePending
        else
          track.plugins == old(track.plugins) && State() == old(State())
          && updater.updatePending == old(updater.updatePending)
    {
      action := Clicked(isPopupMenu);
      var p := buttons[i].plugin;
      if action == OfferDelete && deleteChosen && p in track.plugins {
        track.RemovePlugin(p);
        // The chain's tree tells its listener at once.
        ValueTreeChildRemoved(PluginTree);
      }
    }
  }
}

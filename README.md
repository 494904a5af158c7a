# PluginHosting: plugin catalog, plugin menu and track plugin panel

A Dafny model of the logic of the PluginHosting example of TracktionExamples. The example is a small JUCE/Tracktion host. Almost all of it is glue. The model covers the two pieces of logic the example owns.

**The plugin catalog and its menu** (`PluginHosting/PluginStuff.h`). The root constructor builds a tree:

- a root group "Plugins";
- a "Builtin Plugins" group, whose leaves carry ids `N_trkbuiltin` drawn from a shared counter that starts at 1;
- a "Plugin Racks" group;
- a mirror of the plugin registry's folder tree.

A pop-up menu is built from the tree. It holds one sub-menu per group and one item per leaf. Each item is keyed by the hash of the leaf's unique name. A depth-first `findType` turns the menu's result back into a leaf, and that leaf's plugin is then created. A plugin's button shows the first five characters of the plugin's name. A pop-up click on it offers "Delete", and any other click shows the plugin's window.

**The track plugin panel and its helpers** (`PluginHosting/Main.cpp`).

- The panel shows one button per plugin of the first audio track's chain.
- It listens to the track's state tree. Plugin additions, plugin removals and reorderings raise a dirty flag and request an async callback. Other notifications are ignored.
- The callback rebuilds the buttons when the flag was set.
- The layout stacks 20-pixel buttons with 2-pixel spacers, then the "+" button.
- The "+" handler inserts the chosen plugin and appends its button.
- The engine helpers:
  - fetch or create a track by index;
  - clear a track's clips, last first;
  - load a file as the first track's only clip;
  - loop the transport around a clip.
- The main component toggles playback, and its play/stop text is "Pause" exactly while playing.

How the code is modelled:

- Pure code becomes functions: the unique name, the format-name rule and the search order.
- Imperative code becomes methods. Each method is proved equal to a reference function or states its new state outright:
  - catalog construction (append to the group's sub-item list, thread the counter);
  - menu construction;
  - `findType`'s loops with early return;
  - the panel's updates;
  - the layout loop;
  - the clip removal loop.
- Objects the source updates in place are classes: track, edit, transport, panel, async updater.
- Catalog nodes are values, since a group owns its children exclusively.
- Library behaviour that is not visible is a parameter:
  - the string hash, `TRANS`, the description's identifier string and the built-in classes' names and xml types live in a `Toolkit` record of uninterpreted functions;
  - the registry's tree, the menu's result, the plugin cache's `createNewPlugin`, audio-file validity and length, and the success of clip insertion are inputs.

Modules:

- `PluginCatalog`: the tree and its construction.
- `PluginMenu`: search order, `findType`, menu, `runMenu`, `showMenuAndCreatePlugin`.
- `PluginComponents`: button label and click dispatch.
- `Tracktion`: the engine state the program touches.
- `EngineHelpers`: the helpers and `FlaggedAsyncUpdater`.
- `TrackPluginList`: the panel and its update bookkeeping.
- `MainComponents`: play/stop and file loading.
- `Juce`: the rectangle operations.
- `Wrappers`: `Option`.

## Model

| member | source | states |
|---|---|---|
| PluginCatalog.ItemFromIdFields | PluginHosting/PluginStuff.h:52-63 | A leaf built from an id gets format name "TracktionInternal" exactly when the id ends in `_trkbuiltin` or the xml type is the rack type, and the empty format name otherwise; category and xml type are the given xml type, isInstrument is isSynth, name and id are copied |
| PluginCatalog.RegistryLeafKey | PluginHosting/PluginStuff.h:32-38 | A leaf made from a registry description (lines 46-50) keeps that description, is an external plugin of the external xml type, and is keyed by the hash of the description's identifier string, or of its identifier when that starts with the rack preset prefix |
| PluginCatalog.BuiltinLeafKey | PluginHosting/PluginStuff.h:32-38 | When the rack preset prefix is non-empty and does not start with a digit, a built-in leaf is keyed by the hash of its description's identifier string: its "n_trkbuiltin" id starts with a digit, so it is never taken for a rack preset |
| PluginCatalog.NatToStringInjective | PluginHosting/PluginStuff.h:141 | The decimal text of the counter is injective: distinct counter values give distinct texts |
| PluginCatalog.BuiltinLeafFromId | PluginHosting/PluginStuff.h:139-144 | The leaf addInternalPlugin builds for counter n is the built-in leaf numbered n: the id constructor recognises the `_trkbuiltin` suffix, so it is internal-format, not a plugin, with the kind's translated name and xml type |
| PluginCatalog.AddInternalPlugin | PluginHosting/PluginStuff.h:139-144 | Appends exactly one built-in leaf numbered with the counter's current value and raises the counter by exactly one |
| PluginCatalog.CreateBuiltInItems | PluginHosting/PluginStuff.h:146-176 | Appends the built-in leaves in the order of the kind table, leaf i numbered num + i, and raises the counter by the number of leaves |
| PluginCatalog.BuiltinLeavesFacts | PluginHosting/PluginStuff.h:146-176 | 20 built-in leaves with all plugins, 18 otherwise; leaf i has id `(num+i)_trkbuiltin`, the internal format, the kind's xml type as category, is not a plugin, and is an instrument exactly for the sampler and the synthesiser (positions 17 and 18 with all plugins) |
| PluginCatalog.BuiltinIdsFromOne | PluginHosting/PluginStuff.h:91-95 | With the root's counter starting at 1 the ids run "1_trkbuiltin", "2_trkbuiltin", … up to "20_trkbuiltin" (all plugins) or "18_trkbuiltin" |
| PluginCatalog.BuiltinIdsDistinct | PluginHosting/PluginStuff.h:139-144 | No two built-in leaves share an id |
| PluginCatalog.RackLeavesFacts | PluginHosting/PluginStuff.h:99-109 | The racks group holds the new-rack leaf (id prefix + "-1", translated "Create New Empty Rack", its own id as unique name), then one leaf per rack type in order with id "RACK__i" and the rack's name; all are rack-type, internal-format, non-plugin, non-instrument leaves |
| PluginCatalog.NewRackLeafKey | PluginHosting/PluginStuff.h:32-35 | The new-rack leaf's id starts with the rack preset prefix, so its menu key is the hash of that id |
| PluginCatalog.RackIdsFromZero | PluginHosting/PluginStuff.h:106-109 | The first two rack types get ids "RACK__0" and "RACK__1" |
| PluginCatalog.PopulateFrom | PluginHosting/PluginStuff.h:120-135 | Appends the registry folder's mirror: its sub-folders with direct content as groups, filled recursively, then its plugins as external-plugin leaves |
| PluginCatalog.MirrorGroupsExactly | PluginHosting/PluginStuff.h:122-131 | A group is among a folder's mirrored sub-groups exactly when it stems from a sub-folder that has a plugin or a sub-folder of its own |
| PluginCatalog.MirrorKeepsOrder | PluginHosting/PluginStuff.h:122-131 | Mirroring keeps the registry's order: the groups of a split run of folders are the groups of the first part followed by those of the second |
| PluginCatalog.MirrorGroupsBeforeLeaves | PluginHosting/PluginStuff.h:120-135 | In a mirrored folder all sub-folder groups precede all plugin leaves, and the leaves are the folder's plugins in order |
| PluginCatalog.EmptyGroupSurvives | PluginHosting/PluginStuff.h:124 | The content check is one level deep: a folder whose only sub-folder is empty still becomes a group, with no children |
| PluginCatalog.BuildCatalog | PluginHosting/PluginStuff.h:87-113 | The root constructor builds exactly the reference catalog: built-in group (counter from 1), racks group, then the registry's mirror |
| PluginCatalog.CatalogShape | PluginHosting/PluginStuff.h:87-113 | The root is the group "Plugins"; its children are the built-in group, the racks group, then the mirrored sub-folder groups and top-level plugin leaves |
| PluginCatalog.EmptyRegistry | PluginHosting/PluginStuff.h:87-113 | An empty registry tree leaves the root with exactly its two synthetic groups |
| PluginMenu.FirstMatchCorrect | PluginHosting/PluginStuff.h:209-222 | The first item of an order with a key is an item of that order with that key, none exists only when no item has the key, and no earlier item has the key |
| PluginMenu.FindType | PluginHosting/PluginStuff.h:209-222 | findType returns the first leaf with the key in the search order: every sub-group's leaves, recursively and in order, before the group's own leaves |
| PluginMenu.FoundInGroup | PluginHosting/PluginStuff.h:211-214 | A match inside a sub-group, with no match in the sub-groups before it, is the whole search's answer (the early return of the first loop) |
| PluginMenu.FoundLeaf | PluginHosting/PluginStuff.h:216-219 | A matching direct leaf, with no match in any sub-group nor in the leaves before it, is the whole search's answer (the early return of the second loop) |
| PluginMenu.SearchOrderExactly | PluginHosting/PluginStuff.h:209-222 | The search visits exactly the leaves below the group |
| PluginMenu.FindTypeCorrect | PluginHosting/PluginStuff.h:209-222 | A leaf found lies in the tree and has the key; nothing is found exactly when no leaf of the tree has the key |
| PluginMenu.EveryLeafResolves | PluginHosting/PluginStuff.h:209-222 | Every leaf's own menu key resolves to some leaf |
| PluginMenu.DistinctKeysResolveExactly | PluginHosting/PluginStuff.h:209-222 | When the leaves' keys are pairwise distinct, a leaf's key resolves to that very leaf |
| PluginMenu.SubgroupsSearchedFirst | PluginHosting/PluginStuff.h:211-219 | A nested leaf wins over a direct leaf with the same key, even when the direct leaf comes first among the children |
| PluginMenu.BuildMenu | PluginHosting/PluginStuff.h:198-207 | The menu holds a sub-menu per sub-group (named after it, built recursively) in order, then an item per leaf keyed by its hash and showing its name |
| PluginMenu.MenuMatchesSearch | PluginHosting/PluginStuff.h:198-222 | The menu's item ids, sub-menus opened in place, are exactly the keys of the search order, in the same order |
| PluginMenu.MenuIdsResolve | PluginHosting/PluginStuff.h:198-222 | Every id the menu offers is resolved by findType to a leaf of the tree with that key |
| PluginMenu.MenuChoice | PluginHosting/PluginStuff.h:224-232 | A result of 0 yields nothing; any leaf yielded lies in the tree and has the result as its key; a non-zero result that is some leaf's key yields a leaf |
| PluginMenu.RunMenu | PluginHosting/PluginStuff.h:224-232 | runMenu yields nothing for 0 and findType's answer otherwise |
| PluginMenu.ShowMenuAndCreatePlugin | PluginHosting/PluginStuff.h:235-247 | Without a registry tree nothing is created; otherwise the all-plugins catalog is built and the plugin created is the plugin cache's answer for the chosen leaf's xml type and description, or nothing when no leaf is chosen |
| PluginMenu.CreatedOnlyForOfferedKeys | PluginHosting/PluginStuff.h:235-247 | A plugin is chosen only for a non-zero result that the built catalog's menu offers |
| PluginComponents.Label | PluginHosting/PluginStuff.h:258 | The button text is the prefix of the plugin's name of length 5, or the whole name when it is shorter |
| PluginComponents.Clicked | PluginHosting/PluginStuff.h:263-275 | A pop-up-menu click offers deletion; every other click shows the plugin window |
| Tracktion.InsertAt | PluginHosting/Main.cpp:108 | Insertion into the chain puts the plugin at the given index, clamped to the end, and keeps the entries before and after it |
| Tracktion.RemoveFirst | PluginHosting/PluginStuff.h:268 | Removal from a list drops exactly the first occurrence of the value when it occurs, keeping everything before and after it in order, and changes nothing when it does not; one fewer element, and the multiset loses exactly that value |
| Tracktion.RemoveFirstOfLast | PluginHosting/Main.cpp:40-41 | Removing the last clip, which occurs nowhere before it, leaves exactly the clips before it |
| Tracktion.AudioTrack.InsertPlugin | PluginHosting/Main.cpp:108 | The chain becomes the old chain with the plugin inserted at the index; the clips do not change |
| Tracktion.AudioTrack.RemovePlugin | PluginHosting/PluginStuff.h:268 | The plugin is taken out of the chain; the clips do not change |
| Tracktion.AudioTrack.RemoveClip | PluginHosting/Main.cpp:41 | The clip is taken off the track, which stays free of repeated clips; the chain does not change |
| Tracktion.AudioTrack.InsertWaveClip | PluginHosting/Main.cpp:55-56 | On success a new clip with the given name, file and range is appended, otherwise null and nothing changes |
| Tracktion.Edit.EnsureNumberOfAudioTracks | PluginHosting/Main.cpp:33 | The edit ends with at least n tracks; existing tracks stay in place and new ones are fresh and empty |
| Tracktion.TransportControl.Play | PluginHosting/Main.cpp:69 | Playback is on; looping, position and loop range are unchanged |
| Tracktion.TransportControl.Stop | PluginHosting/Main.cpp:222 | Playback is off; looping, position and loop range are unchanged |
| Tracktion.TransportControl.SetLoopRange | PluginHosting/Main.cpp:66 | The loop range is the given one; nothing else changes |
| EngineHelpers.GetOrInsertAudioTrackAt | PluginHosting/Main.cpp:31-35 | For index ≥ 0 the edit has at least index + 1 tracks and track index is returned; a negative index adds nothing and yields null; existing tracks stay in place |
| EngineHelpers.RemoveAllClips | PluginHosting/Main.cpp:36-42 | Removing from the last clip down leaves the track with no clips and its chain unchanged |
| EngineHelpers.LoadAudioFileAsClip | PluginHosting/Main.cpp:44-61 | The first track (created if missing) loses all its clips; a clip named after the file, spanning [0, length), is placed and returned exactly when the file is valid audio and insertion succeeds; otherwise null, with the clips already cleared |
| EngineHelpers.LoopAroundClip | PluginHosting/Main.cpp:62-72 | The clip's transport loops over the clip's range, looping on, position 0, playing; the clip is returned |
| EngineHelpers.FlaggedAsyncUpdater.MarkAndUpdate | PluginHosting/Main.cpp:77 | The flag is set and a callback is pending |
| EngineHelpers.FlaggedAsyncUpdater.CompareAndReset | PluginHosting/Main.cpp:79-86 | Returns true exactly when the flag was set; the flag is clear afterwards |
| TrackPluginList.NotificationsOnlyMark | PluginHosting/Main.cpp:133-147 | A run of notifications never rebuilds; it sets the flag exactly when one of them marks (a plugin added or removed, or a reordering) |
| TrackPluginList.UnmarkedNotificationsIgnored | PluginHosting/Main.cpp:133-143 | Tree changes and added or removed children that are not plugins leave the bookkeeping as it was |
| TrackPluginList.NotificationsCoalesce | PluginHosting/Main.cpp:149-153 | Any number of notifications and then one callback make at most one rebuild, exactly one when the flag was set or some notification marked, and leave the flag clear |
| TrackPluginList.SecondUpdateIdle | PluginHosting/Main.cpp:149-153 | A second callback with no notification in between does nothing |
| TrackPluginList.RowStep | PluginHosting/Main.cpp:125-129 | One pass of the layout loop cuts slot k off what the first k rows left and leaves what k + 1 rows leave |
| TrackPluginList.SlotsWhenTallEnough | PluginHosting/Main.cpp:121-131 | While the bounds are at least 22n + 20 tall, slot i ≤ n is at top y + 22i, 40 wide and 20 high (slot n is the "+" button) |
| TrackPluginList.SlotsDisjoint | PluginHosting/Main.cpp:121-131 | Slots never overlap and stay inside the bounds, even when the bounds are too short |
| TrackPluginList.TrackPluginListComponent.constructor | PluginHosting/Main.cpp:96-115 | The panel takes the edit's first audio track (created when there is none), starts clean and its buttons mirror the chain |
| TrackPluginList.TrackPluginListComponent.Resized | PluginHosting/Main.cpp:121-131 | Button i gets slot i of the bounds and the "+" button the slot after the last; nothing else changes |
| TrackPluginList.TrackPluginListComponent.SetBounds | PluginHosting/Main.cpp:200 | New bounds of a different size lay the panel out again from them; a pure move leaves every button where it was; the invariant and the update bookkeeping are kept either way |
| TrackPluginList.TrackPluginListComponent.RebuildPluginButtons | PluginHosting/Main.cpp:155-164 | Afterwards there is one button per plugin of the chain, button i referring to plugin i and labelled with its name, laid out |
| TrackPluginList.TrackPluginListComponent.ValueTreeChildAdded | PluginHosting/Main.cpp:134-138 | Only an added plugin raises the flag and requests the callback; buttons untouched; the invariant is kept |
| TrackPluginList.TrackPluginListComponent.ValueTreeChildRemoved | PluginHosting/Main.cpp:139-143 | Only a removed plugin raises the flag and requests the callback; buttons untouched; the invariant is kept |
| TrackPluginList.TrackPluginListComponent.ValueTreeChildOrderChanged | PluginHosting/Main.cpp:144-147 | A reordering always raises the flag and requests the callback |
| TrackPluginList.TrackPluginListComponent.HandleAsyncUpdate | PluginHosting/Main.cpp:149-153 | The callback rebuilds exactly when the flag was set, clears it, and afterwards the buttons mirror the chain; with the flag clear nothing changes |
| TrackPluginList.TrackPluginListComponent.AddPluginClicked | PluginHosting/Main.cpp:103-113 | With a plugin it is inserted into the chain at index (number of buttons), the panel is marked, exactly one button for it is appended and all are laid out; up-to-date buttons stay up to date, and the async callback is requested (the chain's notification of line 108 reaches lines 134-138); with nothing chosen, chain, buttons, flag and pending callback are unchanged; the clips never change |
| TrackPluginList.TrackPluginListComponent.ButtonClicked | PluginHosting/PluginStuff.h:263-275 | A pop-up click with "Delete" chosen removes the button's plugin from the chain, marks the panel and requests the async callback; any other click leaves chain, flag and pending callback unchanged; buttons and clips never change |
| MainComponents.PlayStopLabel | PluginHosting/Main.cpp:212-215 | The text is "Pause" exactly when playing, "Play" exactly when not |
| MainComponents.MainComponent.constructor | PluginHosting/Main.cpp:178-193 | A fresh edit with a stopped transport, one new empty track and a panel without buttons |
| MainComponents.MainComponent.ChangeListenerCallback | PluginHosting/Main.cpp:212-215 | The button text follows the transport's play state |
| MainComponents.MainComponent.TogglePlay | PluginHosting/Main.cpp:217-225 | Playing stops, stopped plays; looping, position and loop range are untouched |
| MainComponents.MainComponent.LoadFileToTrack | PluginHosting/Main.cpp:227-240 | No file: nothing happens. Otherwise the first track ends with only the new clip and the transport loops around it, or, when no clip results, the outcome is the unchecked null dereference; the chain and the panel's invariant are undisturbed |

## Left out

- `PluginHosting/PluginWindow.h` is not part of this model. A plain click "shows the window", and that changes no modelled state.
- Async and I/O plumbing is left out: the file chooser (`browseForAudioFile`), the plugin-scan dialog (`launchPluginList`) and the message loop.
  - The requested callback is the updater's `updatePending` flag. Its delivery is an explicit `HandleAsyncUpdate` call.
  - The transport's change broadcast is likewise an explicit `ChangeListenerCallback`.
  - Listener registration and removal are not modelled.
- Library behaviour that is not visible is a parameter or an uninterpreted `Toolkit` field:
  - `String::hashCode`, `TRANS`, `createIdentifierString`;
  - the description names only the fields the catalog sets or the panel shows (name, identifier, format name, category, instrument flag); all the others (unique id, manufacturer, version, ...) are one opaque `otherFields` string, which `identifierString` and the `createNewPlugin` input receive with the rest of the description, so their individual meaning is not modelled;
  - the built-in classes' names and xml type names, the rack and external xml type names, the rack preset prefix;
  - the tree of `KnownPluginList::createTree` (its sorting is not modelled), and whether it exists;
  - the menu's `show()` result, `createNewPlugin`, `AudioFile::isValid` and its length, the success of `insertWaveClip`, and the user's "Delete" choice.
- The edit's rack types are given by their names (`rackNames`).
- BuiltinLeafKey assumes the rack preset prefix is non-empty and does not start with a digit. The engine's prefix is not visible here; an empty prefix would make every id a rack preset.
- `PluginTreeGroup::getUniqueName` (line 76) returns the group's name. Nothing in the menu or the search reads it, so it is not modelled.
- Code under `TRACKTION_ENABLE_REWIRE` and `ENABLE_INTERNAL_PLUGINS` is left out. The Application and MainWindow boilerplate and `MainComponent::resized`'s fixed coordinates are left out too.
- `jassert` checks are debug-only and not modelled.
- The built-in counter is an unbounded `nat`. At most 20 values are used, so `int` overflow cannot occur.
- CreateBuiltInItems: the source makes one `addInternalPlugin` call per built-in class. The model is one loop over the table of kinds in that order, so every call is still proved.
- Catalog nodes are values, not heap objects; a group owns its children exclusively, so only object identity is lost. Plugin buttons are values in a sequence, so component identity and visibility (`addAndMakeVisible`) are not modelled.
- AddPluginClicked receives the plugin the menu produced as a parameter. ShowMenuAndCreatePlugin models how that plugin is produced.
- Tracktion.InsertAt: the plugin chain's handling of an index past its end is not visible. It is assumed to append.
- Tracktion.AudioTrack.InsertPlugin: the engine's insertion is not visible, and Main.cpp:108 ignores its result. It is assumed always to succeed and to notify the panel's listener at once. AddPluginClicked's promise that up-to-date buttons stay up to date rests on this; a refused insert would leave the appended button without a chain entry and without a mark.
- Tracktion.Edit.EnsureNumberOfAudioTracks: new tracks start with an empty chain. The engine may add default plugins, which the panel would mirror like any others. Every track is taken to be an audio track.
- Tracktion.AudioTrack.InsertWaveClip appends the clip. The engine's clip ordering is not modelled; the track has just been cleared when it is called.
- Tracktion.TransportControl.Play and Stop only switch the play state. Times are mathematical reals, not doubles.
- The source dereferences the result of `loadAudioFileAsClip` without a check. The model does not treat this as success. MainComponent.LoadFileToTrack reports that case as the outcome `NullClipDereferenced`, with the transport untouched.
- TrackPluginList.TrackPluginListComponent.Resized lays out from the panel's `bounds`, which is what `getBounds()` returns: the panel's position in its parent, as the code is written.
- Hash collisions between leaves are possible. findType then returns the first leaf in search order, and only DistinctKeysResolveExactly assumes distinct keys.
- Folder pruning follows the code, not the broader reading that folders without any plugin below them are skipped. A registry folder becomes a group when it has a direct plugin or sub-folder, checked one level down only, so an empty group can appear (EmptyGroupSurvives).

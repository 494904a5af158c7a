/**
 * The plugin catalog tree of PluginHosting/PluginStuff.h: a root "Plugins" group
 * holding the built-in plugins, the plugin racks and a mirror of the plugin
 * registry's folder tree.
 *
 * The source builds the tree out of heap objects (a group owns an array of
 * sub-items and tells groups from leaves by a dynamic cast). Here a node is a
 * value of a tagged variant; groups own their children exclusively in the
 * source too, so nothing is shared. Construction stays imperative: each method
 * appends to a local sequence that stands for the group's sub-item array, the
 * built-in counter is threaded in and out, and every method is proved equal to
 * a reference function about which the lemmas below are stated.
 */
module PluginCatalog {

  /**
   * A plugin type's description: the fields the catalog reads or writes, and
   * `otherFields`, an opaque encoding of all the others (unique id,
   * manufacturer, version, ...), which the identifier string and plugin
   * creation see as well; it is empty for a default-constructed description.
   */
  datatype Description = Description(
    name: string,
    fileOrIdentifier: string,
    pluginFormatName: string,
    category: string,
    otherFields: string,
    isInstrument: bool)

  /** A default-constructed description: every string empty, not an instrument. */
  const EmptyDescription := Description("", "", "", "", "", false)

  /** The built-in processing types the catalog offers, named after their plugin classes. */
  datatype BuiltinKind =
    | VolumeAndPan | LevelMeter | Equaliser | Reverb | Delay | Chorus | Phaser
    | Compressor | PitchShift | LowPass | MidiModifier | MidiPatchBay | PatchBay
    | AuxSend | AuxReturn | Text | FreezePoint | Sampler | FourOsc | Insert

  /** Which plugins the catalog is built for: all, or effects only. */
  datatype PluginType = AllPlugins | EffectPlugins

  /**
   * What the catalog needs from the engine and the toolkit but cannot see:
   * the string hash, the translation function, the description's identifier
   * string, each built-in class's display name and xml type name, the xml
   * type names of racks and of external plugins, and the rack preset prefix.
   * All of them are left uninterpreted.
   */
  datatype Toolkit = Toolkit(
    hashCode: string -> int,
    trans: string -> string,
    identifierString: Description -> string,
    pluginName: BuiltinKind -> string,
    xmlTypeName: BuiltinKind -> string,
    rackXmlType: string,
    externalXmlType: string,
    rackPresetPrefix: string)

  /** A catalog leaf: the description it offers, its xml type and whether it is an external plugin. */
  datatype TreeItem = TreeItem(desc: Description, xmlType: string, isPlugin: bool)

  /** A catalog node: a named group of children, or a leaf. */
  datatype Node = Group(name: string, children: seq<Node>) | Leaf(item: TreeItem)

  /** A folder of the registry's plugin tree: its name, its sub-folders and its own plugins. */
  datatype Folder = Folder(folder: string, subFolders: seq<Folder>, plugins: seq<Description>)

  const InternalFormatName := "TracktionInternal"
  const BuiltinSuffix := "_trkbuiltin"
  const RootName := "Plugins"
  const BuiltinGroupName := "Builtin Plugins"
  const RacksGroupName := "Plugin Racks"
  const NewRackName := "Create New Empty Rack"
  const RackIdPrefix := "RACK__"

  predicate StartsWith(s: string, p: string) { |p| <= |s| && s[..|p|] == p }

  predicate EndsWith(s: string, p: string) { |p| <= |s| && s[|s| - |p|..] == p }

  /** The character of decimal digit `d` ('0' is code point 48). */
  function DigitChar(d: nat): char
    requires d < 10
  {
    (d + 48) as char
  }

  /** The decimal text of a non-negative integer, as the toolkit's String(int) writes it. */
  function NatToString(n: nat): (s: string)
    decreases n
  {
    if n < 10 then [DigitChar(n)] else NatToString(n / 10) + [DigitChar(n % 10)]
  }

  lemma {:induction false} NatToStringLength(n: nat)
    ensures 1 <= |NatToString(n)|
    ensures n >= 10 ==> 2 <= |NatToString(n)|
  {
    if n >= 10 {
      NatToStringLength(n / 10);
    }
  }

  /** Distinct numbers have distinct decimal texts. */
  lemma {:induction false} NatToStringInjective(a: nat, b: nat)
    requires NatToString(a) == NatToString(b)
    ensures a == b
  {
    NatToStringLength(a);
    NatToStringLength(b);
    var s := NatToString(a);
    if a < 10 && b < 10 {
      assert DigitChar(a) == s[0] == DigitChar(b);
    } else if a >= 10 && b >= 10 {
      assert NatToString(a / 10) == s[..|s| - 1] == NatToString(b / 10);
      assert DigitChar(a % 10) == s[|s| - 1] == DigitChar(b % 10);
      NatToStringInjective(a / 10, b / 10);
    }
  }

  /** A leaf for a registry description: an external plugin. */
  function ItemFromDescription(d: Description, tk: Toolkit): TreeItem
  {
    TreeItem(d, tk.externalXmlType, true)
  }

  /** A leaf built from an identifier, a display name and an xml type (the second leaf constructor). */
  function ItemFromId(uniqueId: string, name: string, xmlType: string, isSynth: bool, isPlugin: bool,
                      tk: Toolkit): TreeItem
  {
    var format := if EndsWith(uniqueId, BuiltinSuffix) || xmlType == tk.rackXmlType
                  then InternalFormatName else "";
    TreeItem(EmptyDescription.(name := name, fileOrIdentifier := uniqueId, pluginFormatName := format,
                               category := xmlType, isInstrument := isSynth),
             xmlType, isPlugin)
  }

  /** The format name is the internal one exactly for built-in ids and racks; the other fields are copied. */
  lemma ItemFromIdFields(uniqueId: string, name: string, xmlType: string, isSynth: bool, isPlugin: bool,
                         tk: Toolkit)
    ensures var t := ItemFromId(uniqueId, name, xmlType, isSynth, isPlugin, tk);
      && (t.desc.pluginFormatName == InternalFormatName
          <==> EndsWith(uniqueId, BuiltinSuffix) || xmlType == tk.rackXmlType)
      && (t.desc.pluginFormatName != InternalFormatName ==> t.desc.pluginFormatName == "")
      && t.desc.category == xmlType && t.xmlType == xmlType
      && t.desc.isInstrument == isSynth && t.isPlugin == isPlugin
      && t.desc.name == name && t.desc.fileOrIdentifier == uniqueId
  {
  }

  /** A leaf's unique name: its identifier when that is a rack preset, its description's identifier string otherwise. */
  function ItemUniqueName(t: TreeItem, tk: Toolkit): string
  {
    if StartsWith(t.desc.fileOrIdentifier, tk.rackPresetPrefix) then t.desc.fileOrIdentifier
    else tk.identifierString(t.desc)
  }

  /** The key a leaf is listed under in the menu: the hash of its unique name. */
  function MenuKey(t: TreeItem, tk: Toolkit): int
  {
    tk.hashCode(ItemUniqueName(t, tk))
  }

  /**
   * A registry leaf offers the registry's description as an external plugin,
   * and is listed under the hash of the description's identifier string, or
   * of its identifier when that names a rack preset.
   */
  lemma RegistryLeafKey(d: Description, tk: Toolkit)
    ensures var t := ItemFromDescription(d, tk);
      && t.desc == d && t.xmlType == tk.externalXmlType && t.isPlugin
      && (!StartsWith(d.fileOrIdentifier, tk.rackPresetPrefix) ==> MenuKey(t, tk) == tk.hashCode(tk.identifierString(d)))
      && (StartsWith(d.fileOrIdentifier, tk.rackPresetPrefix) ==> MenuKey(t, tk) == tk.hashCode(d.fileOrIdentifier))
  {
  }

  /** The decimal text of a number starts with a digit. */
  lemma {:induction false} NatToStringStartsWithDigit(n: nat)
    ensures |NatToString(n)| >= 1 && '0' <= NatToString(n)[0] <= '9'
    decreases n
  {
    if n >= 10 {
      NatToStringStartsWithDigit(n / 10);
    }
  }

  /**
   * A built-in leaf is listed under the hash of its description's identifier
   * string, provided the rack preset prefix does not start with a digit, so
   * that no "n_trkbuiltin" id can be taken for a rack preset.
   */
  lemma BuiltinLeafKey(n: nat, k: BuiltinKind, synth: bool, tk: Toolkit)
    requires tk.rackPresetPrefix != [] && !('0' <= tk.rackPresetPrefix[0] <= '9')
    ensures var t := BuiltinLeaf(n, k, synth, tk).item;
      MenuKey(t, tk) == tk.hashCode(tk.identifierString(t.desc))
  {
    NatToStringStartsWithDigit(n);
    var id := NatToString(n) + BuiltinSuffix;
    assert id[0] == NatToString(n)[0];
  }

  // ---------------------------------------------------------------------------
  // Built-in plugins

  /** The built-in kinds in catalog order: the sampler and the synthesiser only when all plugins are wanted. */
  function BuiltinKinds(types: PluginType): seq<BuiltinKind>
  {
    if types == AllPlugins then
      [VolumeAndPan, LevelMeter, Equaliser, Reverb, Delay, Chorus, Phaser, Compressor, PitchShift,
       LowPass, MidiModifier, MidiPatchBay, PatchBay, AuxSend, AuxReturn, Text, FreezePoint,
       Sampler, FourOsc, Insert]
    else
      [VolumeAndPan, LevelMeter, Equaliser, Reverb, Delay, Chorus, Phaser, Compressor, PitchShift,
       LowPass, MidiModifier, MidiPatchBay, PatchBay, AuxSend, AuxReturn, Text, FreezePoint,
       Insert]
  }

  predicate IsSynthKind(k: BuiltinKind) { k == Sampler || k == FourOsc }

  /**
   * The built-in leaf for counter value `n`: id "n_trkbuiltin", the kind's
   * translated name, the internal format, the kind's xml type as category and
   * as xml type, not an external plugin.
   */
  function BuiltinLeaf(n: nat, k: BuiltinKind, synth: bool, tk: Toolkit): Node
  {
    Leaf(TreeItem(Description(tk.trans(tk.pluginName(k)), NatToString(n) + BuiltinSuffix, InternalFormatName,
                              tk.xmlTypeName(k), "", synth),
                  tk.xmlTypeName(k), false))
  }

  /** The second leaf constructor, given a built-in id, yields exactly the built-in leaf: it recognises the suffix. */
  lemma BuiltinLeafFromId(n: nat, k: BuiltinKind, synth: bool, tk: Toolkit)
    ensures Leaf(ItemFromId(NatToString(n) + BuiltinSuffix, tk.trans(tk.pluginName(k)), tk.xmlTypeName(k),
                            synth, false, tk))
            == BuiltinLeaf(n, k, synth, tk)
  {
    var id := NatToString(n) + BuiltinSuffix;
    assert id[|id| - |BuiltinSuffix|..] == BuiltinSuffix;
  }

  /** The built-in group's leaves when the counter starts at `num`: leaf `i` is kind `i` numbered `num + i`. */
  function BuiltinLeaves(num: nat, types: PluginType, tk: Toolkit): seq<Node>
  {
    var ks := BuiltinKinds(types);
    seq(|ks|, i requires 0 <= i < |ks| => BuiltinLeaf(num + i, ks[i], IsSynthKind(ks[i]), tk))
  }

  /** Appends one built-in leaf carrying the counter's value and advances the counter. */
  method AddInternalPlugin(items: seq<Node>, num: nat, k: BuiltinKind, synth: bool, tk: Toolkit)
    returns (items': seq<Node>, num': nat)
    ensures items' == items + [BuiltinLeaf(num, k, synth, tk)]
    ensures num' == num + 1
  {
    var item := ItemFromId(NatToString(num) + BuiltinSuffix, tk.trans(tk.pluginName(k)), tk.xmlTypeName(k),
                           synth, false, tk);
    BuiltinLeafFromId(num, k, synth, tk);
    items' := items + [Leaf(item)];
    num' := num + 1;
  }

  /**
   * Appends the built-in leaves, numbering them from `num`. The source makes one
   * call per built-in class, in the order of the kind table; here the calls are
   * one loop over that table.
   */
  method CreateBuiltInItems(items: seq<Node>, num: nat, types: PluginType, tk: Toolkit)
    returns (items': seq<Node>, num': nat)
    ensures items' == items + BuiltinLeaves(num, types, tk)
    ensures num' == num + |BuiltinKinds(types)|
  {
    var ks := BuiltinKinds(types);
    ghost var leaves := BuiltinLeaves(num, types, tk);
    items', num' := items, num;
    var i := 0;
    while i < |ks|
      invariant 0 <= i <= |ks|
      invariant num' == num + i
      invariant items' == items + leaves[..i]
    {
      assert leaves[..i + 1] == leaves[..i] + [leaves[i]];
      items', num' := AddInternalPlugin(items', num', ks[i], IsSynthKind(ks[i]), tk);
      i := i + 1;
    }
    assert leaves[..i] == leaves;
  }

  // ---------------------------------------------------------------------------
  // Plugin racks

  /** The leaf that creates a new, empty rack. */
  function NewRackLeaf(tk: Toolkit): Node
  {
    Leaf(ItemFromId(tk.rackPresetPrefix + "-1", tk.trans(NewRackName), tk.rackXmlType, false, false, tk))
  }

  /** The leaf for the session's `i`-th rack type. */
  function RackLeaf(i: nat, rackName: string, tk: Toolkit): Node
  {
    Leaf(ItemFromId(RackIdPrefix + NatToString(i), rackName, tk.rackXmlType, false, false, tk))
  }

  /** The racks group's leaves: the new-rack entry, then one per rack type in order. */
  function RackLeaves(rackNames: seq<string>, tk: Toolkit): seq<Node>
  {
    [NewRackLeaf(tk)] + seq(|rackNames|, i requires 0 <= i < |rackNames| => RackLeaf(i, rackNames[i], tk))
  }

  /** The new-rack leaf is listed under the hash of its own id: it names a rack preset. */
  lemma NewRackLeafKey(tk: Toolkit)
    ensures MenuKey(NewRackLeaf(tk).item, tk) == tk.hashCode(tk.rackPresetPrefix + "-1")
  {
    var id := tk.rackPresetPrefix + "-1";
    assert id[..|tk.rackPresetPrefix|] == tk.rackPresetPrefix;
  }

  // ---------------------------------------------------------------------------
  // Mirroring the registry

  /** A registry folder is mirrored only when it holds a plugin or a sub-folder of its own. */
  predicate HasDirectContent(f: Folder) { |f.plugins| > 0 || |f.subFolders| > 0 }

  /** The children a group gets from a registry folder: its sub-folder groups, then its plugins. */
  function Mirror(f: Folder, tk: Toolkit): seq<Node>
    decreases f
  {
    MirrorGroups(f.subFolders, tk) + MirrorLeaves(f.plugins, tk)
  }

  /** The groups for a run of sibling folders, skipping those with no direct content. */
  function MirrorGroups(subs: seq<Folder>, tk: Toolkit): seq<Node>
    decreases subs
  {
    if subs == [] then []
    else
      var last := subs[|subs| - 1];
      MirrorGroups(subs[..|subs| - 1], tk)
      + (if HasDirectContent(last) then [Group(last.folder, Mirror(last, tk))] else [])
  }

  /** One external-plugin leaf per registry description, in order. */
  function MirrorLeaves(ps: seq<Description>, tk: Toolkit): seq<Node>
  {
    seq(|ps|, i requires 0 <= i < |ps| => Leaf(ItemFromDescription(ps[i], tk)))
  }

  /** Appends the mirror of a registry folder: first its non-empty sub-folders as groups, then its plugins. */
  method PopulateFrom(items: seq<Node>, tree: Folder, tk: Toolkit) returns (r: seq<Node>)
    ensures r == items + Mirror(tree, tk)
    decreases tree
  {
    r := items;
    var k := 0;
    while k < |tree.subFolders|
      invariant 0 <= k <= |tree.subFolders|
      invariant r == items + MirrorGroups(tree.subFolders[..k], tk)
    {
      var sub := tree.subFolders[k];
      ghost var prefix := tree.subFolders[..k + 1];
      assert prefix[..|prefix| - 1] == tree.subFolders[..k] && prefix[|prefix| - 1] == sub;
      if |sub.plugins| > 0 || |sub.subFolders| > 0 {
        // The source adds the new group first and fills it afterwards; with
        // values the group is filled first, which yields the same tree.
        var kids := PopulateFrom([], sub, tk);
        assert kids == Mirror(sub, tk);
        r := r + [Group(sub.folder, kids)];
      }
      k := k + 1;
    }
    assert tree.subFolders[..k] == tree.subFolders;
    ghost var groups := r;
    var j := 0;
    while j < |tree.plugins|
      invariant 0 <= j <= |tree.plugins|
      invariant r == groups + MirrorLeaves(tree.plugins[..j], tk)
    {
      r := r + [Leaf(ItemFromDescription(tree.plugins[j], tk))];
      j := j + 1;
    }
    assert tree.plugins[..j] == tree.plugins;
  }

  // ---------------------------------------------------------------------------
  // The root

  /** The catalog as the root group's constructor builds it. */
  function Catalog(rackNames: seq<string>, tree: Folder, types: PluginType, tk: Toolkit): Node
  {
    Group(RootName,
          [Group(tk.trans(BuiltinGroupName), BuiltinLeaves(1, types, tk)),
           Group(tk.trans(RacksGroupName), RackLeaves(rackNames, tk))]
          + Mirror(tree, tk))
  }

  /** The root group's constructor: built-in group (counter from 1), racks group, then the registry's mirror. */
  method BuildCatalog(rackNames: seq<string>, tree: Folder, types: PluginType, tk: Toolkit)
    returns (root: Node)
    ensures root == Catalog(rackNames, tree, types, tk)
  {
    var subitems: seq<Node> := [];
    var num := 1;
    var builtins;
    builtins, num := CreateBuiltInItems([], num, types, tk);
    subitems := subitems + [Group(tk.trans(BuiltinGroupName), builtins)];

    var racks := [NewRackLeaf(tk)];
    var i := 0;
    while i < |rackNames|
      invariant 0 <= i <= |rackNames|
      invariant racks == RackLeaves(rackNames[..i], tk)
    {
      racks := racks + [RackLeaf(i, rackNames[i], tk)];
      i := i + 1;
      assert racks == RackLeaves(rackNames[..i], tk);
    }
    assert rackNames[..i] == rackNames;
    subitems := subitems + [Group(tk.trans(RacksGroupName), racks)];

    assert builtins == BuiltinLeaves(1, types, tk);
    subitems := PopulateFrom(subitems, tree, tk);
    root := Group(RootName, subitems);
  }

  // ---------------------------------------------------------------------------
  // Properties

  /** The root is "Plugins"; its children are the built-in group, the racks group, then the registry's mirror. */
  lemma CatalogShape(rackNames: seq<string>, tree: Folder, types: PluginType, tk: Toolkit)
    ensures var root := Catalog(rackNames, tree, types, tk);
      && root.Group? && root.name == RootName
      && |root.children| == 2 + |Mirror(tree, tk)|
      && root.children[0] == Group(tk.trans(BuiltinGroupName), BuiltinLeaves(1, types, tk))
      && root.children[1] == Group(tk.trans(RacksGroupName), RackLeaves(rackNames, tk))
      && root.children[2..] == Mirror(tree, tk)
      && |root.children[0].children| >= 18 && |root.children[1].children| >= 1
  {
    var root := Catalog(rackNames, tree, types, tk);
    assert root.children[2..] == Mirror(tree, tk);
  }

  /** An empty registry leaves the root with exactly its two synthetic groups. */
  lemma EmptyRegistry(rackNames: seq<string>, name: string, types: PluginType, tk: Toolkit)
    ensures var root := Catalog(rackNames, Folder(name, [], []), types, tk);
      |root.children| == 2 && root.children[0].Group? && root.children[1].Group?
  {
    assert Mirror(Folder(name, [], []), tk) == [];
  }

  /**
   * The built-in leaves: 20 with all plugins, 18 otherwise; leaf `i` has id
   * `(num + i)_trkbuiltin`, the internal format name, the kind's xml type as its
   * category, and is an instrument exactly when it is the sampler or the synthesiser.
   */
  lemma BuiltinLeavesFacts(num: nat, types: PluginType, tk: Toolkit)
    ensures var leaves := BuiltinLeaves(num, types, tk);
      && |leaves| == (if types == AllPlugins then 20 else 18)
      && forall i :: 0 <= i < |leaves| ==>
        && leaves[i].Leaf?
        && leaves[i].item.desc.fileOrIdentifier == NatToString(num + i) + BuiltinSuffix
        && leaves[i].item.desc.pluginFormatName == InternalFormatName
        && leaves[i].item.desc.category == tk.xmlTypeName(BuiltinKinds(types)[i])
        && !leaves[i].item.isPlugin
        && (leaves[i].item.desc.isInstrument <==> types == AllPlugins && (i == 17 || i == 18))
  {
    var ks := BuiltinKinds(types);
    forall n: nat
      ensures EndsWith(NatToString(n) + BuiltinSuffix, BuiltinSuffix)
    {
      var s := NatToString(n) + BuiltinSuffix;
      assert s[|s| - |BuiltinSuffix|..] == BuiltinSuffix;
    }
  }

  /** The built-in ids of the counter values the root's built-in group starts and ends with. */
  lemma SmallDecimals()
    ensures NatToString(1) + BuiltinSuffix == "1_trkbuiltin"
    ensures NatToString(2) + BuiltinSuffix == "2_trkbuiltin"
    ensures NatToString(18) + BuiltinSuffix == "18_trkbuiltin"
    ensures NatToString(20) + BuiltinSuffix == "20_trkbuiltin"
  {
    assert NatToString(18) == NatToString(1) + ['8'];
    assert NatToString(20) == NatToString(2) + ['0'];
  }

  /** With the root's counter starting at 1, the first ids are "1_trkbuiltin", "2_trkbuiltin", and the last is the count. */
  lemma BuiltinIdsFromOne(types: PluginType, tk: Toolkit)
    ensures var leaves := BuiltinLeaves(1, types, tk);
      && leaves[0].item.desc.fileOrIdentifier == "1_trkbuiltin"
      && leaves[1].item.desc.fileOrIdentifier == "2_trkbuiltin"
      && leaves[|leaves| - 1].item.desc.fileOrIdentifier
         == (if types == AllPlugins then "20_trkbuiltin" else "18_trkbuiltin")
  {
    var leaves := BuiltinLeaves(1, types, tk);
    BuiltinLeavesFacts(1, types, tk);
    assert leaves[0].item.desc.fileOrIdentifier == NatToString(1) + BuiltinSuffix;
    assert leaves[1].item.desc.fileOrIdentifier == NatToString(2) + BuiltinSuffix;
    assert leaves[|leaves| - 1].item.desc.fileOrIdentifier == NatToString(|leaves|) + BuiltinSuffix;
    SmallDecimals();
  }

  /** Two different built-in leaves never share an identifier. */
  lemma BuiltinIdsDistinct(num: nat, types: PluginType, tk: Toolkit, i: nat, j: nat)
    requires i < j < |BuiltinLeaves(num, types, tk)|
    ensures BuiltinLeaves(num, types, tk)[i].item.desc.fileOrIdentifier
            != BuiltinLeaves(num, types, tk)[j].item.desc.fileOrIdentifier
  {
    var a, b := NatToString(num + i), NatToString(num + j);
    if a + BuiltinSuffix == b + BuiltinSuffix {
      assert |a| == |b|;
      assert a == (a + BuiltinSuffix)[..|a|] == (b + BuiltinSuffix)[..|b|] == b;
      NatToStringInjective(num + i, num + j);
    }
  }

  /**
   * The racks group: first the new-rack leaf with id `prefix-1`, then one leaf
   * per rack type in order with id "RACK__i" and that rack's name; all are
   * internal-format, non-plugin leaves of the rack xml type.
   */
  lemma RackLeavesFacts(rackNames: seq<string>, tk: Toolkit)
    ensures var leaves := RackLeaves(rackNames, tk);
      && |leaves| == 1 + |rackNames|
      && leaves[0].item.desc.fileOrIdentifier == tk.rackPresetPrefix + "-1"
      && leaves[0].item.desc.name == tk.trans(NewRackName)
      && ItemUniqueName(leaves[0].item, tk) == tk.rackPresetPrefix + "-1"
      && forall i :: 0 <= i < |leaves| ==>
        && leaves[i].Leaf?
        && leaves[i].item.xmlType == tk.rackXmlType
        && leaves[i].item.desc.pluginFormatName == InternalFormatName
        && !leaves[i].item.isPlugin && !leaves[i].item.desc.isInstrument
        && (i > 0 ==> leaves[i].item.desc.fileOrIdentifier == RackIdPrefix + NatToString(i - 1)
                      && leaves[i].item.desc.name == rackNames[i - 1])
  {
    var id := tk.rackPresetPrefix + "-1";
    assert id[..|tk.rackPresetPrefix|] == tk.rackPresetPrefix;
  }

  /** The first rack type's leaf has id "RACK__0", the second "RACK__1". */
  lemma RackIdsFromZero(rackNames: seq<string>, tk: Toolkit)
    requires |rackNames| >= 2
    ensures RackLeaves(rackNames, tk)[1].item.desc.fileOrIdentifier == "RACK__0"
    ensures RackLeaves(rackNames, tk)[2].item.desc.fileOrIdentifier == "RACK__1"
  {
    assert NatToString(0) == "0";
    assert NatToString(1) == "1";
  }

  lemma {:induction false} MirrorGroupsAppend(a: seq<Folder>, b: seq<Folder>, tk: Toolkit)
    ensures MirrorGroups(a + b, tk) == MirrorGroups(a, tk) + MirrorGroups(b, tk)
    decreases |b|
  {
    if b == [] {
      assert a + b == a;
    } else {
      var b' := b[..|b| - 1];
      assert (a + b)[..|a + b| - 1] == a + b';
      MirrorGroupsAppend(a, b', tk);
    }
  }

  /** Mirroring keeps the registry's order: the groups of a concatenation are the concatenation of the groups. */
  lemma MirrorKeepsOrder(subs: seq<Folder>, k: nat, tk: Toolkit)
    requires k <= |subs|
    ensures MirrorGroups(subs, tk) == MirrorGroups(subs[..k], tk) + MirrorGroups(subs[k..], tk)
  {
    assert subs == subs[..k] + subs[k..];
    MirrorGroupsAppend(subs[..k], subs[k..], tk);
  }

  /** Every mirrored group stems from a sibling folder with direct content, and every such folder yields one. */
  lemma {:induction false} MirrorGroupsExactly(subs: seq<Folder>, tk: Toolkit, g: Node)
    ensures g in MirrorGroups(subs, tk)
            <==> exists s :: s in subs && HasDirectContent(s) && g == Group(s.folder, Mirror(s, tk))
    decreases |subs|
  {
    if subs != [] {
      var init, last := subs[..|subs| - 1], subs[|subs| - 1];
      assert subs == init + [last];
      MirrorGroupsExactly(init, tk, g);
      if g in MirrorGroups(subs, tk) && g !in MirrorGroups(init, tk) {
        assert last in subs;
      }
      if s :| s in subs && HasDirectContent(s) && g == Group(s.folder, Mirror(s, tk)) {
        if s != last {
          assert s in init;
        }
      }
    }
  }

  lemma {:induction false} MirrorGroupsAreGroups(subs: seq<Folder>, tk: Toolkit)
    ensures forall n :: n in MirrorGroups(subs, tk) ==> n.Group?
    ensures |MirrorGroups(subs, tk)| <= |subs|
    decreases |subs|
  {
    if subs != [] {
      MirrorGroupsAreGroups(subs[..|subs| - 1], tk);
    }
  }

  /**
   * Within a mirrored folder all sub-folder groups come before all plugin leaves,
   * and the leaves are the folder's plugins in order.
   */
  lemma MirrorGroupsBeforeLeaves(f: Folder, tk: Toolkit)
    ensures var m := Mirror(f, tk);
      var g := |m| - |f.plugins|;
      && 0 <= g <= |f.subFolders|
      && (forall i :: 0 <= i < g ==> m[i].Group?)
      && (forall k :: 0 <= k < |f.plugins| ==> m[g + k] == Leaf(ItemFromDescription(f.plugins[k], tk)))
      && (forall i, j :: 0 <= i < j < |m| && m[j].Group? ==> m[i].Group?)
  {
    var m := Mirror(f, tk);
    var gs := MirrorGroups(f.subFolders, tk);
    MirrorGroupsAreGroups(f.subFolders, tk);
    assert forall i :: 0 <= i < |gs| ==> m[i] == gs[i] && gs[i] in gs;
  }

  /**
   * The direct-content check looks one level down only: a folder whose only
   * sub-folder is itself empty still becomes a group, and that group has no children.
   */
  lemma EmptyGroupSurvives(tk: Toolkit)
    ensures Mirror(Folder("", [Folder("Vendor", [Folder("Empty", [], [])], [])], []), tk)
            == [Group("Vendor", [])]
  {
    var empty := Folder("Empty", [], []);
    var vendor := Folder("Vendor", [empty], []);
    assert MirrorGroups([empty], tk) == [];
    assert Mirror(vendor, tk) == [];
    assert MirrorGroups([vendor], tk) == [Group("Vendor", [])];
  }
}

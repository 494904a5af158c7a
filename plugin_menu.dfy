/**
 * The plugin pop-up menu of PluginHosting/PluginStuff.h: the menu built from a
 * catalog group, the depth-first search that resolves a chosen menu id back to
 * a catalog leaf, and the entry point that shows the menu and creates the
 * chosen plugin.
 *
 * Every search is specified against `SearchOrder`, the order in which the
 * source visits the leaves: at each level all sub-groups' leaves (each
 * sub-group searched the same way, in order) before the level's own leaves.
 */
module PluginMenu {
  import opened Wrappers
  import opened PluginCatalog

  // ---------------------------------------------------------------------------
  // The search order

  /** The leaves under a group's children in the order the search visits them. */
  function SearchOrder(kids: seq<Node>): seq<TreeItem>
    decreases kids, 1
  {
    GroupsOrder(kids) + DirectLeaves(kids)
  }

  /** The search orders of the sub-groups among `kids`, one after the other. */
  function GroupsOrder(kids: seq<Node>): seq<TreeItem>
    decreases kids, 0
  {
    if kids == [] then []
    else
      var last := kids[|kids| - 1];
      GroupsOrder(kids[..|kids| - 1]) + (if last.Group? then SearchOrder(last.children) else [])
  }

  /** The leaves among `kids` themselves, in order. */
  function DirectLeaves(kids: seq<Node>): seq<TreeItem>
  {
    if kids == [] then []
    else
      var last := kids[|kids| - 1];
      DirectLeaves(kids[..|kids| - 1]) + (if last.Leaf? then [last.item] else [])
  }

  /** `t` is a leaf somewhere below `kids`. */
  predicate Contains(kids: seq<Node>, t: TreeItem)
    decreases kids
  {
    exists i :: 0 <= i < |kids| && (kids[i] == Leaf(t) || (kids[i].Group? && Contains(kids[i].children, t)))
  }

  /** The first item of `order` whose menu key is `key`, if any. */
  function FirstMatch(order: seq<TreeItem>, key: int, tk: Toolkit): (r: Option<TreeItem>)
    ensures r.Some? ==> MenuKey(r.value, tk) == key
  {
    if order == [] then None
    else if MenuKey(order[0], tk) == key then Some(order[0])
    else FirstMatch(order[1..], key, tk)
  }

  /**
   * The first match is sound (an item of the order with the key), complete
   * (None only when no item has the key) and earliest (no item before it has the key).
   */
  lemma {:induction false} FirstMatchCorrect(order: seq<TreeItem>, key: int, tk: Toolkit)
    ensures var r := FirstMatch(order, key, tk);
      && (r.Some? ==> r.value in order)
      && (r.None? <==> forall t :: t in order ==> MenuKey(t, tk) != key)
      && (r.Some? ==> exists i :: 0 <= i < |order| && order[i] == r.value
                                  && forall j :: 0 <= j < i ==> MenuKey(order[j], tk) != key)
    decreases |order|
  {
    if order != [] && MenuKey(order[0], tk) != key {
      var tail := order[1..];
      FirstMatchCorrect(tail, key, tk);
      assert order == [order[0]] + tail;
      var r := FirstMatch(tail, key, tk);
      if r.Some? {
        var i :| 0 <= i < |tail| && tail[i] == r.value
                 && forall j :: 0 <= j < i ==> MenuKey(tail[j], tk) != key;
        assert order[i + 1] == r.value;
        forall j | 0 <= j < i + 1 ensures MenuKey(order[j], tk) != key {
          if j > 0 { assert order[j] == tail[j - 1]; }
        }
      }
    } else if order != [] {
      assert order[0] in order;
    }
  }

  lemma {:induction false} FirstMatchAppend(a: seq<TreeItem>, b: seq<TreeItem>, key: int, tk: Toolkit)
    ensures FirstMatch(a + b, key, tk) == if FirstMatch(a, key, tk).Some? then FirstMatch(a, key, tk)
                                          else FirstMatch(b, key, tk)
    decreases |a|
  {
    if a == [] {
      assert a + b == b;
    } else {
      assert (a + b)[0] == a[0];
      assert (a + b)[1..] == a[1..] + b;
      FirstMatchAppend(a[1..], b, key, tk);
    }
  }

  lemma {:induction false} GroupsOrderAppend(a: seq<Node>, b: seq<Node>)
    ensures GroupsOrder(a + b) == GroupsOrder(a) + GroupsOrder(b)
    decreases |b|
  {
    if b == [] {
      assert a + b == a;
    } else {
      var b' := b[..|b| - 1];
      assert (a + b)[..|a + b| - 1] == a + b';
      assert (a + b)[|a + b| - 1] == b[|b| - 1];
      GroupsOrderAppend(a, b');
    }
  }

  lemma {:induction false} DirectLeavesAppend(a: seq<Node>, b: seq<Node>)
    ensures DirectLeaves(a + b) == DirectLeaves(a) + DirectLeaves(b)
    decreases |b|
  {
    if b == [] {
      assert a + b == a;
    } else {
      var b' := b[..|b| - 1];
      assert (a + b)[..|a + b| - 1] == a + b';
      assert (a + b)[|a + b| - 1] == b[|b| - 1];
      DirectLeavesAppend(a, b');
    }
  }

  /** One more child adds its sub-group's search order, if it is a group. */
  lemma GroupsOrderStep(kids: seq<Node>, i: nat)
    requires i < |kids|
    ensures GroupsOrder(kids[..i + 1])
            == GroupsOrder(kids[..i]) + (if kids[i].Group? then SearchOrder(kids[i].children) else [])
  {
    assert kids[..i + 1][..i] == kids[..i];
  }

  /** One more child adds its leaf, if it is one. */
  lemma DirectLeavesStep(kids: seq<Node>, j: nat)
    requires j < |kids|
    ensures DirectLeaves(kids[..j + 1]) == DirectLeaves(kids[..j]) + (if kids[j].Leaf? then [kids[j].item] else [])
  {
    assert kids[..j + 1][..j] == kids[..j];
  }

  /** The sub-groups' order splits at any child. */
  lemma GroupsOrderSplit(kids: seq<Node>, k: nat)
    requires k <= |kids|
    ensures GroupsOrder(kids) == GroupsOrder(kids[..k]) + GroupsOrder(kids[k..])
  {
    assert kids == kids[..k] + kids[k..];
    GroupsOrderAppend(kids[..k], kids[k..]);
  }

  /** The direct leaves split at any child. */
  lemma DirectLeavesSplit(kids: seq<Node>, k: nat)
    requires k <= |kids|
    ensures DirectLeaves(kids) == DirectLeaves(kids[..k]) + DirectLeaves(kids[k..])
  {
    assert kids == kids[..k] + kids[k..];
    DirectLeavesAppend(kids[..k], kids[k..]);
  }

  /** A match in a prefix of the order is the match of the whole order. */
  lemma FirstMatchPrefix(a: seq<TreeItem>, b: seq<TreeItem>, key: int, tk: Toolkit)
    requires FirstMatch(a, key, tk).Some?
    ensures FirstMatch(a + b, key, tk) == FirstMatch(a, key, tk)
  {
    FirstMatchAppend(a, b, key, tk);
  }

  /** A match inside sub-group `i`, with none in the sub-groups before it, is the whole search's answer. */
  lemma FoundInGroup(kids: seq<Node>, i: nat, key: int, tk: Toolkit)
    requires i < |kids| && kids[i].Group?
    requires FirstMatch(GroupsOrder(kids[..i]), key, tk).None?
    requires FirstMatch(SearchOrder(kids[i].children), key, tk).Some?
    ensures FirstMatch(SearchOrder(kids), key, tk) == FirstMatch(SearchOrder(kids[i].children), key, tk)
  {
    var m := FirstMatch(SearchOrder(kids[i].children), key, tk);
    var upTo := GroupsOrder(kids[..i + 1]);
    assert FirstMatch(upTo, key, tk) == m by {
      GroupsOrderStep(kids, i);
      FirstMatchAppend(GroupsOrder(kids[..i]), SearchOrder(kids[i].children), key, tk);
    }
    assert FirstMatch(GroupsOrder(kids), key, tk) == m by {
      GroupsOrderSplit(kids, i + 1);
      FirstMatchPrefix(upTo, GroupsOrder(kids[i + 1..]), key, tk);
    }
    FirstMatchPrefix(GroupsOrder(kids), DirectLeaves(kids), key, tk);
  }

  /** A matching leaf `j`, with no match in any sub-group nor in the leaves before it, is the whole search's answer. */
  lemma FoundLeaf(kids: seq<Node>, j: nat, key: int, tk: Toolkit)
    requires j < |kids| && kids[j].Leaf? && MenuKey(kids[j].item, tk) == key
    requires FirstMatch(GroupsOrder(kids), key, tk).None?
    requires FirstMatch(DirectLeaves(kids[..j]), key, tk).None?
    ensures FirstMatch(SearchOrder(kids), key, tk) == Some(kids[j].item)
  {
    var upTo := DirectLeaves(kids[..j + 1]);
    assert FirstMatch(upTo, key, tk) == Some(kids[j].item) by {
      DirectLeavesStep(kids, j);
      FirstMatchAppend(DirectLeaves(kids[..j]), [kids[j].item], key, tk);
    }
    assert FirstMatch(DirectLeaves(kids), key, tk) == Some(kids[j].item) by {
      DirectLeavesSplit(kids, j + 1);
      FirstMatchPrefix(upTo, DirectLeaves(kids[j + 1..]), key, tk);
    }
    FirstMatchAppend(GroupsOrder(kids), DirectLeaves(kids), key, tk);
  }

  // ---------------------------------------------------------------------------
  // findType

  /**
   * Resolves a menu id to a leaf below `node`: each sub-group in order is
   * searched first (returning as soon as one yields a leaf), then the group's
   * own leaves in order; none found is None (the source's null).
   */
  method FindType(node: Node, hash: int, tk: Toolkit) returns (r: Option<TreeItem>)
    requires node.Group?
    ensures r == FirstMatch(SearchOrder(node.children), hash, tk)
    decreases node
  {
    var kids := node.children;
    var i := 0;
    while i < |kids|
      invariant 0 <= i <= |kids|
      invariant FirstMatch(GroupsOrder(kids[..i]), hash, tk).None?
    {
      if kids[i].Group? {
        var t := FindType(kids[i], hash, tk);
        if t.Some? {
          FoundInGroup(kids, i, hash, tk);
          return t;
        }
      }
      GroupsOrderStep(kids, i);
      FirstMatchAppend(GroupsOrder(kids[..i]), if kids[i].Group? then SearchOrder(kids[i].children) else [],
                       hash, tk);
      i := i + 1;
    }
    assert kids[..i] == kids;
    var j := 0;
    while j < |kids|
      invariant 0 <= j <= |kids|
      invariant FirstMatch(DirectLeaves(kids[..j]), hash, tk).None?
    {
      if kids[j].Leaf? && MenuKey(kids[j].item, tk) == hash {
        FoundLeaf(kids, j, hash, tk);
        return Some(kids[j].item);
      }
      DirectLeavesStep(kids, j);
      FirstMatchAppend(DirectLeaves(kids[..j]), if kids[j].Leaf? then [kids[j].item] else [], hash, tk);
      j := j + 1;
    }
    assert kids[..j] == kids;
    FirstMatchAppend(GroupsOrder(kids), DirectLeaves(kids), hash, tk);
    return None;
  }

  // ---------------------------------------------------------------------------
  // Properties of the search

  /** The search order lists exactly the leaves below the children. */
  lemma {:induction false} SearchOrderExactly(kids: seq<Node>, t: TreeItem)
    ensures t in SearchOrder(kids) <==> Contains(kids, t)
    decreases kids, 1
  {
    GroupsOrderExactly(kids, t);
    DirectLeavesExactly(kids, t);
  }

  lemma {:induction false} GroupsOrderExactly(kids: seq<Node>, t: TreeItem)
    ensures t in GroupsOrder(kids)
            <==> exists i :: 0 <= i < |kids| && kids[i].Group? && Contains(kids[i].children, t)
    decreases kids, 0
  {
    if kids != [] {
      var init, last := kids[..|kids| - 1], kids[|kids| - 1];
      GroupsOrderExactly(init, t);
      if last.Group? {
        SearchOrderExactly(last.children, t);
      }
      if i :| 0 <= i < |kids| && kids[i].Group? && Contains(kids[i].children, t) {
        if i < |kids| - 1 {
          assert init[i] == kids[i];
        }
      }
      if j :| 0 <= j < |init| && init[j].Group? && Contains(init[j].children, t) {
        assert kids[j] == init[j];
      }
    }
  }

  lemma {:induction false} DirectLeavesExactly(kids: seq<Node>, t: TreeItem)
    ensures t in DirectLeaves(kids) <==> exists i :: 0 <= i < |kids| && kids[i] == Leaf(t)
    decreases kids
  {
    if kids != [] {
      var init, last := kids[..|kids| - 1], kids[|kids| - 1];
      DirectLeavesExactly(init, t);
      if i :| 0 <= i < |kids| && kids[i] == Leaf(t) {
        if i < |kids| - 1 {
          assert init[i] == kids[i];
        }
      }
      if j :| 0 <= j < |init| && init[j] == Leaf(t) {
        assert kids[j] == init[j];
      }
    }
  }

  /**
   * What findType promises: a leaf it returns lies in the tree and has the
   * key; it returns None exactly when no leaf in the tree has the key.
   */
  lemma FindTypeCorrect(node: Node, key: int, tk: Toolkit)
    requires node.Group?
    ensures var r := FirstMatch(SearchOrder(node.children), key, tk);
      && (r.Some? ==> Contains(node.children, r.value) && MenuKey(r.value, tk) == key)
      && (r.None? <==> forall t :: Contains(node.children, t) ==> MenuKey(t, tk) != key)
  {
    var r := FirstMatch(SearchOrder(node.children), key, tk);
    FirstMatchCorrect(SearchOrder(node.children), key, tk);
    if r.Some? {
      SearchOrderExactly(node.children, r.value);
    }
    forall t | Contains(node.children, t)
      ensures t in SearchOrder(node.children)
    {
      SearchOrderExactly(node.children, t);
    }
  }

  /** Every leaf of the tree is found under its own menu key (possibly as another leaf with the same key). */
  lemma EveryLeafResolves(node: Node, t: TreeItem, tk: Toolkit)
    requires node.Group? && Contains(node.children, t)
    ensures FirstMatch(SearchOrder(node.children), MenuKey(t, tk), tk).Some?
  {
    SearchOrderExactly(node.children, t);
    FirstMatchCorrect(SearchOrder(node.children), MenuKey(t, tk), tk);
  }

  /** When the leaves' keys are pairwise distinct, a leaf's key finds that very leaf. */
  lemma DistinctKeysResolveExactly(node: Node, t: TreeItem, tk: Toolkit)
    requires node.Group? && Contains(node.children, t)
    requires forall u, v :: Contains(node.children, u) && Contains(node.children, v) && u != v
                            ==> MenuKey(u, tk) != MenuKey(v, tk)
    ensures FirstMatch(SearchOrder(node.children), MenuKey(t, tk), tk) == Some(t)
  {
    var r := FirstMatch(SearchOrder(node.children), MenuKey(t, tk), tk);
    FirstMatchCorrect(SearchOrder(node.children), MenuKey(t, tk), tk);
    SearchOrderExactly(node.children, t);
    SearchOrderExactly(node.children, r.value);
  }

  /**
   * Sub-groups come first: when a leaf nested in a sub-group and a leaf of the
   * group itself share a key, the nested leaf is the one found, even though the
   * direct leaf comes first among the children.
   */
  lemma SubgroupsSearchedFirst(a: TreeItem, b: TreeItem, name: string, tk: Toolkit)
    ensures FirstMatch(SearchOrder([Leaf(b), Group(name, [Leaf(a)])]), MenuKey(a, tk), tk) == Some(a)
  {
    var kids := [Leaf(b), Group(name, [Leaf(a)])];
    assert kids[..1] == [Leaf(b)] && kids[..0] == [];
    assert [Leaf(a)][..0] == [];
    assert GroupsOrder([Leaf(a)]) == [];
    assert DirectLeaves([Leaf(a)]) == [a];
    assert SearchOrder([Leaf(a)]) == [a];
    assert GroupsOrder([Leaf(b)]) == [];
    assert GroupsOrder(kids) == [a];
  }

  // ---------------------------------------------------------------------------
  // The menu

  /** A pop-up menu entry: a sub-menu, or an item with its id and text. */
  datatype MenuEntry = SubMenu(text: string, entries: seq<MenuEntry>) | MenuItem(itemId: int, text: string)

  /** The menu of a group's children: a sub-menu per sub-group, then an item per leaf keyed by its hash. */
  function MenuOf(kids: seq<Node>, tk: Toolkit): seq<MenuEntry>
    decreases kids, 1
  {
    SubMenusOf(kids, tk) + ItemsOf(kids, tk)
  }

  function SubMenusOf(kids: seq<Node>, tk: Toolkit): seq<MenuEntry>
    decreases kids, 0
  {
    if kids == [] then []
    else
      var last := kids[|kids| - 1];
      SubMenusOf(kids[..|kids| - 1], tk)
      + (if last.Group? then [SubMenu(last.name, MenuOf(last.children, tk))] else [])
  }

  function ItemsOf(kids: seq<Node>, tk: Toolkit): seq<MenuEntry>
  {
    if kids == [] then []
    else
      var last := kids[|kids| - 1];
      ItemsOf(kids[..|kids| - 1], tk)
      + (if last.Leaf? then [MenuItem(MenuKey(last.item, tk), last.item.desc.name)] else [])
  }

  /** The item ids of a menu, sub-menus opened in place, in order. */
  function MenuIds(entries: seq<MenuEntry>): seq<int>
    decreases entries
  {
    if entries == [] then []
    else
      var last := entries[|entries| - 1];
      MenuIds(entries[..|entries| - 1])
      + (match last
         case SubMenu(_, sub) => MenuIds(sub)
         case MenuItem(id, _) => [id])
  }

  /** The keys of a run of leaves, in order. */
  function Keys(order: seq<TreeItem>, tk: Toolkit): (r: seq<int>)
    ensures |r| == |order|
    ensures forall i :: 0 <= i < |order| ==> r[i] == MenuKey(order[i], tk)
  {
    if order == [] then [] else Keys(order[..|order| - 1], tk) + [MenuKey(order[|order| - 1], tk)]
  }

  /** Builds the menu for a group: first a sub-menu per sub-group, then an item per leaf. */
  method BuildMenu(node: Node, tk: Toolkit) returns (entries: seq<MenuEntry>)
    requires node.Group?
    ensures entries == MenuOf(node.children, tk)
    decreases node
  {
    var kids := node.children;
    entries := [];
    var i := 0;
    while i < |kids|
      invariant 0 <= i <= |kids|
      invariant entries == SubMenusOf(kids[..i], tk)
    {
      assert kids[..i + 1][..i] == kids[..i];
      if kids[i].Group? {
        var sub := BuildMenu(kids[i], tk);
        entries := entries + [SubMenu(kids[i].name, sub)];
      }
      i := i + 1;
    }
    assert kids[..i] == kids;
    ghost var subMenus := entries;
    var j := 0;
    while j < |kids|
      invariant 0 <= j <= |kids|
      invariant entries == subMenus + ItemsOf(kids[..j], tk)
    {
      assert kids[..j + 1][..j] == kids[..j];
      if kids[j].Leaf? {
        entries := entries + [MenuItem(MenuKey(kids[j].item, tk), kids[j].item.desc.name)];
      }
      j := j + 1;
    }
    assert kids[..j] == kids;
  }

  lemma {:induction false} MenuIdsAppend(a: seq<MenuEntry>, b: seq<MenuEntry>)
    ensures MenuIds(a + b) == MenuIds(a) + MenuIds(b)
    decreases |b|
  {
    if b == [] {
      assert a + b == a;
    } else {
      var b' := b[..|b| - 1];
      assert (a + b)[..|a + b| - 1] == a + b';
      assert (a + b)[|a + b| - 1] == b[|b| - 1];
      MenuIdsAppend(a, b');
    }
  }

  lemma {:induction false} KeysAppend(a: seq<TreeItem>, b: seq<TreeItem>, tk: Toolkit)
    ensures Keys(a + b, tk) == Keys(a, tk) + Keys(b, tk)
  {
  }

  /** The menu offers exactly the keys the search visits, in the same order. */
  lemma {:induction false} MenuMatchesSearch(kids: seq<Node>, tk: Toolkit)
    ensures MenuIds(MenuOf(kids, tk)) == Keys(SearchOrder(kids), tk)
    decreases kids, 1
  {
    SubMenusMatchGroups(kids, tk);
    ItemsMatchLeaves(kids, tk);
    MenuIdsAppend(SubMenusOf(kids, tk), ItemsOf(kids, tk));
    KeysAppend(GroupsOrder(kids), DirectLeaves(kids), tk);
  }

  lemma {:induction false} SubMenusMatchGroups(kids: seq<Node>, tk: Toolkit)
    ensures MenuIds(SubMenusOf(kids, tk)) == Keys(GroupsOrder(kids), tk)
    decreases kids, 0
  {
    if kids != [] {
      var init, last := kids[..|kids| - 1], kids[|kids| - 1];
      SubMenusMatchGroups(init, tk);
      var tail := if last.Group? then [SubMenu(last.name, MenuOf(last.children, tk))] else [];
      MenuIdsAppend(SubMenusOf(init, tk), tail);
      KeysAppend(GroupsOrder(init), if last.Group? then SearchOrder(last.children) else [], tk);
      if last.Group? {
        MenuMatchesSearch(last.children, tk);
        assert tail[..0] == [];
        assert MenuIds(tail) == MenuIds(MenuOf(last.children, tk));
      }
    }
  }

  lemma {:induction false} ItemsMatchLeaves(kids: seq<Node>, tk: Toolkit)
    ensures MenuIds(ItemsOf(kids, tk)) == Keys(DirectLeaves(kids), tk)
    decreases kids
  {
    if kids != [] {
      var init, last := kids[..|kids| - 1], kids[|kids| - 1];
      ItemsMatchLeaves(init, tk);
      var tail := if last.Leaf? then [MenuItem(MenuKey(last.item, tk), last.item.desc.name)] else [];
      MenuIdsAppend(ItemsOf(init, tk), tail);
      KeysAppend(DirectLeaves(init), if last.Leaf? then [last.item] else [], tk);
      if last.Leaf? {
        assert tail[..0] == [];
      }
    }
  }

  /** Any id the menu of a group offers is resolved by findType to a leaf with that key. */
  lemma MenuIdsResolve(node: Node, id: int, tk: Toolkit)
    requires node.Group? && id in MenuIds(MenuOf(node.children, tk))
    ensures var r := FirstMatch(SearchOrder(node.children), id, tk);
      r.Some? && MenuKey(r.value, tk) == id && Contains(node.children, r.value)
  {
    MenuMatchesSearch(node.children, tk);
    var order := SearchOrder(node.children);
    var i :| 0 <= i < |Keys(order, tk)| && Keys(order, tk)[i] == id;
    assert MenuKey(order[i], tk) == id;
    SearchOrderExactly(node.children, order[i]);
    FindTypeCorrect(node, id, tk);
  }

  // ---------------------------------------------------------------------------
  // runMenu and showMenuAndCreatePlugin

  /** What runMenu returns for the menu's result `res`: nothing for 0 (the menu was dismissed), else findType's answer. */
  function MenuChoice(node: Node, res: int, tk: Toolkit): (r: Option<TreeItem>)
    requires node.Group?
    ensures res == 0 ==> r.None?
    ensures r.Some? ==> Contains(node.children, r.value) && MenuKey(r.value, tk) == res
    ensures res != 0 && (exists t :: Contains(node.children, t) && MenuKey(t, tk) == res) ==> r.Some?
  {
    FindTypeCorrect(node, res, tk);
    if res == 0 then None else FirstMatch(SearchOrder(node.children), res, tk)
  }

  /** Runs the menu whose (modal, user-driven) result is `res`. */
  method RunMenu(node: Node, res: int, tk: Toolkit) returns (r: Option<TreeItem>)
    requires node.Group?
    ensures r == MenuChoice(node, res, tk)
  {
    if res == 0 {
      return None;
    }
    r := FindType(node, res, tk);
  }

  /**
   * Builds the catalog for all plugins from the registry's tree (None when the
   * registry yields no tree), shows its menu (whose result is `res`) and
   * creates the chosen leaf's plugin with `create`, the engine's plugin cache.
   */
  method ShowMenuAndCreatePlugin<P>(rackNames: seq<string>, registry: Option<Folder>, res: int,
                                    create: (string, Description) -> Option<P>, tk: Toolkit)
    returns (plugin: Option<P>)
    ensures registry.None? ==> plugin.None?
    ensures registry.Some? ==>
              var choice := MenuChoice(Catalog(rackNames, registry.value, AllPlugins, tk), res, tk);
              plugin == if choice.Some? then create(choice.value.xmlType, choice.value.desc) else None
  {
    if registry.Some? {
      var root := BuildCatalog(rackNames, registry.value, AllPlugins, tk);
      var menu := BuildMenu(root, tk);
      var t := RunMenu(root, res, tk);
      if t.Some? {
        return create(t.value.xmlType, t.value.desc);
      }
    }
    return None;
  }

  /** A plugin is created only for a non-zero menu result that is the key of some leaf of the built catalog. */
  lemma CreatedOnlyForOfferedKeys(rackNames: seq<string>, tree: Folder, res: int, tk: Toolkit)
    ensures var choice := MenuChoice(Catalog(rackNames, tree, AllPlugins, tk), res, tk);
      choice.Some? ==> res != 0 && res in MenuIds(MenuOf(Catalog(rackNames, tree, AllPlugins, tk).children, tk))
  {
    var root := Catalog(rackNames, tree, AllPlugins, tk);
    var choice := MenuChoice(root, res, tk);
    if choice.Some? {
      MenuMatchesSearch(root.children, tk);
      SearchOrderExactly(root.children, choice.value);
      var order := SearchOrder(root.children);
      var i :| 0 <= i < |order| && order[i] == choice.value;
      assert Keys(order, tk)[i] == res;
    }
  }
}

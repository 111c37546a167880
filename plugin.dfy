/** The plugin entry point (`index.tsx`): which guilds and folders the active
    workspace lets the host's server list show, and the per-node decision of
    `wrapGuildNode`. The active id, the workspace list and the host's folders
    are read by the caller and passed in. */
module Plugin {
  import opened Js
  import opened Settings
  import opened Stores

  /** `!activeTabId || activeTabId === "all"`: the guild list is not filtered. */
  predicate ShowsEverything(activeTabId: string)
  {
    activeTabId == "" || activeTabId == AllTabs
  }

  /** What `getVisibleGuildIds` returns: `None` for no filtering, otherwise
      the active workspace's servers together with every guild of the host
      folders it selects. */
  function VisibleGuildSet(activeTabId: string, tabs: seq<CustomTab>, folders: seq<GuildFolder>): (r: Option<set<string>>)
    ensures r.None? <==> ShowsEverything(activeTabId) || FindTab(tabs, activeTabId).None?
  {
    if ShowsEverything(activeTabId) then None
    else match FindTab(tabs, activeTabId)
      case None => None
      case Some(tab) => Some((set g | g in tab.serverIds) + GuildsOf(SelectedFolders(folders, tab.folderIds)))
  }

  /** Under a workspace, a guild is visible exactly when the workspace lists
      it or selects a host folder (with a non-empty id) that holds it. */
  lemma VisibleGuildMembership(activeTabId: string, tabs: seq<CustomTab>, folders: seq<GuildFolder>, g: string)
    requires VisibleGuildSet(activeTabId, tabs, folders).Some?
    ensures var tab := FindTab(tabs, activeTabId).value;
      g in VisibleGuildSet(activeTabId, tabs, folders).value <==>
        g in tab.serverIds || exists f :: f in folders && FolderSelected(f, tab.folderIds) && g in f.guildIds
  {
    GuildsOfMembership(SelectedFolders(folders, FindTab(tabs, activeTabId).value.folderIds), g);
  }

  /** The loop of `getVisibleGuildIds` over the host folders: adds to
      `visible` every guild of every folder the workspace selects. */
  method AddFolderGuilds(visible: set<string>, folders: seq<GuildFolder>, folderIds: seq<string>)
    returns (r: set<string>)
    ensures r == visible + GuildsOf(SelectedFolders(folders, folderIds))
  {
    r := visible;
    ghost var selected: seq<GuildFolder> := [];
    for i := 0 to |folders|
      invariant selected == SelectedFolders(folders[..i], folderIds)
      invariant r == visible + GuildsOf(selected)
    {
      var folder := folders[i];
      SelectedFoldersStep(folders, i, folderIds);
      if folder.folderId.Some? && folder.folderId.value != "" && folder.folderId.value in folderIds {
        var next := AddAll(r, folder.guildIds);
        AddFolderStep(visible, selected, folder, r, next);
        selected := selected + [folder];
        r := next;
      }
    }
    assert folders[..|folders|] == folders;
  }

  /** One selected folder more: its guilds join the visible set. */
  lemma AddFolderStep(visible: set<string>, selected: seq<GuildFolder>, folder: GuildFolder, r: set<string>, next: set<string>)
    requires r == visible + GuildsOf(selected)
    requires next == r + (set g | g in folder.guildIds)
    ensures next == visible + GuildsOf(selected + [folder])
  {
    GuildsOfAppend(selected, folder);
  }

  /** `getVisibleGuildIds` */
  method GetVisibleGuildIds(activeTabId: string, tabs: seq<CustomTab>, folders: seq<GuildFolder>)
    returns (r: Option<set<string>>)
    ensures r == VisibleGuildSet(activeTabId, tabs, folders)
  {
    if ShowsEverything(activeTabId) {
      return None;
    }
    var found := FindTab(tabs, activeTabId);
    if found.None? {
      return None;
    }
    var tab := found.value;
    var visible := AddFolderGuilds((set g | g in tab.serverIds), folders, tab.folderIds);
    return Some(visible);
  }

  /** `getVisibleFolderIds`: `None` for no filtering, otherwise the active
      workspace's folder ids. */
  function VisibleFolderSet(activeTabId: string, tabs: seq<CustomTab>): (r: Option<set<string>>)
    ensures r.None? <==> ShowsEverything(activeTabId) || FindTab(tabs, activeTabId).None?
    ensures r.Some? ==> forall id :: id in r.value <==> id in FindTab(tabs, activeTabId).value.folderIds
  {
    if ShowsEverything(activeTabId) then None
    else match FindTab(tabs, activeTabId)
      case None => None
      case Some(tab) => Some(set id | id in tab.folderIds)
  }

  /** The two resolvers agree on whether anything is filtered. */
  lemma ResolversAgree(activeTabId: string, tabs: seq<CustomTab>, folders: seq<GuildFolder>)
    ensures VisibleFolderSet(activeTabId, tabs).None? <==> VisibleGuildSet(activeTabId, tabs, folders).None?
  {
  }

  /** A host folder without an id (null or empty) never adds a guild. */
  lemma UnnamedFolderAddsNothing(activeTabId: string, tabs: seq<CustomTab>, folders: seq<GuildFolder>, f: GuildFolder)
    requires f.folderId.None? || f.folderId.value == ""
    ensures VisibleGuildSet(activeTabId, tabs, folders + [f]) == VisibleGuildSet(activeTabId, tabs, folders)
  {
    if !ShowsEverything(activeTabId) && FindTab(tabs, activeTabId).Some? {
      var tab := FindTab(tabs, activeTabId).value;
      SelectedFoldersAppend(folders, f, tab.folderIds);
      assert !FolderSelected(f, tab.folderIds);
      assert SelectedFolders(folders + [f], tab.folderIds) == SelectedFolders(folders, tab.folderIds);
    }
  }

  /** The kinds of node the host's guild list renders. */
  datatype NodeType = GuildNode | FolderNode | OtherNode(kind: string)

  /** A node of the host's guild list; a folder's children are its guilds. */
  datatype ListNode = ListNode(nodeType: NodeType, id: string, children: seq<ListNode>)

  /** What `wrapGuildNode` returns: the node as the host renders it, or the
      same inside a `display: none` wrapper (hidden, still mounted). */
  datatype Wrapped = Original | HiddenWrapper

  function VisibleChild(visibleGuilds: set<string>): ListNode -> bool
  {
    (c: ListNode) => c.nodeType == GuildNode && c.id in visibleGuilds
  }

  /** The decision of `wrapGuildNode`, given both resolvers' results. */
  function WrapDecision(node: ListNode, visibleGuilds: Option<set<string>>, visibleFolders: Option<set<string>>): (w: Wrapped)
    ensures visibleGuilds.None? ==> w == Original
    ensures node.nodeType.OtherNode? ==> w == Original
    ensures visibleGuilds.Some? && node.nodeType == GuildNode ==> (w == HiddenWrapper <==> node.id !in visibleGuilds.value)
    ensures visibleGuilds.Some? && node.nodeType == FolderNode ==>
      (w == HiddenWrapper <==>
        && !(visibleFolders.Some? && node.id in visibleFolders.value)
        && forall c :: c in node.children && c.nodeType == GuildNode ==> c.id !in visibleGuilds.value)
  {
    if visibleGuilds.None? then Original
    else
      var visible := visibleGuilds.value;
      match node.nodeType
      case GuildNode => if node.id in visible then Original else HiddenWrapper
      case FolderNode =>
        var folderSelected := visibleFolders.Some? && node.id in visibleFolders.value;
        var visibleChildren := Filter(VisibleChild(visible), node.children);
        assert |visibleChildren| != 0 ==> visibleChildren[0] in visibleChildren;
        if !folderSelected && |visibleChildren| == 0 then HiddenWrapper else Original
      case OtherNode(_) => Original
  }

  /** `wrapGuildNode`: resolves the active workspace and decides whether the
      node is shown. */
  method WrapGuildNode(node: ListNode, activeTabId: string, tabs: seq<CustomTab>, folders: seq<GuildFolder>)
    returns (w: Wrapped)
    ensures w == WrapDecision(node, VisibleGuildSet(activeTabId, tabs, folders), VisibleFolderSet(activeTabId, tabs))
  {
    var visibleGuildIds := GetVisibleGuildIds(activeTabId, tabs, folders);
    var visibleFolderIds := VisibleFolderSet(activeTabId, tabs);
    w := WrapDecision(node, visibleGuildIds, visibleFolderIds);
  }

  /** With the "all" view, an empty active id or an unknown workspace, every
      node is shown. */
  lemma UnfilteredShowsAll(node: ListNode, activeTabId: string, tabs: seq<CustomTab>, folders: seq<GuildFolder>)
    requires ShowsEverything(activeTabId) || FindTab(tabs, activeTabId).None?
    ensures WrapDecision(node, VisibleGuildSet(activeTabId, tabs, folders), VisibleFolderSet(activeTabId, tabs)) == Original
  {
  }

  /** Under a workspace, a guild is hidden exactly when the workspace neither
      lists it nor selects a host folder holding it. */
  lemma GuildHiddenIff(id: string, activeTabId: string, tabs: seq<CustomTab>, folders: seq<GuildFolder>)
    requires !ShowsEverything(activeTabId) && FindTab(tabs, activeTabId).Some?
    ensures var tab := FindTab(tabs, activeTabId).value;
      WrapDecision(ListNode(GuildNode, id, []), VisibleGuildSet(activeTabId, tabs, folders), VisibleFolderSet(activeTabId, tabs)) == HiddenWrapper
      <==> id !in tab.serverIds && forall f :: f in folders && FolderSelected(f, tab.folderIds) ==> id !in f.guildIds
  {
    VisibleGuildMembership(activeTabId, tabs, folders, id);
  }

  /** Under a workspace, a folder node is hidden exactly when the workspace
      does not select it and none of its guild children is visible; other
      children never count. */
  lemma FolderHiddenIff(node: ListNode, activeTabId: string, tabs: seq<CustomTab>, folders: seq<GuildFolder>)
    requires node.nodeType == FolderNode
    requires !ShowsEverything(activeTabId) && FindTab(tabs, activeTabId).Some?
    ensures var tab := FindTab(tabs, activeTabId).value;
      var visible := VisibleGuildSet(activeTabId, tabs, folders).value;
      WrapDecision(node, VisibleGuildSet(activeTabId, tabs, folders), VisibleFolderSet(activeTabId, tabs)) == HiddenWrapper
      <==> node.id !in tab.folderIds && forall c :: c in node.children && c.nodeType == GuildNode ==> c.id !in visible
  {
  }

  /** For a workspace, the two parts `getFilteredGuilds` returns with no
      search (its standalone guilds and its selected folders) together hold
      exactly the guilds `getVisibleGuildIds` collects. */
  lemma ListingMatchesVisibility(activeTabId: string, tabs: seq<CustomTab>, folders: seq<GuildFolder>)
    requires !ShowsEverything(activeTabId) && FindTab(tabs, activeTabId).Some?
    ensures var tab := FindTab(tabs, activeTabId).value;
      var listed := SelectedFolders(folders, tab.folderIds);
      var standalone := Filter(NotIn(GuildsOf(listed)), tab.serverIds);
      (set g | g in standalone) + GuildsOf(listed) == VisibleGuildSet(activeTabId, tabs, folders).value
  {
  }
}

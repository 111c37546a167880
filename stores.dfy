/** The plugin's store layer (`stores.ts`): the open/closed panel flag with
    its listeners, unread aggregation for one guild, and the guild/folder
    listing of a workspace. The host's stores (folders, guilds, read states,
    channels) are passed in as values. */
module Stores {
  import opened Js
  import opened Settings

  /** A host folder: an optional id (`null` for the loose-guild entries), and
      the guilds it holds, in host order. */
  datatype GuildFolder = GuildFolder(folderId: Option<string>, folderName: Option<string>, folderColor: Option<int>, guildIds: seq<string>)

  /** A host guild, as far as the listing uses it. */
  datatype Guild = Guild(id: string, name: string)

  /** `folder.folderId && folderIds.includes(folder.folderId)`: a folder with a
      non-empty id that the workspace lists. */
  predicate FolderSelected(folder: GuildFolder, folderIds: seq<string>)
    ensures folder.folderId.None? || folder.folderId == Some("") ==> !FolderSelected(folder, folderIds)
    ensures folder.folderId.Some? && folder.folderId.value != "" ==>
      (FolderSelected(folder, folderIds) <==> folder.folderId.value in folderIds)
  {
    folder.folderId.Some? && folder.folderId.value != "" && folder.folderId.value in folderIds
  }

  function SelectedBy(folderIds: seq<string>): GuildFolder -> bool
  {
    (f: GuildFolder) => FolderSelected(f, folderIds)
  }

  /** The host folders a workspace selects, in host order. */
  function SelectedFolders(folders: seq<GuildFolder>, folderIds: seq<string>): (r: seq<GuildFolder>)
    ensures forall f :: f in r <==> f in folders && FolderSelected(f, folderIds)
    ensures Subsequence(r, folders)
  {
    FilterSubsequence(SelectedBy(folderIds), folders);
    Filter(SelectedBy(folderIds), folders)
  }

  /** Selecting from `folders + [f]` selects from `folders`, then keeps or
      drops `f`. */
  lemma SelectedFoldersAppend(folders: seq<GuildFolder>, f: GuildFolder, folderIds: seq<string>)
    ensures SelectedFolders(folders + [f], folderIds)
         == SelectedFolders(folders, folderIds) + (if FolderSelected(f, folderIds) then [f] else [])
  {
    FilterAppend(SelectedBy(folderIds), folders, f);
  }

  /** The folders selected from the first `i + 1` host folders. */
  lemma SelectedFoldersStep(folders: seq<GuildFolder>, i: nat, folderIds: seq<string>)
    requires i < |folders|
    ensures SelectedFolders(folders[..i + 1], folderIds)
         == SelectedFolders(folders[..i], folderIds) + (if FolderSelected(folders[i], folderIds) then [folders[i]] else [])
  {
    assert folders[..i + 1] == folders[..i] + [folders[i]];
    SelectedFoldersAppend(folders[..i], folders[i], folderIds);
  }

  /** Every guild id held by some folder of `folders`: the `Set` that
      `folder.guildIds.forEach(id => set.add(id))` fills. */
  function GuildsOf(folders: seq<GuildFolder>): set<string>
  {
    if folders == [] then {} else (set g | g in folders[0].guildIds) + GuildsOf(folders[1..])
  }

  /** A guild is in `GuildsOf(folders)` exactly when some folder holds it. */
  lemma {:induction false} GuildsOfMembership(folders: seq<GuildFolder>, g: string)
    ensures g in GuildsOf(folders) <==> exists f :: f in folders && g in f.guildIds
  {
    if folders != [] {
      GuildsOfMembership(folders[1..], g);
      assert forall f :: f in folders <==> f == folders[0] || f in folders[1..] by {
        assert folders == [folders[0]] + folders[1..];
      }
    }
  }

  /** The guilds of `folders + [f]` are those of `folders` and those of `f`. */
  lemma {:induction false} GuildsOfAppend(folders: seq<GuildFolder>, f: GuildFolder)
    ensures GuildsOf(folders + [f]) == GuildsOf(folders) + (set g | g in f.guildIds)
  {
    if folders == [] {
      assert folders + [f] == [f];
    } else {
      assert (folders + [f])[1..] == folders[1..] + [f];
      GuildsOfAppend(folders[1..], f);
    }
  }

  // ---------------------------------------------------------------- panel

  /** A subscribed callback, by identity. */
  datatype Listener = Listener(handle: nat)

  /** The function `subscribe` returns; calling it unsubscribes `listener`. */
  datatype Subscription = Subscription(listener: Listener)

  /** `panelStore` with `panelListeners`: the open flag lives in the settings
      store; the listeners form a `Set` in insertion order. Calls to the
      listeners are recorded in `notified`, in call order. */
  class PanelStore {
    const settings: Store
    var listeners: seq<Listener>
    var notified: seq<Listener>

    ghost predicate Valid()
      reads this
    {
      Distinct(listeners)
    }

    constructor (settings: Store)
      ensures this.settings == settings && listeners == [] && notified == [] && Valid()
    {
      this.settings := settings;
      listeners := [];
      notified := [];
    }

    /** `getOpen` */
    function GetOpen(): (open: bool)
      reads settings
      ensures open == settings.panelOpen
    {
      settings.panelOpen
    }

    /** `panelListeners.forEach(l => l())` */
    method NotifyAll()
      requires Valid()
      modifies this`notified
      ensures notified == old(notified) + listeners
    {
      for i := 0 to |listeners|
        invariant notified == old(notified) + listeners[..i]
      {
        notified := notified + [listeners[i]];
      }
    }

    /** `toggle`: flips the flag and calls every listener. */
    method Toggle()
      requires Valid()
      modifies settings`panelOpen, this`notified
      ensures Valid()
      ensures settings.panelOpen == !old(settings.panelOpen)
      ensures notified == old(notified) + listeners
    {
      settings.panelOpen := !settings.panelOpen;
      NotifyAll();
    }

    /** `setOpen`: sets the flag and calls every listener. */
    method SetOpen(open: bool)
      requires Valid()
      modifies settings`panelOpen, this`notified
      ensures Valid()
      ensures settings.panelOpen == open
      ensures notified == old(notified) + listeners
    {
      settings.panelOpen := open;
      NotifyAll();
    }

    /** `subscribe`: adds the listener (once) and returns its unsubscriber. */
    method Subscribe(listener: Listener) returns (subscription: Subscription)
      requires Valid()
      modifies this`listeners
      ensures Valid()
      ensures listeners == if listener in old(listeners) then old(listeners) else old(listeners) + [listener]
      ensures subscription.listener == listener
    {
      if listener !in listeners {
        listeners := listeners + [listener];
      }
      subscription := Subscription(listener);
    }

    /** Calling the function `subscribe` returned: removes exactly that
        listener, which no later `toggle` or `setOpen` calls. */
    method Unsubscribe(subscription: Subscription)
      requires Valid()
      modifies this`listeners
      ensures Valid()
      ensures listeners == Filter(l => l != subscription.listener, old(listeners))
      ensures subscription.listener !in listeners
      ensures forall l :: l != subscription.listener ==> (l in listeners <==> l in old(listeners))
    {
      FilterMultiset(l => l != subscription.listener, listeners);
      listeners := Filter(l => l != subscription.listener, listeners);
    }
  }

  // --------------------------------------------------------------- unread

  datatype GuildUnreadInfo = GuildUnreadInfo(unreadCount: nat, mentionCount: nat, hasUnread: bool)

  /** The number of channels with unread messages. */
  function CountUnread(channels: seq<string>, hasUnread: string -> bool): (r: nat)
    ensures r <= |channels|
    ensures r == 0 <==> forall c :: c in channels ==> !hasUnread(c)
  {
    if channels == [] then 0
    else
      var last := channels[|channels| - 1];
      assert channels == channels[..|channels| - 1] + [last];
      CountUnread(channels[..|channels| - 1], hasUnread) + (if hasUnread(last) then 1 else 0)
  }

  /** The total mention count over the channels. */
  function SumMentions(channels: seq<string>, mentionCount: string -> nat): (r: nat)
    ensures r == 0 <==> forall c :: c in channels ==> mentionCount(c) == 0
  {
    if channels == [] then 0
    else
      var last := channels[|channels| - 1];
      assert channels == channels[..|channels| - 1] + [last];
      SumMentions(channels[..|channels| - 1], mentionCount) + mentionCount(last)
  }

  /** Some channel is unread or mentioned exactly when one of the two
      totals is positive. */
  lemma AnyUnread(channels: seq<string>, hasUnread: string -> bool, mentionCount: string -> nat)
    ensures CountUnread(channels, hasUnread) > 0 || SumMentions(channels, mentionCount) > 0
        <==> exists c :: c in channels && (hasUnread(c) || mentionCount(c) > 0)
  {
    if CountUnread(channels, hasUnread) > 0 {
      var c :| c in channels && hasUnread(c);
    } else if SumMentions(channels, mentionCount) > 0 {
      var c :| c in channels && mentionCount(c) != 0;
    }
  }

  /** One channel more adds its unread flag and its mentions to the totals. */
  lemma UnreadStep(channels: seq<string>, i: nat, hasUnread: string -> bool, mentionCount: string -> nat)
    requires i < |channels|
    ensures CountUnread(channels[..i + 1], hasUnread) == CountUnread(channels[..i], hasUnread) + (if hasUnread(channels[i]) then 1 else 0)
    ensures SumMentions(channels[..i + 1], mentionCount) == SumMentions(channels[..i], mentionCount) + mentionCount(channels[i])
  {
    assert channels[..i + 1][..i] == channels[..i];
  }

  /** The loop of `getGuildUnreadInfo` over the selectable channels. */
  method CountChannels(channels: seq<string>, hasUnread: string -> bool, mentionCount: string -> nat)
    returns (unread: nat, mentions: nat)
    ensures unread == CountUnread(channels, hasUnread)
    ensures mentions == SumMentions(channels, mentionCount)
  {
    unread := 0;
    mentions := 0;
    for i := 0 to |channels|
      invariant unread == CountUnread(channels[..i], hasUnread)
      invariant mentions == SumMentions(channels[..i], mentionCount)
    {
      UnreadStep(channels, i, hasUnread, mentionCount);
      if hasUnread(channels[i]) {
        unread := unread + 1;
      }
      mentions := mentions + mentionCount(channels[i]);
    }
    assert channels[..|channels|] == channels;
  }

  /** `getGuildUnreadInfo`: `selectable` is the guild's `SELECTABLE` channel
      list (absent when the host has none), `hasUnread` and `mentionCount`
      the read-state queries. */
  method GetGuildUnreadInfo(selectable: Option<seq<string>>, hasUnread: string -> bool, mentionCount: string -> nat)
    returns (info: GuildUnreadInfo)
    ensures var channels := if selectable.Some? then selectable.value else [];
      && info.unreadCount == CountUnread(channels, hasUnread)
      && info.mentionCount == SumMentions(channels, mentionCount)
      && info.unreadCount <= |channels|
      && (info.hasUnread <==> info.unreadCount > 0 || info.mentionCount > 0)
      && (info.hasUnread <==> exists c :: c in channels && (hasUnread(c) || mentionCount(c) > 0))
    ensures selectable.None? || selectable.value == [] ==> info == GuildUnreadInfo(0, 0, false)
  {
    var channels := if selectable.Some? then selectable.value else [];
    var unread, mentions := CountChannels(channels, hasUnread, mentionCount);
    AnyUnread(channels, hasUnread, mentionCount);
    info := GuildUnreadInfo(unread, mentions, unread > 0 || mentions > 0);
  }

  // ------------------------------------------------------- filtered guilds

  /** What `getFilteredGuilds` returns: standalone guild ids and folders. */
  datatype FilteredGuilds = FilteredGuilds(guilds: seq<string>, folders: seq<GuildFolder>)

  /** `searchQuery.trim()` is empty. */
  predicate IsBlank(query: string)
    ensures IsBlank(query) <==> forall i :: 0 <= i < |query| ==> IsWhitespace(query[i])
  {
    Trim(query) == ""
  }

  function NameMatches(query: string): Guild -> bool
  {
    (g: Guild) => Contains(ToLower(g.name), ToLower(query))
  }

  function GuildId(g: Guild): string
  {
    g.id
  }

  /** The ids of a guild list name exactly the guilds in it. */
  lemma {:induction false} IdsMembership(guilds: seq<Guild>)
    ensures forall id :: id in Map(GuildId, guilds) <==> exists g :: g in guilds && g.id == id
  {
    var ids := Map(GuildId, guilds);
    forall id | id in ids ensures exists g :: g in guilds && g.id == id {
      var i :| 0 <= i < |ids| && ids[i] == id;
      assert guilds[i] in guilds;
    }
    forall g | g in guilds ensures g.id in ids {
      var i :| 0 <= i < |guilds| && guilds[i] == g;
      assert ids[i] == g.id;
    }
  }

  /** The ids of the guilds whose lower-cased name contains the lower-cased
      query, one per matching guild, in host order. */
  function SearchGuilds(guilds: seq<Guild>, query: string): (r: seq<string>)
    ensures |r| <= |guilds|
    ensures |r| == |Filter(NameMatches(query), guilds)|
    ensures forall i :: 0 <= i < |r| ==> r[i] == Filter(NameMatches(query), guilds)[i].id
    ensures forall id :: id in r <==> exists g :: g in guilds && g.id == id && Contains(ToLower(g.name), ToLower(query))
  {
    var matching := Filter(NameMatches(query), guilds);
    IdsMembership(matching);
    Map(GuildId, matching)
  }

  /** A guild whose name equals the query up to ASCII case is found. */
  lemma SearchFindsSameName(guilds: seq<Guild>, g: Guild, query: string)
    requires g in guilds && ToLower(g.name) == ToLower(query)
    ensures g.id in SearchGuilds(guilds, query)
  {
    ContainsItself(ToLower(query));
  }

  /** The search lower-cases the query itself, so a query typed in lower
      case finds the same guilds. */
  lemma SearchLowerCasedQuery(guilds: seq<Guild>, query: string)
    ensures SearchGuilds(guilds, ToLower(query)) == SearchGuilds(guilds, query)
  {
    ToLowerIdempotent(query);
    assert NameMatches(ToLower(query)) == NameMatches(query);
  }

  function NotIn(ids: set<string>): string -> bool
  {
    (id: string) => id !in ids
  }

  /** `ids.forEach(id => set.add(id))` */
  method AddAll(acc: set<string>, ids: seq<string>) returns (r: set<string>)
    ensures r == acc + (set g | g in ids)
  {
    r := acc;
    for j := 0 to |ids|
      invariant r == acc + (set g | g in ids[..j])
    {
      assert ids[..j + 1] == ids[..j] + [ids[j]];
      r := r + {ids[j]};
    }
    assert ids[..|ids|] == ids;
  }

  /** The loop of `getFilteredGuilds` over the host folders: collects the
      folders the workspace selects, in host order, and every guild they
      hold. */
  method CollectSelectedFolders(allFolders: seq<GuildFolder>, folderIds: seq<string>)
    returns (tabFolders: seq<GuildFolder>, guildIdsFromFolders: set<string>)
    ensures tabFolders == SelectedFolders(allFolders, folderIds)
    ensures guildIdsFromFolders == GuildsOf(tabFolders)
  {
    guildIdsFromFolders := {};
    tabFolders := [];
    for i := 0 to |allFolders|
      invariant tabFolders == SelectedFolders(allFolders[..i], folderIds)
      invariant guildIdsFromFolders == GuildsOf(tabFolders)
    {
      var folder := allFolders[i];
      SelectedFoldersStep(allFolders, i, folderIds);
      if folder.folderId.Some? && folder.folderId.value != "" && folder.folderId.value in folderIds {
        GuildsOfAppend(tabFolders, folder);
        tabFolders := tabFolders + [folder];
        guildIdsFromFolders := AddAll(guildIdsFromFolders, folder.guildIds);
      }
    }
    assert allFolders[..|allFolders|] == allFolders;
  }

  /** `getFilteredGuilds`: a non-blank query searches every guild by name; the
      "all" view and an unknown tab give the host folders unchanged; a
      workspace gives its selected folders and its other servers. */
  method GetFilteredGuilds(activeTab: string, searchQuery: string, allFolders: seq<GuildFolder>,
                           allGuilds: seq<Guild>, customTabs: seq<CustomTab>)
    returns (r: FilteredGuilds)
    ensures !IsBlank(searchQuery) ==> r == FilteredGuilds(SearchGuilds(allGuilds, searchQuery), [])
    ensures IsBlank(searchQuery) && (activeTab == AllTabs || FindTab(customTabs, activeTab).None?)
      ==> r == FilteredGuilds([], allFolders)
    ensures IsBlank(searchQuery) && activeTab != AllTabs && FindTab(customTabs, activeTab).Some?
      ==> var tab := FindTab(customTabs, activeTab).value;
          && r.folders == SelectedFolders(allFolders, tab.folderIds)
          && r.guilds == Filter(NotIn(GuildsOf(r.folders)), tab.serverIds)
  {
    if !IsBlank(searchQuery) {
      return FilteredGuilds(SearchGuilds(allGuilds, searchQuery), []);
    }
    if activeTab == AllTabs {
      return FilteredGuilds([], allFolders);
    }
    var found := FindTab(customTabs, activeTab);
    if found.None? {
      return FilteredGuilds([], allFolders);
    }
    var tab := found.value;
    var tabFolders, guildIdsFromFolders := CollectSelectedFolders(allFolders, tab.folderIds);
    var standaloneGuilds := Filter(NotIn(guildIdsFromFolders), tab.serverIds);
    return FilteredGuilds(standaloneGuilds, tabFolders);
  }

  /** A workspace's standalone guilds are its own servers, in order, that no
      returned folder holds: the two parts of the listing never overlap. */
  lemma StandaloneAvoidsFolders(tab: CustomTab, allFolders: seq<GuildFolder>, g: string)
    ensures var folders := SelectedFolders(allFolders, tab.folderIds);
      var standalone := Filter(NotIn(GuildsOf(folders)), tab.serverIds);
      && Subsequence(standalone, tab.serverIds)
      && (g in standalone <==> g in tab.serverIds && forall f :: f in folders ==> g !in f.guildIds)
  {
    var folders := SelectedFolders(allFolders, tab.folderIds);
    FilterSubsequence(NotIn(GuildsOf(folders)), tab.serverIds);
    GuildsOfMembership(folders, g);
  }
}

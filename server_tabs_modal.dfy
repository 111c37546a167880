/** The workspace editor (`components/ServerTabsModal.tsx`): the modal's
    state (the workspace list, the selected workspace and the name being
    edited) and its event handlers, which persist every list change through
    the settings store. The list transformations the handlers apply are pure
    functions; the rendering is not modelled. */
module ServerTabsModal {
  import opened Js
  import opened Settings

  /** `createTab` does nothing once this many workspaces exist. */
  const MaxTabs: nat := 10

  const IconCdn: string := "https://cdn.discordapp.com/icons/"

  const DefaultIconSize: nat := 40

  /** Animated icons (hash prefixed by `a_`) are served as GIF, others as WebP. */
  function IconFormat(icon: string): string
  {
    if StartsWith(icon, "a_") then "gif" else "webp"
  }

  /** `getGuildIconUrl`: the CDN address of a guild's icon at `size` pixels,
      or `null` when the guild has no icon. */
  function GuildIconUrl(guildId: string, icon: Option<string>, size: nat := DefaultIconSize): (url: Option<string>)
    ensures url.None? <==> icon.None? || icon.value == ""
    ensures url.Some? ==> StartsWith(url.value, IconCdn + guildId + "/" + icon.value + ".")
    ensures url.Some? ==> EndsWith(url.value, SizeQuery(size))
    ensures url.Some? ==> (EndsWith(url.value, ".gif" + SizeQuery(size)) <==> StartsWith(icon.value, "a_"))
    ensures url.Some? ==> (EndsWith(url.value, ".webp" + SizeQuery(size)) <==> !StartsWith(icon.value, "a_"))
    ensures url.Some? ==>
      |url.value| == |IconCdn + guildId + "/" + icon.value| + 1 + |IconFormat(icon.value)| + |SizeQuery(size)|
  {
    if icon.None? || icon.value == "" then None
    else
      var stem := IconCdn + guildId + "/" + icon.value;
      IconUrlShape(stem, IconFormat(icon.value), SizeQuery(size));
      Some(stem + "." + IconFormat(icon.value) + SizeQuery(size))
  }

  /** `?size=${size}` */
  function SizeQuery(size: nat): string
  {
    "?size=" + NumberToString(size)
  }

  /** The parts of an icon address can be read off its two ends; the two
      formats give different endings, and nothing else sits between the stem
      and the query. */
  lemma IconUrlShape(stem: string, format: string, query: string)
    requires format == "gif" || format == "webp"
    ensures StartsWith(stem + "." + format + query, stem + ".")
    ensures EndsWith(stem + "." + format + query, query)
    ensures EndsWith(stem + "." + format + query, ".gif" + query) <==> format == "gif"
    ensures EndsWith(stem + "." + format + query, ".webp" + query) <==> format == "webp"
    ensures |stem + "." + format + query| == |stem| + 1 + |format| + |query|
  {
    var url := stem + "." + format + query;
    assert url == (stem + ".") + (format + query);
    assert url[..|stem| + 1] == stem + ".";
    assert url == (stem + "." + format) + query;
    assert url[|url| - |query|..] == query;
    if format == "gif" {
      assert url == stem + (".gif" + query);
      assert url[|url| - |".gif" + query|..] == ".gif" + query;
      assert url[|url| - |query| - 1] == 'f';
      assert (".webp" + query)[4] == 'p';
    } else {
      assert url == stem + (".webp" + query);
      assert url[|url| - |".webp" + query|..] == ".webp" + query;
      assert url[|url| - |query| - 1] == 'p';
      assert (".gif" + query)[3] == 'f';
    }
  }

  /** Without an explicit size the icon is requested at 40 pixels. */
  lemma DefaultIconIs40(guildId: string, icon: string)
    requires icon != ""
    ensures GuildIconUrl(guildId, Some(icon)).Some?
    ensures EndsWith(GuildIconUrl(guildId, Some(icon)).value, "?size=40")
  {
    assert SizeQuery(40) == "?size=40" by {
      assert NumberToString(40) == "40";
    }
  }

  /** The name `createTab` gives the `position`-th workspace: `Tab ${position}`. */
  function TabName(position: nat): string
  {
    "Tab " + NumberToString(position)
  }

  /** A default name records the workspace's 1-based position. */
  lemma TabNameReadsBack(position: nat)
    ensures StartsWith(TabName(position), "Tab ")
    ensures ParseDecimal(TabName(position)[4..]) == position
  {
    assert TabName(position)[4..] == NumberToString(position);
    ParseNumberToString(position);
  }

  /** `selectedTabId ? tabs.find(t => t.id === selectedTabId) : null`; an
      empty id counts as no selection. */
  function SelectedTab(tabs: seq<CustomTab>, selectedTabId: Option<string>): (r: Option<CustomTab>)
    ensures selectedTabId.None? || selectedTabId.value == "" ==> r.None?
    ensures selectedTabId.Some? && selectedTabId.value != "" ==> r == FindTab(tabs, selectedTabId.value)
    ensures r.Some? ==> r.value in tabs && selectedTabId == Some(r.value.id)
  {
    if selectedTabId.Some? && selectedTabId.value != "" then FindTab(tabs, selectedTabId.value) else None
  }

  function HasOtherId(id: string): CustomTab -> bool
  {
    (t: CustomTab) => t.id != id
  }

  /** `tabs.filter(t => t.id !== id)`: every workspace with that id is gone,
      every other one stays, in order. */
  function RemoveTab(tabs: seq<CustomTab>, id: string): (r: seq<CustomTab>)
    ensures forall t :: t in r <==> t in tabs && t.id != id
    ensures forall t :: multiset(r)[t] == if t.id == id then 0 else multiset(tabs)[t]
    ensures Subsequence(r, tabs)
    ensures FindTab(r, id).None?
  {
    FilterMultiset(HasOtherId(id), tabs);
    FilterSubsequence(HasOtherId(id), tabs);
    Filter(HasOtherId(id), tabs)
  }

  /** The list `saveEdit` saves: the workspaces with id `id` get the new
      name; ids, servers, folders and every other workspace are kept. */
  function RenameTab(tabs: seq<CustomTab>, id: string, name: string): (r: seq<CustomTab>)
    ensures |r| == |tabs|
    ensures forall i :: 0 <= i < |tabs| ==>
      && r[i].id == tabs[i].id
      && r[i].serverIds == tabs[i].serverIds
      && r[i].folderIds == tabs[i].folderIds
      && r[i].name == (if tabs[i].id == id then name else tabs[i].name)
  {
    Map((t: CustomTab) => if t.id == id then t.(name := name) else t, tabs)
  }

  /** The `serverIds` `toggleServer` computes: without `g` if it was there
      (every occurrence removed), with `g` appended otherwise. */
  function ToggleId(ids: seq<string>, g: string): (r: seq<string>)
    ensures g in r <==> g !in ids
    ensures forall x :: x != g ==> (x in r <==> x in ids)
    ensures g !in ids ==> r == ids + [g]
    ensures g in ids ==> Subsequence(r, ids) && forall x :: multiset(r)[x] == if x == g then 0 else multiset(ids)[x]
  {
    if g in ids then
      FilterMultiset((x: string) => x != g, ids);
      FilterSubsequence((x: string) => x != g, ids);
      Filter((x: string) => x != g, ids)
    else ids + [g]
  }

  /** `tabs.map(t => t.id === updated.id ? updated : t)` */
  function ReplaceTab(tabs: seq<CustomTab>, updated: CustomTab): (r: seq<CustomTab>)
    ensures |r| == |tabs|
    ensures forall i :: 0 <= i < |tabs| ==> r[i] == if tabs[i].id == updated.id then updated else tabs[i]
  {
    Map((t: CustomTab) => if t.id == updated.id then updated else t, tabs)
  }

  /** Replacing a workspace makes it the one found under its id. */
  lemma {:induction false} FindAfterReplace(tabs: seq<CustomTab>, updated: CustomTab)
    requires FindTab(tabs, updated.id).Some?
    ensures FindTab(ReplaceTab(tabs, updated), updated.id) == Some(updated)
  {
    var r := ReplaceTab(tabs, updated);
    if tabs[0].id != updated.id {
      assert r[1..] == ReplaceTab(tabs[1..], updated);
      FindAfterReplace(tabs[1..], updated);
    }
  }

  /** The list `toggleServer(g)` saves: the selected workspace with `g`
      toggled in its servers, copied over every workspace with its id; no
      change without a selection. */
  function ToggledTabs(tabs: seq<CustomTab>, selectedTabId: Option<string>, g: string): (r: seq<CustomTab>)
    ensures SelectedTab(tabs, selectedTabId).None? ==> r == tabs
    ensures |r| == |tabs|
    ensures forall i :: 0 <= i < |tabs| ==> r[i].id == tabs[i].id
    ensures SelectedTab(tabs, selectedTabId).Some? ==>
      var t := SelectedTab(tabs, selectedTabId).value;
      forall i :: 0 <= i < |tabs| ==>
        r[i] == if tabs[i].id == t.id then t.(serverIds := ToggleId(t.serverIds, g)) else tabs[i]
  {
    match SelectedTab(tabs, selectedTabId)
    case None => tabs
    case Some(t) => ReplaceTab(tabs, t.(serverIds := ToggleId(t.serverIds, g)))
  }

  /** `isServerSelected`: the selected workspace lists the guild. */
  predicate ServerSelected(tabs: seq<CustomTab>, selectedTabId: Option<string>, g: string)
    ensures selectedTabId.None? || selectedTabId.value == "" ==> !ServerSelected(tabs, selectedTabId, g)
    ensures ServerSelected(tabs, selectedTabId, g) ==>
      exists t :: t in tabs && selectedTabId == Some(t.id) && g in t.serverIds
    ensures selectedTabId.Some? && selectedTabId.value != "" && FindTab(tabs, selectedTabId.value).Some? ==>
      (ServerSelected(tabs, selectedTabId, g) <==> g in FindTab(tabs, selectedTabId.value).value.serverIds)
  {
    SelectedTab(tabs, selectedTabId).Some? && g in SelectedTab(tabs, selectedTabId).value.serverIds
  }

  /** One toggle flips whether `g` is selected and leaves every other guild
      as it was; the selection itself survives. */
  lemma ToggleFlipsOnlyThatGuild(tabs: seq<CustomTab>, selectedTabId: Option<string>, g: string, x: string)
    ensures SelectedTab(ToggledTabs(tabs, selectedTabId, g), selectedTabId).Some?
        == SelectedTab(tabs, selectedTabId).Some?
    ensures SelectedTab(tabs, selectedTabId).Some? ==>
      ServerSelected(ToggledTabs(tabs, selectedTabId, g), selectedTabId, x)
        == if x == g then !ServerSelected(tabs, selectedTabId, x) else ServerSelected(tabs, selectedTabId, x)
  {
    var sel := SelectedTab(tabs, selectedTabId);
    if sel.Some? {
      var t := sel.value;
      FindAfterReplace(tabs, t.(serverIds := ToggleId(t.serverIds, g)));
    }
  }

  /** Toggling the same guild twice restores what `isServerSelected` says
      of every guild. */
  lemma ToggleTwiceRestores(tabs: seq<CustomTab>, selectedTabId: Option<string>, g: string, x: string)
    ensures ServerSelected(ToggledTabs(ToggledTabs(tabs, selectedTabId, g), selectedTabId, g), selectedTabId, x)
         == ServerSelected(tabs, selectedTabId, x)
  {
    ToggleFlipsOnlyThatGuild(tabs, selectedTabId, g, x);
    ToggleFlipsOnlyThatGuild(ToggledTabs(tabs, selectedTabId, g), selectedTabId, g, x);
  }

  /** `ServerTabsModalContent`'s state: the workspace list it edits, the
      selected workspace's id, and the text in the name field. */
  class Editor {
    const settings: Store
    var tabs: seq<CustomTab>
    var selectedTabId: Option<string>
    var editName: string

    /** Opening the modal: the list as stored, nothing selected. */
    constructor (settings: Store)
      ensures this.settings == settings
      ensures tabs == settings.CustomTabs() && selectedTabId == None && editName == ""
    {
      this.settings := settings;
      tabs := settings.CustomTabs();
      selectedTabId := None;
      editName := "";
    }

    /** `selectedTab` */
    function Selected(): (r: Option<CustomTab>)
      reads this
      ensures r.Some? ==> r.value in tabs && selectedTabId == Some(r.value.id)
      ensures selectedTabId.None? || selectedTabId.value == "" ==> r.None?
      ensures selectedTabId.Some? && selectedTabId.value != "" ==> r == FindTab(tabs, selectedTabId.value)
    {
      SelectedTab(tabs, selectedTabId)
    }

    /** `isServerSelected` */
    predicate IsServerSelected(guildId: string)
      reads this
      ensures IsServerSelected(guildId) ==> Selected().Some? && guildId in Selected().value.serverIds
      ensures Selected().Some? && guildId in Selected().value.serverIds ==> IsServerSelected(guildId)
      ensures Selected().None? ==> !IsServerSelected(guildId)
    {
      ServerSelected(tabs, selectedTabId, guildId)
    }

    /** The list on screen is the list in the settings store. */
    ghost predicate Persisted()
      reads this, settings
    {
      settings.customTabs == settings.codec.stringify(tabs)
    }

    /** `saveTabs`: the new list becomes both the modal's and the stored one. */
    method SaveTabs(newTabs: seq<CustomTab>)
      modifies this`tabs, settings`customTabs
      ensures tabs == newTabs && Persisted()
      ensures Faithful(settings.codec) ==> settings.CustomTabs() == tabs
    {
      tabs := newTabs;
      settings.SetCustomTabs(newTabs);
    }

    /** `createTab`, with `newId` standing for `tab-${Date.now()}`. */
    method CreateTab(newId: string)
      requires StartsWith(newId, "tab-")
      modifies this`tabs, this`selectedTabId, this`editName, settings`customTabs
      ensures |old(tabs)| >= MaxTabs ==>
        && tabs == old(tabs) && selectedTabId == old(selectedTabId) && editName == old(editName)
        && settings.customTabs == old(settings.customTabs)
      ensures |old(tabs)| < MaxTabs ==>
        && tabs == old(tabs) + [CustomTab(newId, TabName(|old(tabs)| + 1), [], [])]
        && selectedTabId == Some(newId) && editName == TabName(|tabs|)
        && Persisted()
      ensures |old(tabs)| <= MaxTabs ==> |tabs| <= MaxTabs
    {
      if |tabs| >= MaxTabs {
        return;
      }
      var newTab := CustomTab(newId, TabName(|tabs| + 1), [], []);
      SaveTabs(tabs + [newTab]);
      selectedTabId := Some(newTab.id);
      editName := newTab.name;
    }

    /** `deleteTab`: removes the workspace, falls back to "all" if it was the
        active one and drops the selection if it was selected. */
    method DeleteTab(tabId: string)
      modifies this`tabs, this`selectedTabId, settings`customTabs, settings`activeTab
      ensures tabs == RemoveTab(old(tabs), tabId) && Persisted()
      ensures settings.activeTab == if old(settings.activeTab) == tabId then AllTabs else old(settings.activeTab)
      ensures selectedTabId == if old(selectedTabId) == Some(tabId) then None else old(selectedTabId)
    {
      SaveTabs(RemoveTab(tabs, tabId));
      if settings.activeTab == tabId {
        settings.activeTab := AllTabs;
      }
      if selectedTabId == Some(tabId) {
        selectedTabId := None;
      }
    }

    /** `selectTab` */
    method SelectTab(tab: CustomTab)
      modifies this`selectedTabId, this`editName
      ensures selectedTabId == Some(tab.id) && editName == tab.name
    {
      selectedTabId := Some(tab.id);
      editName := tab.name;
    }

    /** `saveEdit`: renames the selected workspace to the edited name. */
    method SaveEdit()
      modifies this`tabs, settings`customTabs
      ensures old(Selected()).None? ==> tabs == old(tabs) && settings.customTabs == old(settings.customTabs)
      ensures old(Selected()).Some? ==> tabs == RenameTab(old(tabs), old(Selected()).value.id, editName) && Persisted()
    {
      var selected := Selected();
      if selected.None? {
        return;
      }
      SaveTabs(RenameTab(tabs, selected.value.id, editName));
    }

    /** `toggleServer`: adds the guild to the selected workspace or removes
        it; no other guild changes state. */
    method ToggleServer(guildId: string)
      modifies this`tabs, settings`customTabs
      ensures tabs == ToggledTabs(old(tabs), selectedTabId, guildId)
      ensures old(Selected()).None? ==> settings.customTabs == old(settings.customTabs)
      ensures old(Selected()).Some? ==> Persisted()
      ensures old(Selected()).Some? ==> IsServerSelected(guildId) == !old(IsServerSelected(guildId))
      ensures forall x :: x != guildId ==> IsServerSelected(x) == old(IsServerSelected(x))
    {
      var selected := Selected();
      ghost var before := tabs;
      forall x {
        ToggleFlipsOnlyThatGuild(before, selectedTabId, guildId, x);
      }
      if selected.None? {
        return;
      }
      var t := selected.value;
      var updated := t.(serverIds := ToggleId(t.serverIds, guildId));
      SaveTabs(ReplaceTab(tabs, updated));
    }
  }
}

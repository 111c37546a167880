# Workspaces plugin for Vencord — a Dafny model

The plugin groups a Discord user's servers ("guilds") into named workspaces
("tabs"). A workspace lists individual servers and host folders. While a
workspace is active, the host's server list hides every guild that the
workspace neither lists nor holds in a selected folder. It also hides every
folder that the workspace does not select and that holds no such guild.
The workspace list is kept as JSON text in the plugin's settings. A modal edits the list, and a sidebar lists the
workspaces (name, initials and server count) and switches the active one.
`stores.ts` also offers `getFilteredGuilds` (a workspace's guilds, or a
search by name) and `getGuildUnreadInfo`; no component among the source
files calls either, and the model states what each returns.

The model covers the logic underneath the rendering:

- `settings.dfy` (module `Settings`): the `CustomTab` record, the four
  persisted settings fields with their defaults, and `getCustomTabs`, which
  parses or falls back to the empty list. It also has `setCustomTabs` and
  the `tabs.find` lookup by id.
- `server_tabs_modal.dfy` (module `ServerTabsModal`): the editor's state as
  the class `Editor`, with fields for the list, the selected id and the name
  being edited. Its handlers `saveTabs`, `createTab`, `deleteTab`,
  `selectTab`, `saveEdit` and `toggleServer` are methods, with
  `isServerSelected` as a predicate, and the list transforms they apply are pure functions. The module also
  holds the icon URL builder.
- `plugin.dfy` (module `Plugin`): what `index.tsx` decides. This covers the
  two visibility resolvers and the per-node decision of `wrapGuildNode`.
- `stores.dfy` (module `Stores`): the open/closed panel flag with its
  listener set (class `PanelStore`), `getGuildUnreadInfo`, and
  `getFilteredGuilds`.
- `js.dfy` (module `Js`): the JavaScript built-ins these rely on, each as a
  specified function. These are `null`, `filter`, `map`, `startsWith`,
  `includes`, `trim`, `toLowerCase` and the decimal rendering of a number.

The host's stores are passed in as plain values: the folder list, the
guilds, a guild's selectable channels, and the per-channel unread and
mention queries. `JSON.parse` and `JSON.stringify` are a `Codec` value whose
two functions are parameters. A codec is `Faithful` when it reads back every
list it writes and writes the empty list as `[]`.

In these places the model follows the code's exact behaviour:

- `index.tsx` treats an empty active id like `"all"`, because the test is
  `!activeTabId`. `getFilteredGuilds` in `stores.ts` only tests for
  `"all"`, so with an empty id it looks up a workspace with id `""`.
- An empty selected id counts as no selection, because the empty string is
  falsy.
- Workspace ids are not unique: `createTab` takes its id from the clock.
  `deleteTab` and `saveEdit` therefore act on every workspace with the given
  id. `toggleServer` copies the first such workspace, with the guild
  toggled, over every workspace with that id.

## Model

| member | source | states |
|---|---|---|
| Settings.Store.constructor | settings.ts:17-41 | The defaults: sidebar animation on, active tab `"all"`, stored list `"[]"`, panel closed; with a faithful codec the stored list reads as empty |
| Settings.GetCustomTabs | settings.ts:43-49 | Never fails: text that does not parse gives the empty list, otherwise the parsed list |
| Settings.DefaultReadsEmpty | settings.ts:32 | The default stored text `"[]"` reads back as the empty list |
| Settings.Store.SetCustomTabs | settings.ts:51-53 | One write replaces the whole stored field; a following read returns exactly the list written |
| Settings.WriteThenRead | settings.ts:43-53 | `getCustomTabs` after `setCustomTabs(tabs)` returns `tabs` |
| Settings.FindTab | components/ServerTabsModal.tsx:44 | `find` by id: none exactly when no workspace has the id; otherwise the first workspace with that id |
| ServerTabsModal.GuildIconUrl | components/ServerTabsModal.tsx:16-20 | `null` exactly for a missing or empty icon; otherwise the CDN address of guild and icon, a dot, the format and `?size=N`, with nothing else in between; the format is `gif` exactly when the icon starts with `a_` and `webp` exactly when it does not |
| ServerTabsModal.IconUrlShape | components/ServerTabsModal.tsx:18-19 | An address built from stem, format and query starts with the stem and a dot, ends with the query, ends in `.gif` or `.webp` exactly for that format, and has no other characters |
| ServerTabsModal.DefaultIconIs40 | components/ServerTabsModal.tsx:16 | Without an explicit size the address ends in `?size=40` |
| ServerTabsModal.TabNameReadsBack | components/ServerTabsModal.tsx:55 | A default name is `Tab ` followed by the decimal position, which reads back as that position |
| ServerTabsModal.SelectedTab | components/ServerTabsModal.tsx:44 | No selected workspace for a missing or empty id; otherwise the first workspace with that id, which is in the list |
| ServerTabsModal.Editor.Selected | components/ServerTabsModal.tsx:44 | None for a missing or empty selected id; otherwise exactly the first workspace in the modal's list with that id, which carries the selected id |
| ServerTabsModal.ServerSelected | components/ServerTabsModal.tsx:97-99 | False without a selection (`?? false`); with a selected workspace, true exactly when that workspace lists the guild |
| ServerTabsModal.Editor.IsServerSelected | components/ServerTabsModal.tsx:97-99 | True exactly when a workspace is selected and it lists the guild; false without a selection |
| ServerTabsModal.Editor.constructor | components/ServerTabsModal.tsx:39-41 | The modal opens on the stored list, with no selection and an empty name field |
| ServerTabsModal.Editor.SaveTabs | components/ServerTabsModal.tsx:46-49 | The modal's list and the stored list both become the new list |
| ServerTabsModal.Editor.CreateTab | components/ServerTabsModal.tsx:51-62 | At 10 or more workspaces nothing changes; otherwise exactly one workspace `Tab n+1` with no servers or folders is appended, selected and persisted; the count never passes 10 |
| ServerTabsModal.RemoveTab | components/ServerTabsModal.tsx:65 | Every workspace with the id is gone, every other one stays with its multiplicity and order |
| ServerTabsModal.Editor.DeleteTab | components/ServerTabsModal.tsx:64-73 | The list loses that id and is persisted; the active tab becomes `"all"` exactly when it was that id; the selection is cleared exactly when it was that id |
| ServerTabsModal.Editor.SelectTab | components/ServerTabsModal.tsx:75-78 | Selects the workspace and loads its name into the name field |
| ServerTabsModal.RenameTab | components/ServerTabsModal.tsx:82 | Only the name of the workspaces with that id changes; ids, servers, folders and every other workspace are kept |
| ServerTabsModal.Editor.SaveEdit | components/ServerTabsModal.tsx:80-83 | Without a selection nothing changes; otherwise the renamed list is saved and persisted |
| ServerTabsModal.ToggleId | components/ServerTabsModal.tsx:87-93 | The guild is removed everywhere if present, appended at the end otherwise; no other id's membership changes |
| ServerTabsModal.ReplaceTab | components/ServerTabsModal.tsx:94 | Every workspace with the updated one's id is replaced by it, the rest are kept, length unchanged |
| ServerTabsModal.FindAfterReplace | components/ServerTabsModal.tsx:94 | After the replacement, looking up the id finds the updated workspace |
| ServerTabsModal.ToggledTabs | components/ServerTabsModal.tsx:85-95 | Without a selection the list is unchanged; otherwise every workspace with the selected id becomes the selected one with the guild toggled, and folders and other workspaces are untouched |
| ServerTabsModal.ToggleFlipsOnlyThatGuild | components/ServerTabsModal.tsx:85-99 | A toggle keeps the selection, flips `isServerSelected` for that guild and leaves it unchanged for every other guild |
| ServerTabsModal.ToggleTwiceRestores | components/ServerTabsModal.tsx:85-99 | Toggling the same guild twice restores `isServerSelected` for every guild |
| ServerTabsModal.Editor.ToggleServer | components/ServerTabsModal.tsx:85-95 | Saves the toggled list when a workspace is selected; the guild's selected state flips and no other guild's changes |
| Plugin.VisibleGuildSet | index.tsx:21-45 | No filtering exactly for an empty or `"all"` active id or an unknown workspace |
| Plugin.VisibleGuildMembership | index.tsx:34-42 | Under a workspace a guild is visible exactly when the workspace lists it or selects a host folder with a non-empty id that holds it |
| Plugin.AddFolderGuilds | index.tsx:37-42 | The loop over the host folders adds exactly the guilds of the folders the workspace selects |
| Plugin.GetVisibleGuildIds | index.tsx:21-45 | The loop builds exactly the set `VisibleGuildSet` describes |
| Plugin.UnnamedFolderAddsNothing | index.tsx:39 | A host folder with a null or empty id never changes the visible set |
| Plugin.VisibleFolderSet | index.tsx:48-60 | No filtering in the same cases; otherwise exactly the workspace's folder ids |
| Plugin.ResolversAgree | index.tsx:25-31 | The two resolvers return null together |
| Plugin.WrapDecision | index.tsx:122-174 | Unfiltered and other nodes are shown; a guild is hidden exactly when not visible; a folder exactly when not selected and no guild child is visible |
| Plugin.WrapGuildNode | index.tsx:122-174 | The decision is taken on both resolvers' results for the active workspace |
| Plugin.UnfilteredShowsAll | index.tsx:127-129 | With an empty or `"all"` id or an unknown workspace every node is shown |
| Plugin.GuildHiddenIff | index.tsx:132-141 | A guild node is hidden exactly when the workspace neither lists it nor selects a folder holding it |
| Plugin.FolderHiddenIff | index.tsx:144-170 | A folder node is hidden exactly when the workspace does not select it and none of its guild children is visible; non-guild children never count |
| Plugin.ListingMatchesVisibility | index.tsx:34-42 | For a workspace, the standalone guilds and the selected folders' guilds that `getFilteredGuilds` returns together make up exactly the set `getVisibleGuildIds` builds |
| Stores.PanelStore.GetOpen | stores.ts:17 | The panel's open state is the persisted `panelOpen` setting |
| Stores.PanelStore.constructor | stores.ts:14 | The listener set starts empty |
| Stores.PanelStore.NotifyAll | stores.ts:20 | Every listener is called once, in insertion order |
| Stores.PanelStore.Toggle | stores.ts:18-21 | The flag is negated and every listener is called |
| Stores.PanelStore.SetOpen | stores.ts:22-25 | The flag becomes the argument and every listener is called |
| Stores.PanelStore.Subscribe | stores.ts:26-28 | The listener is added once, as in a `Set`; the returned unsubscriber names it |
| Stores.PanelStore.Unsubscribe | stores.ts:28 | Exactly that listener is removed, so no later notification calls it; the others stay |
| Stores.CountUnread | stores.ts:61-64 | At most one per channel; zero exactly when no channel is unread |
| Stores.SumMentions | stores.ts:65 | Zero exactly when no channel has a mention |
| Stores.AnyUnread | stores.ts:72 | Either total is positive exactly when some channel is unread or has a mention |
| Stores.CountChannels | stores.ts:61-66 | The loop over the selectable channels yields exactly the unread count and the mention total |
| Stores.GetGuildUnreadInfo | stores.ts:55-73 | The counts over the selectable channels; `hasUnread` exactly when either count is positive, that is when some channel is unread or mentioned; unread count at most the channel count; all zero without channels |
| Stores.IsBlank | stores.ts:116 | The query counts as blank exactly when every character is ECMAScript whitespace |
| Stores.SearchGuilds | stores.ts:116-121 | One id per matching guild, in the order of the matching guilds: element `i` is the id of the `i`-th guild whose lower-cased name contains the lower-cased, untrimmed query; an id occurs exactly when such a guild has it |
| Stores.IdsMembership | stores.ts:120 | `map(guild => guild.id)` names exactly the ids of the guilds mapped |
| Stores.SearchFindsSameName | stores.ts:117-119 | A guild whose name equals the query up to case is found |
| Stores.SearchLowerCasedQuery | stores.ts:117-119 | The search lower-cases the query itself, so searching with the lower-cased query gives the same ids |
| Stores.FolderSelected | stores.ts:140 | A folder with a null or empty id is never selected; a folder with an id is selected exactly when the workspace lists that id |
| Stores.SelectedFolders | stores.ts:139-144 | Exactly the host folders with a non-empty id the workspace lists, in host order |
| Stores.SelectedFoldersAppend | stores.ts:139-144 | One more host folder is kept at the end exactly when it is selected |
| Stores.GuildsOfMembership | stores.ts:142 | A guild is collected exactly when some selected folder holds it |
| Stores.GuildsOfAppend | stores.ts:142 | One more folder adds exactly its guilds |
| Stores.AddAll | stores.ts:142 | Adding a list of ids to a set gives the union |
| Stores.CollectSelectedFolders | stores.ts:136-144 | The loop yields the selected folders in host order and exactly the guilds they hold |
| Stores.GetFilteredGuilds | stores.ts:107-150 | A non-blank query gives the search result and no folders; `"all"` or an unknown workspace gives no guilds and the host folders unchanged; a workspace gives its selected folders and its servers that no selected folder holds |
| Stores.StandaloneAvoidsFolders | stores.ts:147-149 | The standalone guilds keep the workspace's order and are exactly its servers that no returned folder holds, so they are disjoint from the folders' guilds |
| Js.Filter | stores.ts:147 | `filter`: an element is kept exactly when it occurs and passes; never longer than the input |
| Js.FilterMultiset | stores.ts:147 | `filter` keeps each passing element as often as it occurs and drops every other |
| Js.FilterSubsequence | stores.ts:147 | `filter` keeps the input's order |
| Js.FilterAppend | stores.ts:139-144 | Filtering a list with one more element at the end filters the list and then keeps or drops that element |
| Js.Map | components/ServerTabsModal.tsx:82 | `map`: same length, element `i` is the function applied to input element `i` |
| Js.StartsWith | components/ServerTabsModal.tsx:18 | `startsWith`: when true, the text is the prefix followed by the rest |
| Js.Contains | stores.ts:119 | `includes`: never true for a needle longer than the text; true whenever the text starts with the needle |
| Js.Trim | stores.ts:116 | `trim()` is empty exactly when the text is all ECMAScript whitespace |
| Js.ToLower | stores.ts:117-119 | `toLowerCase()` maps ASCII capitals and leaves no capital letter |
| Js.ToLowerIdempotent | stores.ts:117-119 | Lower-casing twice is lower-casing once |
| Js.ContainsIffOccurs | stores.ts:119 | `includes` holds exactly when the text occurs at some position |
| Js.NumberToString | components/ServerTabsModal.tsx:55 | A number renders as decimal digits without a leading zero |
| Js.ParseNumberToString | components/ServerTabsModal.tsx:19 | Reading a rendered number back gives the number |

## Left out

- The JSX, CSS, tooltips and animations of every component. This includes `components/TabSidebar.tsx` and `components/TabToggleButton.tsx` in full and the markup of the modal. They are presentation only.
- `forceGuildListUpdate`, in both `components/ServerTabsModal.tsx` and `index.tsx`. It forces a re-render with timed double folder toggles or a Flux dispatch. That is host manipulation with no contract, so `Editor.DeleteTab` does not call it.
- The regular-expression patches over the host's code, and plugin `start`/`stop`. These are plugin registration, not logic.
- The host stores and webpack lookups. Their results are inputs: the folder list, the guild list, a guild's `SELECTABLE` channels and the read-state queries. `getGuildFolders`, `getExpandedFolders`, `isFolderExpanded`, `toggleFolderExpand` and `getSelectedGuildId` in `stores.ts` only forward to the host and are not modelled.
- `Settings.GetCustomTabs`: the codec is opaque. A parse that succeeds with a value that is not a workspace list is not modelled, because the code does not check the shape. Only the fall-back to the empty list is a promise of the code.
- `ServerTabsModal.Editor.CreateTab`: the id `tab-${Date.now()}` comes from the clock and is a parameter here, required to start with `tab-`. Ids are not claimed to be unique, because the code does not make them so.
- `Js.ToLower`: only ASCII letters are mapped; Unicode case mapping is not modelled.
- `ServerTabsModal.GuildIconUrl`: `size` is a natural number. A fractional or negative size, which the JavaScript number type would allow, is not modelled.
- `Stores.GetGuildUnreadInfo`: the mention count per channel is taken to be a non-negative integer.
- `Stores.PanelStore.NotifyAll`: a listener's own effects are not modelled, and the listener set is assumed not to change during the loop. The model records which listeners are called, in order.
- `Stores.PanelStore`: the unsubscriber closure is modelled as a `Subscription` value passed to `Unsubscribe`.
- React `useState` plumbing: the modal's state is the class `Editor`. The re-render after a state update is not modelled.
- `folderName` and `folderColor` of a host folder are carried but never read by the logic.

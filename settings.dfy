/** The plugin's persisted settings (`settings.ts`): the workspace record,
    the four stored fields with their defaults, and the JSON-encoded
    workspace list with its read-or-empty accessor. */
module Settings {
  import opened Js

  /** A workspace ("tab"): a named selection of servers and host folders. */
  datatype CustomTab = CustomTab(id: string, name: string, serverIds: seq<string>, folderIds: seq<string>)

  /** The active-tab value meaning "no workspace, show every server". */
  const AllTabs: string := "all"

  /** The stored text of an empty workspace list, the field's default. */
  const EmptyTabList: string := "[]"

  /** `JSON.parse` and `JSON.stringify` at the workspace-list type. `parse`
      yields `None` where `JSON.parse` throws. */
  datatype Codec = Codec(parse: string -> Option<seq<CustomTab>>, stringify: seq<CustomTab> -> string)

  /** A codec that reads back every list it writes, and writes the empty list
      as `[]`, as `JSON.parse`/`JSON.stringify` do on plain string arrays. */
  ghost predicate Faithful(codec: Codec)
  {
    && codec.stringify([]) == EmptyTabList
    && forall tabs :: codec.parse(codec.stringify(tabs)) == Some(tabs)
  }

  /** `getCustomTabs`: the decoded list, or the empty list when the stored
      text does not parse. It never fails. */
  function GetCustomTabs(codec: Codec, stored: string): (tabs: seq<CustomTab>)
    ensures codec.parse(stored).None? ==> tabs == []
    ensures codec.parse(stored).Some? ==> tabs == codec.parse(stored).value
  {
    match codec.parse(stored)
    case Some(decoded) => decoded
    case None => []
  }

  /** The default stored text reads back as the empty list. */
  lemma DefaultReadsEmpty(codec: Codec)
    requires Faithful(codec)
    ensures GetCustomTabs(codec, EmptyTabList) == []
  {
    assert codec.parse(codec.stringify([])) == Some([]);
  }

  /** What `setCustomTabs` writes, `getCustomTabs` reads back unchanged. */
  lemma WriteThenRead(codec: Codec, tabs: seq<CustomTab>)
    requires Faithful(codec)
    ensures GetCustomTabs(codec, codec.stringify(tabs)) == tabs
  {
  }

  /** `tabs.find(t => t.id === id)`: the first workspace with that id. */
  function FindTab(tabs: seq<CustomTab>, id: string): (r: Option<CustomTab>)
    ensures r.None? <==> forall t :: t in tabs ==> t.id != id
    ensures r.Some? ==> r.value in tabs && r.value.id == id
    ensures r.Some? ==> exists i :: 0 <= i < |tabs| && tabs[i] == r.value && forall j :: 0 <= j < i ==> tabs[j].id != id
  {
    if tabs == [] then None
    else if tabs[0].id == id then Some(tabs[0])
    else
      var r := FindTab(tabs[1..], id);
      assert r.Some? ==> exists i :: 0 <= i < |tabs| && tabs[i] == r.value && forall j :: 0 <= j < i ==> tabs[j].id != id by {
        if r.Some? {
          var k :| 0 <= k < |tabs[1..]| && tabs[1..][k] == r.value && forall j :: 0 <= j < k ==> tabs[1..][j].id != id;
          assert tabs[k + 1] == r.value;
          assert forall j :: 0 <= j < k + 1 ==> tabs[j].id != id by {
            forall j | 0 <= j < k + 1 ensures tabs[j].id != id {
              if j > 0 { assert tabs[j] == tabs[1..][j - 1]; }
            }
          }
        }
      }
      r
  }

  /** `settings.store`: the plugin's four persisted fields. */
  class Store {
    const codec: Codec
    var sidebarAnim: bool
    var activeTab: string
    var customTabs: string
    var panelOpen: bool

    /** The store as the settings system creates it, with every default. */
    constructor (codec: Codec)
      ensures this.codec == codec
      ensures sidebarAnim && activeTab == AllTabs && customTabs == EmptyTabList && !panelOpen
      ensures Faithful(codec) ==> CustomTabs() == []
    {
      this.codec := codec;
      sidebarAnim := true;
      activeTab := AllTabs;
      customTabs := EmptyTabList;
      panelOpen := false;
      new;
      if Faithful(codec) {
        DefaultReadsEmpty(codec);
      }
    }

    /** `getCustomTabs()` on this store. */
    function CustomTabs(): seq<CustomTab>
      reads this
    {
      GetCustomTabs(codec, customTabs)
    }

    /** `setCustomTabs`: one write of the whole encoded list. */
    method SetCustomTabs(tabs: seq<CustomTab>)
      modifies this`customTabs
      ensures customTabs == codec.stringify(tabs)
      ensures Faithful(codec) ==> CustomTabs() == tabs
    {
      customTabs := codec.stringify(tabs);
    }
  }
}

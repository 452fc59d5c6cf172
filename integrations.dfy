/** The platform integration centre: a fixed default catalog merged with the rows
    saved in `platform_integrations`, filtered by category and search text,
    counted per category, and edited through a configuration dialog whose
    writes are upserts. */
module PlatformIntegrations {
  import opened Common
  import opened Seqs
  import opened Text

  /** A configuration object: field name to entered value. */
  type Config = map<string, string>

  datatype FieldKind = TextField | PasswordField | UrlField | SelectField | TextareaField | NumberField

  /** One input of an integration's configuration dialog. */
  datatype ConfigField = ConfigField(
    name: string,
    title: string,
    kind: FieldKind,
    required: bool,
    placeholder: Option<string>,
    options: seq<string>)

  datatype Popularity = High | Medium | Low

  /** One integration card. `lastSync` is absent in the catalog and comes from a saved row. */
  datatype Integration = Integration(
    id: string,
    name: string,
    category: string,
    icon: string,
    description: string,
    isActive: bool,
    configuration: Config,
    lastSync: Option<string>,
    fields: seq<ConfigField>,
    popularity: Option<Popularity>)

  /** One tab of the category bar; the first one, `all`, stands for every category. */
  datatype Category = Category(id: string, name: string, icon: string, description: string)

  const AllCategories: string := "all"

  /** A row of `platform_integrations` as read back; a null column is `None`. */
  datatype SavedRow = SavedRow(
    platformId: string,
    isActive: Option<bool>,
    configuration: Option<Config>,
    lastSync: Option<string>)

  /** The object handed to `upsert`. */
  datatype Upsert = Upsert(
    platformId: string,
    platformName: string,
    category: string,
    configuration: Config,
    isActive: bool,
    lastSync: Option<string>)

  // ---------------------------------------------------------------- merge

  function PlatformIs(id: string): SavedRow -> bool {
    (s: SavedRow) => s.platformId == id
  }

  /** `data?.find(saved => saved.platform_id === id)`. */
  function SavedFor(data: Option<seq<SavedRow>>, id: string): (r: Option<SavedRow>)
    ensures data.None? ==> r.None?
    ensures r.Some? ==> r.value in data.value && r.value.platformId == id
    ensures data.Some? && r.None? ==> forall s :: s in data.value ==> s.platformId != id
  {
    match data
    case None => None
    case Some(rows) => Find(rows, PlatformIs(id))
  }

  /** A default card with the saved state laid over it: `is_active || false`,
      `configuration || {}` and `last_sync`; everything else stays the catalog's. */
  function Overlay(d: Integration, s: SavedRow): (r: Integration)
    ensures r.isActive <==> s.isActive == Some(true)
    ensures s.configuration.Some? ==> r.configuration == s.configuration.value
    ensures s.configuration.None? ==> r.configuration == map[]
    ensures r.lastSync == s.lastSync
    ensures r.(isActive := d.isActive, configuration := d.configuration, lastSync := d.lastSync) == d
  {
    d.(isActive := s.isActive == Some(true),
       configuration := s.configuration.GetOr(map[]),
       lastSync := s.lastSync)
  }

  /** The card `loadIntegrations` builds for one default. */
  function MergeOne(d: Integration, data: Option<seq<SavedRow>>): Integration {
    match SavedFor(data, d.id)
    case Some(s) => Overlay(d, s)
    case None => d
  }

  /** `defaultIntegrations.map(...)`: one card per default, in catalog order. */
  function Merge(defaults: seq<Integration>, data: Option<seq<SavedRow>>): (r: seq<Integration>)
    ensures |r| == |defaults|
    ensures forall i :: 0 <= i < |r| ==>
      r[i].(isActive := defaults[i].isActive, configuration := defaults[i].configuration,
            lastSync := defaults[i].lastSync) == defaults[i]
    ensures forall i :: 0 <= i < |r| && SavedFor(data, defaults[i].id).None? ==> r[i] == defaults[i]
    ensures forall i :: 0 <= i < |r| && SavedFor(data, defaults[i].id).Some? ==>
      r[i] == Overlay(defaults[i], SavedFor(data, defaults[i].id).value)
  {
    seq(|defaults|, i requires 0 <= i < |defaults| => MergeOne(defaults[i], data))
  }

  /** Without saved rows (`data` null or empty) the merge is the catalog itself. */
  lemma MergeWithoutRows(defaults: seq<Integration>, data: Option<seq<SavedRow>>)
    requires data.None? || data.value == []
    ensures Merge(defaults, data) == defaults
  {
  }

  /** When several rows carry a default's id, the first of them is the one applied. */
  lemma MergeFirstMatchWins(defaults: seq<Integration>, rows: seq<SavedRow>, i: nat, k: nat)
    requires i < |defaults| && k < |rows|
    requires rows[k].platformId == defaults[i].id
    requires forall j :: 0 <= j < k ==> rows[j].platformId != defaults[i].id
    ensures Merge(defaults, Some(rows))[i] == Overlay(defaults[i], rows[k])
  {
    FindFirst(rows, PlatformIs(defaults[i].id), k);
  }

  /** The catalog's ids. */
  function CatalogIds(defaults: seq<Integration>): (ids: set<string>)
    ensures forall i :: 0 <= i < |defaults| ==> defaults[i].id in ids
  {
    set d | d in defaults :: d.id
  }

  function KnownIn(ids: set<string>): SavedRow -> bool {
    (s: SavedRow) => s.platformId in ids
  }

  /** Rows whose `platform_id` matches no default change nothing: dropping them
      from the reply gives the same merged list. */
  lemma MergeIgnoresUnknown(defaults: seq<Integration>, rows: seq<SavedRow>)
    ensures Merge(defaults, Some(Keep(rows, KnownIn(CatalogIds(defaults))))) == Merge(defaults, Some(rows))
  {
    var ids := CatalogIds(defaults);
    forall i | 0 <= i < |defaults|
      ensures Find(Keep(rows, KnownIn(ids)), PlatformIs(defaults[i].id)) == Find(rows, PlatformIs(defaults[i].id))
    {
      FindKeep(rows, PlatformIs(defaults[i].id), KnownIn(ids));
    }
  }

  /** What `loadIntegrations` stores: a missing client, a query error or a raised
      exception all fall back to the catalog; otherwise the merge with `data`. */
  function LoadedIntegrations(defaults: seq<Integration>, clientReady: bool, reply: Reply<SavedRow>): (r: seq<Integration>)
    ensures !clientReady || !reply.Rows? ==> r == defaults
    ensures clientReady && reply.Rows? ==> r == Merge(defaults, Some(reply.rows))
  {
    if !clientReady || reply.Failed? || reply.Threw? then defaults
    else
      var merged := Merge(defaults, DataOf(reply));
      assert reply.NoData? ==> merged == defaults by {
        if reply.NoData? {
          MergeWithoutRows(defaults, DataOf(reply));
        }
      }
      merged
  }

  /** Reading back a row written from an upsert payload, placed first in the reply,
      shows the written state on the card with that id. */
  lemma UpsertReadBack(defaults: seq<Integration>, i: nat, u: Upsert, rows: seq<SavedRow>)
    requires i < |defaults| && u.platformId == defaults[i].id
    ensures var r := Merge(defaults, Some([RowOf(u)] + rows))[i];
      r.isActive == u.isActive && r.configuration == u.configuration && r.lastSync == u.lastSync
  {
    MergeFirstMatchWins(defaults, [RowOf(u)] + rows, i, 0);
  }

  /** The row an upsert leaves in `platform_integrations`. */
  function RowOf(u: Upsert): (s: SavedRow)
    ensures s.platformId == u.platformId && s.isActive == Some(u.isActive)
    ensures s.configuration == Some(u.configuration) && s.lastSync == u.lastSync
  {
    SavedRow(u.platformId, Some(u.isActive), Some(u.configuration), u.lastSync)
  }

  // ---------------------------------------------------------------- filter

  function InCategory(category: string): Integration -> bool {
    (x: Integration) => x.category == category
  }

  /** Whether a card matches an already lower-cased search term. */
  predicate MatchesTerm(x: Integration, term: string) {
    Contains(Lower(x.name), term) || Contains(Lower(x.description), term)
  }

  function Matching(term: string): Integration -> bool {
    (x: Integration) => MatchesTerm(x, term)
  }

  /** `filterIntegrations`: the category filter unless the category is `all`, then the
      case-insensitive search on name or description unless the term is empty. */
  function FilterIntegrations(xs: seq<Integration>, category: string, searchTerm: string): (r: seq<Integration>)
    ensures |r| <= |xs|
    ensures forall x :: x in r <==>
      && x in xs
      && (category == AllCategories || x.category == category)
      && (searchTerm == "" || MatchesTerm(x, Lower(searchTerm)))
  {
    var byCategory := if category != AllCategories then Keep(xs, InCategory(category)) else xs;
    if searchTerm != "" then Keep(byCategory, Matching(Lower(searchTerm))) else byCategory
  }

  /** Whether a card passes both filters. */
  predicate Selected(x: Integration, category: string, searchTerm: string) {
    && (category == AllCategories || x.category == category)
    && (searchTerm == "" || MatchesTerm(x, Lower(searchTerm)))
  }

  function SelectedBy(category: string, searchTerm: string): Integration -> bool {
    (x: Integration) => Selected(x, category, searchTerm)
  }

  /** The two filters in a row are one `filter` with both conditions, so the result is
      the list's cards that pass, in their original order. */
  lemma FilterIsOneKeep(xs: seq<Integration>, category: string, searchTerm: string)
    ensures FilterIntegrations(xs, category, searchTerm) == Keep(xs, SelectedBy(category, searchTerm))
  {
    var term := Lower(searchTerm);
    var sel := SelectedBy(category, searchTerm);
    if category != AllCategories && searchTerm != "" {
      KeepKeep(xs, InCategory(category), Matching(term), sel);
    } else if category != AllCategories {
      KeepSame(xs, InCategory(category), sel);
    } else if searchTerm != "" {
      KeepSame(xs, Matching(term), sel);
    } else {
      KeepAll(xs, sel);
    }
  }

  /** The filtered list is a subsequence of the list: cards keep their relative order. */
  lemma FilterKeepsOrder(xs: seq<Integration>, category: string, searchTerm: string)
    ensures SubsequenceOf(FilterIntegrations(xs, category, searchTerm), xs)
  {
    FilterIsOneKeep(xs, category, searchTerm);
    KeepIsSubsequence(xs, SelectedBy(category, searchTerm));
  }

  /** Filtering a concatenation filters each part. */
  lemma FilterAppend(a: seq<Integration>, b: seq<Integration>, category: string, searchTerm: string)
    ensures FilterIntegrations(a + b, category, searchTerm)
         == FilterIntegrations(a, category, searchTerm) + FilterIntegrations(b, category, searchTerm)
  {
    FilterIsOneKeep(a + b, category, searchTerm);
    FilterIsOneKeep(a, category, searchTerm);
    FilterIsOneKeep(b, category, searchTerm);
    KeepAppend(a, b, SelectedBy(category, searchTerm));
  }

  /** With category `all` and an empty search, every card is shown. */
  lemma NoFilterShowsAll(xs: seq<Integration>)
    ensures FilterIntegrations(xs, AllCategories, "") == xs
  {
  }

  // ---------------------------------------------------------------- stats

  datatype CategoryStats = CategoryStats(total: nat, active: nat, inactive: nat)

  datatype Stats = Stats(total: nat, active: nat, byCategory: map<string, CategoryStats>)

  function IsActive(x: Integration): bool { x.isActive }

  function IsInactive(x: Integration): bool { !x.isActive }

  function ActiveIn(category: string): Integration -> bool {
    (x: Integration) => x.category == category && x.isActive
  }

  function InactiveIn(category: string): Integration -> bool {
    (x: Integration) => x.category == category && !x.isActive
  }

  /** One category's counts; the active and inactive cards of the category make up all of it. */
  function StatsFor(xs: seq<Integration>, category: string): (s: CategoryStats)
    ensures s.total == |Keep(xs, InCategory(category))|
    ensures s.active == |Keep(xs, ActiveIn(category))|
    ensures s.inactive == |Keep(xs, InactiveIn(category))|
    ensures s.total == s.active + s.inactive
  {
    var inCategory := Keep(xs, InCategory(category));
    KeepKeep(xs, InCategory(category), IsActive, ActiveIn(category));
    KeepKeep(xs, InCategory(category), IsInactive, InactiveIn(category));
    KeepSplit(inCategory, IsActive, IsInactive);
    CategoryStats(|inCategory|, |Keep(xs, ActiveIn(category))|, |Keep(xs, InactiveIn(category))|)
  }

  /** The `reduce` over the category list: one entry per category except `all`;
      a later tab with the same id overwrites an earlier one. */
  function ByCategory(xs: seq<Integration>, categories: seq<Category>): (m: map<string, CategoryStats>)
    ensures AllCategories !in m
    ensures forall id :: id in m ==> m[id] == StatsFor(xs, id)
    ensures forall c :: c in categories && c.id != AllCategories ==> c.id in m
    ensures forall id :: id in m ==> exists c :: c in categories && c.id == id
  {
    if categories == [] then map[]
    else
      var init := categories[..|categories| - 1];
      var c := categories[|categories| - 1];
      var acc := ByCategory(xs, init);
      assert categories == init + [c];
      if c.id != AllCategories then acc[c.id := StatsFor(xs, c.id)] else acc
  }

  /** `getStats`. */
  function GetStats(xs: seq<Integration>, categories: seq<Category>): (s: Stats)
    ensures s.total == |xs|
    ensures s.active == |Keep(xs, IsActive)| && s.active <= s.total
    ensures s.byCategory == ByCategory(xs, categories)
  {
    Stats(|xs|, |Keep(xs, IsActive)|, ByCategory(xs, categories))
  }

  /** The counts on one category card: the overall counts for `all`, the category's
      entry otherwise, and zeros for a category that has none. */
  function CardStats(s: Stats, id: string): (c: CategoryStats)
    requires s.active <= s.total
    ensures id == AllCategories ==> c == CategoryStats(s.total, s.active, s.total - s.active)
    ensures id != AllCategories && id in s.byCategory ==> c == s.byCategory[id]
    ensures id != AllCategories && id !in s.byCategory ==> c == CategoryStats(0, 0, 0)
  {
    if id == AllCategories then CategoryStats(s.total, s.active, s.total - s.active)
    else if id in s.byCategory then s.byCategory[id]
    else CategoryStats(0, 0, 0)
  }

  /** Every card's counts add up: `total = active + inactive`, and for `all` the
      inactive count is the number of inactive cards. */
  lemma CardsAddUp(xs: seq<Integration>, categories: seq<Category>, id: string)
    ensures var c := CardStats(GetStats(xs, categories), id);
      c.total == c.active + c.inactive
    ensures id == AllCategories ==>
      CardStats(GetStats(xs, categories), id).inactive == |Keep(xs, IsInactive)|
  {
    KeepSplit(xs, IsActive, IsInactive);
  }

  /** The ids of the category tabs other than `all`, in tab order. */
  function TabIds(categories: seq<Category>): (ids: seq<string>)
    ensures forall id :: id in ids ==> id != AllCategories && exists c :: c in categories && c.id == id
  {
    if categories == [] then []
    else
      var rest := TabIds(categories[1..]);
      assert forall c :: c in categories[1..] ==> c in categories;
      (if categories[0].id != AllCategories then [categories[0].id] else []) + rest
  }

  function CategoryOf(x: Integration): string { x.category }

  /** The sum of the `total` counts of the given categories. */
  function TotalOver(byCategory: map<string, CategoryStats>, ids: seq<string>): nat
    requires forall id :: id in ids ==> id in byCategory
  {
    if ids == [] then 0 else byCategory[ids[0]].total + TotalOver(byCategory, ids[1..])
  }

  /** When the tab ids are distinct and every card's category is one of them, the
      category cards' totals add up to the number of cards: each card is counted
      under exactly one category. */
  lemma {:induction false} CategoryTotalsPartition(xs: seq<Integration>, categories: seq<Category>)
    requires Distinct(TabIds(categories))
    requires forall x :: x in xs ==> x.category in TabIds(categories)
    ensures TotalOver(ByCategory(xs, categories), TabIds(categories)) == |xs|
  {
    var ids := TabIds(categories);
    TotalOverIsCount(xs, ByCategory(xs, categories), ids);
    CountByKeysPartition(xs, ids, CategoryOf);
  }

  lemma {:induction false} TotalOverIsCount(xs: seq<Integration>, m: map<string, CategoryStats>, ids: seq<string>)
    requires forall id :: id in ids ==> id in m && m[id] == StatsFor(xs, id)
    ensures TotalOver(m, ids) == CountByKeys(xs, ids, CategoryOf)
  {
    if ids != [] {
      assert forall id :: id in ids[1..] ==> id in ids;
      TotalOverIsCount(xs, m, ids[1..]);
      KeepSame(xs, InCategory(ids[0]), KeyIs(CategoryOf, ids[0]));
    }
  }

  // ---------------------------------------------------------------- writes

  /** The upsert `saveConfiguration` sends: the dialog's values, always active. */
  function SavePayload(x: Integration, configData: Config, now: string): (u: Upsert)
    ensures u.platformId == x.id && u.platformName == x.name && u.category == x.category
    ensures u.configuration == configData
    ensures u.isActive && u.lastSync == Some(now)
  {
    Upsert(x.id, x.name, x.category, configData, true, Some(now))
  }

  /** The upsert `toggleIntegration` sends: the flipped status, with a sync time
      exactly when the card becomes active. */
  function TogglePayload(x: Integration, now: string): (u: Upsert)
    ensures u.platformId == x.id && u.platformName == x.name && u.category == x.category
    ensures u.configuration == x.configuration
    ensures u.isActive == !x.isActive
    ensures u.lastSync.None? <==> !u.isActive
    ensures u.lastSync.Some? ==> u.lastSync.value == now
  {
    var newStatus := !x.isActive;
    Upsert(x.id, x.name, x.category, x.configuration, newStatus, if newStatus then Some(now) else None)
  }

  /** Toggling the card that a toggle's written row produced flips it back. */
  lemma ToggleTwiceRestores(defaults: seq<Integration>, i: nat, now: string, later: string, rows: seq<SavedRow>)
    requires i < |defaults|
    ensures var u := TogglePayload(defaults[i], now);
      var card := Merge(defaults, Some([RowOf(u)] + rows))[i];
      TogglePayload(card, later).isActive == defaults[i].isActive
  {
    UpsertReadBack(defaults, i, TogglePayload(defaults[i], now), rows);
  }

  // ---------------------------------------------------------------- panel state

  /** The component's state. `defaults` and `categories` are the fixed catalog and
      category bar; `filtered` is what the filter effect last computed. */
  class IntegrationPanel {
    const defaults: seq<Integration>
    const categories: seq<Category>
    var activeCategory: string
    var integrations: seq<Integration>
    var filtered: seq<Integration>
    var searchTerm: string
    var selected: Option<Integration>
    var modalOpen: bool
    var configData: Config
    var isLoading: bool

    /** The filter effect has run on the current list, category and search term. */
    ghost predicate FilterCurrent()
      reads this
    {
      filtered == FilterIntegrations(integrations, activeCategory, searchTerm)
    }

    constructor (defaults: seq<Integration>, categories: seq<Category>)
      ensures this.defaults == defaults && this.categories == categories
      ensures activeCategory == AllCategories && searchTerm == ""
      ensures integrations == [] && filtered == []
      ensures selected == None && !modalOpen && configData == map[] && !isLoading
      ensures FilterCurrent()
    {
      this.defaults := defaults;
      this.categories := categories;
      activeCategory := AllCategories;
      integrations := [];
      filtered := [];
      searchTerm := "";
      selected := None;
      modalOpen := false;
      configData := map[];
      isLoading := false;
    }

    /** Re-run the filter, as the effect on `[integrations, activeCategory, searchTerm]` does. */
    method RunFilter()
      modifies this
      ensures filtered == FilterIntegrations(integrations, activeCategory, searchTerm)
      ensures integrations == old(integrations) && activeCategory == old(activeCategory)
      ensures searchTerm == old(searchTerm) && selected == old(selected) && modalOpen == old(modalOpen)
      ensures configData == old(configData) && isLoading == old(isLoading)
    {
      filtered := FilterIntegrations(integrations, activeCategory, searchTerm);
    }

    /** `loadIntegrations`, followed by the filter effect. */
    method LoadIntegrations(clientReady: bool, reply: Reply<SavedRow>)
      modifies this
      ensures integrations == LoadedIntegrations(defaults, clientReady, reply)
      ensures |integrations| == |defaults|
      ensures FilterCurrent()
      ensures activeCategory == old(activeCategory) && searchTerm == old(searchTerm)
      ensures selected == old(selected) && modalOpen == old(modalOpen)
      ensures configData == old(configData) && isLoading == old(isLoading)
    {
      integrations := LoadedIntegrations(defaults, clientReady, reply);
      RunFilter();
    }

    /** A category tab click. */
    method SelectCategory(id: string)
      modifies this
      ensures activeCategory == id && FilterCurrent()
      ensures integrations == old(integrations) && searchTerm == old(searchTerm)
      ensures selected == old(selected) && modalOpen == old(modalOpen)
      ensures configData == old(configData) && isLoading == old(isLoading)
    {
      activeCategory := id;
      RunFilter();
    }

    /** Typing in the search box. */
    method Search(term: string)
      modifies this
      ensures searchTerm == term && FilterCurrent()
      ensures integrations == old(integrations) && activeCategory == old(activeCategory)
      ensures selected == old(selected) && modalOpen == old(modalOpen)
      ensures configData == old(configData) && isLoading == old(isLoading)
    {
      searchTerm := term;
      RunFilter();
    }

    /** "Limpiar filtros": back to every card. */
    method ClearFilters()
      modifies this
      ensures searchTerm == "" && activeCategory == AllCategories
      ensures filtered == integrations
      ensures integrations == old(integrations)
      ensures selected == old(selected) && modalOpen == old(modalOpen)
      ensures configData == old(configData) && isLoading == old(isLoading)
    {
      searchTerm := "";
      activeCategory := AllCategories;
      RunFilter();
      NoFilterShowsAll(integrations);
    }

    /** `openConfigModal`: the dialog starts from the card's saved configuration. */
    method OpenConfigModal(x: Integration)
      modifies this
      ensures selected == Some(x) && configData == x.configuration && modalOpen
      ensures integrations == old(integrations) && filtered == old(filtered)
      ensures activeCategory == old(activeCategory) && searchTerm == old(searchTerm)
      ensures isLoading == old(isLoading)
    {
      selected := Some(x);
      configData := x.configuration;
      modalOpen := true;
    }

    /** `closeConfigModal`: closed, nothing selected, an empty configuration. */
    method CloseConfigModal()
      modifies this
      ensures !modalOpen && selected == None && configData == map[]
      ensures integrations == old(integrations) && filtered == old(filtered)
      ensures activeCategory == old(activeCategory) && searchTerm == old(searchTerm)
      ensures isLoading == old(isLoading)
    {
      modalOpen := false;
      selected := None;
      configData := map[];
    }

    /** `handleConfigChange`: sets one field and keeps every other one. */
    method HandleConfigChange(fieldName: string, value: string)
      modifies this
      ensures fieldName in configData && configData[fieldName] == value
      ensures configData.Keys == old(configData).Keys + {fieldName}
      ensures forall k :: k in old(configData) && k != fieldName ==> configData[k] == old(configData)[k]
      ensures integrations == old(integrations) && filtered == old(filtered)
      ensures activeCategory == old(activeCategory) && searchTerm == old(searchTerm)
      ensures selected == old(selected) && modalOpen == old(modalOpen) && isLoading == old(isLoading)
    {
      configData := configData[fieldName := value];
    }

    /** `saveConfiguration`. Nothing happens without a selection. Otherwise the dialog's
        values are upserted as active; only a clean write reloads (through `reload`)
        and closes the dialog, and `isLoading` ends false on every path. */
    method SaveConfiguration(now: string, write: Write, clientReady: bool, reload: Reply<SavedRow>)
      returns (payload: Option<Upsert>)
      modifies this
      ensures old(selected).None? ==>
        payload.None? && integrations == old(integrations) && filtered == old(filtered)
        && selected == old(selected) && modalOpen == old(modalOpen)
        && configData == old(configData) && isLoading == old(isLoading)
      ensures old(selected).Some? ==>
        payload == Some(SavePayload(old(selected).value, old(configData), now)) && !isLoading
      ensures old(selected).Some? && write == Written ==>
        integrations == LoadedIntegrations(defaults, clientReady, reload)
        && FilterCurrent() && !modalOpen && selected == None && configData == map[]
      ensures old(selected).Some? && write != Written ==>
        integrations == old(integrations) && filtered == old(filtered)
        && selected == old(selected) && modalOpen == old(modalOpen) && configData == old(configData)
      ensures activeCategory == old(activeCategory) && searchTerm == old(searchTerm)
    {
      if selected.None? {
        return None;
      }
      isLoading := true;
      payload := Some(SavePayload(selected.value, configData, now));
      if write == Written {
        LoadIntegrations(clientReady, reload);
        CloseConfigModal();
      }
      isLoading := false;
    }

    /** `toggleIntegration`: upserts the flipped status; only a clean write reloads. */
    method ToggleIntegration(x: Integration, now: string, write: Write, clientReady: bool, reload: Reply<SavedRow>)
      returns (payload: Upsert)
      modifies this
      ensures payload == TogglePayload(x, now)
      ensures write == Written ==>
        integrations == LoadedIntegrations(defaults, clientReady, reload) && FilterCurrent()
      ensures write != Written ==> integrations == old(integrations) && filtered == old(filtered)
      ensures activeCategory == old(activeCategory) && searchTerm == old(searchTerm)
      ensures selected == old(selected) && modalOpen == old(modalOpen)
      ensures configData == old(configData) && isLoading == old(isLoading)
    {
      payload := TogglePayload(x, now);
      if write == Written {
        LoadIntegrations(clientReady, reload);
      }
    }
  }
}

/** The admin dashboard's shell: the fixed navigation list, its grouping by
    category for the sidebar, the choice of the panel to show for the active
    tab, and the tab-change handler. */
module AdminShell {
  import opened Common
  import opened Seqs
  import opened Audit

  /** One sidebar entry; `component` names the lazily loaded panel it shows. */
  datatype NavItem = NavItem(id: string, title: string, icon: string, component: string, category: string)

  function CategoryOf(item: NavItem): string { item.category }

  function IdIs(id: string): NavItem -> bool {
    (item: NavItem) => item.id == id
  }

  /** The thirteen navigation entries, in sidebar order. */
  function NavigationItems(): (items: seq<NavItem>)
    ensures |items| == 13
  {
    [
      NavItem("dashboard", "KPIs Dashboard", "ri-dashboard-2-line", "KPIsDashboard", "overview"),
      NavItem("clients", "Client Management", "ri-user-settings-line", "ClientsModule", "management"),
      NavItem("document-queue", "Document Queue", "ri-file-list-3-line", "DocumentQueueModule", "operations"),
      NavItem("work-logs", "Work Logs", "ri-file-list-2-line", "AdminWorkLogs", "operations"),
      NavItem("database", "Database Management", "ri-database-2-line", "DatabaseManagementModule", "technical"),
      NavItem("configuration", "Control Center", "ri-settings-2-line", "ConfigurationModule", "system"),
      NavItem("ia-integration", "AI Integration", "ri-brain-line", "AIIntegrationModule", "technical"),
      NavItem("messaging", "Internal Messaging", "ri-mail-send-line", "MessagingModule", "communication"),
      NavItem("financial", "Financial Module", "ri-money-dollar-circle-line", "FinancialModule", "business"),
      NavItem("reports", "Reports", "ri-file-chart-line", "ReportsModule", "business"),
      NavItem("audit", "Audit Logs", "ri-shield-check-line", "AuditLogs", "security"),
      NavItem("data-protection", "Data Protection", "ri-lock-2-line", "DataProtectionCompliance", "security"),
      NavItem("integraciones", "Integraciones", "ri-links-line", "PlatformIntegrationModule", "technical")
    ]
  }

  /** No two navigation entries share an id, so a tab id names one panel. */
  lemma NavigationIdsDistinct()
    ensures forall i, j :: 0 <= i < j < |NavigationItems()| ==> NavigationItems()[i].id != NavigationItems()[j].id
  {
  }

  /** The categories of `items` in the order they first occur. */
  function FirstSeen(items: seq<NavItem>): seq<string> {
    if items == [] then []
    else
      var ks := FirstSeen(items[..|items| - 1]);
      var c := items[|items| - 1].category;
      if c in ks then ks else ks + [c]
  }

  /** The first-occurrence order lists each category of the items exactly once,
      and nothing else. */
  lemma {:induction false} FirstSeenCategories(items: seq<NavItem>)
    ensures Distinct(FirstSeen(items))
    ensures forall i :: 0 <= i < |items| ==> items[i].category in FirstSeen(items)
    ensures forall c :: c in FirstSeen(items) ==> exists i :: 0 <= i < |items| && items[i].category == c
  {
    if items != [] {
      var init := items[..|items| - 1];
      FirstSeenCategories(init);
      assert forall i :: 0 <= i < |init| ==> init[i] == items[i];
    }
  }

  /** Every group holds, in list order, exactly the items of its category. */
  ghost predicate GroupsHold(items: seq<NavItem>, groups: map<string, seq<NavItem>>) {
    forall c {:trigger groups[c]} :: c in groups ==> groups[c] == Keep(items, KeyIs(CategoryOf, c))
  }

  /** `keys` and `groups` are the grouping of `items`: the keys are the categories in
      first-occurrence order, the dictionary has exactly those keys, and each group
      holds its category's items in list order. */
  ghost predicate Grouped(items: seq<NavItem>, keys: seq<string>, groups: map<string, seq<NavItem>>) {
    && keys == FirstSeen(items)
    && (forall c :: c in groups <==> c in keys)
    && GroupsHold(items, groups)
  }

  /** `groupedNavigationItems`: a dictionary filled in place, one key per category in the
      order the categories first occur, each holding its items with `push`. `keys` is the
      insertion order of the keys. `Object.entries` lists string keys in that order but
      integer-like keys first; no category of the navigation list is integer-like, so for
      the real sidebar `keys` is the order shown. */
  method GroupNavigationItems(items: seq<NavItem>) returns (keys: seq<string>, groups: map<string, seq<NavItem>>)
    ensures keys == FirstSeen(items)
    ensures forall c :: c in groups <==> c in keys
    ensures GroupsHold(items, groups)
  {
    keys, groups := [], map[];
    var n := 0;
    while n < |items|
      invariant n <= |items|
      invariant Grouped(items[..n], keys, groups)
    {
      var item := items[n];
      var c := item.category;
      ghost var keys', groups' := keys, groups;
      if c !in groups {
        keys := keys + [c];
        groups := groups[c := []];
      }
      groups := groups[c := groups[c] + [item]];
      GroupStep(items, n, keys', groups', keys, groups);
      n := n + 1;
    }
    assert items[..n] == items;
  }

  /** One step of the grouping: item `n` goes to the end of its category's group,
      which is opened (and its key appended) when the category is new. */
  lemma GroupStep(items: seq<NavItem>, n: nat, keys: seq<string>, groups: map<string, seq<NavItem>>,
                  keys': seq<string>, groups': map<string, seq<NavItem>>)
    requires n < |items| && Grouped(items[..n], keys, groups)
    requires keys' == if items[n].category in groups then keys else keys + [items[n].category]
    requires groups' == groups[items[n].category :=
      (if items[n].category in groups then groups[items[n].category] else []) + [items[n]]]
    ensures Grouped(items[..n + 1], keys', groups')
  {
    var c := items[n].category;
    var g := if c in groups then groups[c] else [];
    FirstSeenStep(items, n);
    assert keys' == FirstSeen(items[..n + 1]);
    if c !in groups {
      FirstSeenCategories(items[..n]);
      assert forall x :: x in items[..n] ==> x.category in keys;
      KeepNone(items[..n], KeyIs(CategoryOf, c));
    }
    PushStep(items, n, groups, g);
    assert GroupsHold(items[..n + 1], groups');
    assert forall d :: d in groups' <==> d in keys';
  }

  /** Where the next item's category goes in the first-occurrence order. */
  lemma FirstSeenStep(items: seq<NavItem>, n: nat)
    requires n < |items|
    ensures var ks := FirstSeen(items[..n]);
      FirstSeen(items[..n + 1]) == if items[n].category in ks then ks else ks + [items[n].category]
  {
    assert items[..n + 1][..n] == items[..n];
  }

  /** Pushing item `n` onto its category's group, whose items so far are `g`,
      extends the grouping by that item. */
  lemma PushStep(items: seq<NavItem>, n: nat, groups: map<string, seq<NavItem>>, g: seq<NavItem>)
    requires n < |items| && GroupsHold(items[..n], groups)
    requires g == Keep(items[..n], KeyIs(CategoryOf, items[n].category))
    ensures GroupsHold(items[..n + 1], groups[items[n].category := g + [items[n]]])
  {
    assert items[..n + 1] == items[..n] + [items[n]];
    var groups' := groups[items[n].category := g + [items[n]]];
    forall d | d in groups'
      ensures groups'[d] == Keep(items[..n + 1], KeyIs(CategoryOf, d))
    {
      KeepSnoc(items[..n], items[n], KeyIs(CategoryOf, d));
    }
  }

  /** The number of items the groups hold, key by key. */
  function GroupTotal(keys: seq<string>, groups: map<string, seq<NavItem>>): nat
    requires forall c :: c in keys ==> c in groups
  {
    if keys == [] then 0 else |groups[keys[0]]| + GroupTotal(keys[1..], groups)
  }

  /** Grouping puts every item in exactly one group: whatever the grouping method
      returns, the groups hold as many items as the list. */
  lemma {:induction false} GroupingKeepsEveryItem(items: seq<NavItem>, keys: seq<string>, groups: map<string, seq<NavItem>>)
    requires keys == FirstSeen(items)
    requires forall c :: c in groups <==> c in keys
    requires GroupsHold(items, groups)
    ensures GroupTotal(keys, groups) == |items|
  {
    FirstSeenCategories(items);
    assert forall x :: x in items ==> x.category in keys;
    GroupTotalIsCount(items, keys, groups);
    CountByKeysPartition(items, keys, CategoryOf);
  }

  /** The sidebar's groups hold the thirteen navigation entries between them. */
  lemma SidebarHoldsEveryEntry(keys: seq<string>, groups: map<string, seq<NavItem>>)
    requires keys == FirstSeen(NavigationItems())
    requires forall c :: c in groups <==> c in keys
    requires GroupsHold(NavigationItems(), groups)
    ensures GroupTotal(keys, groups) == 13
  {
    GroupingKeepsEveryItem(NavigationItems(), keys, groups);
  }

  lemma {:induction false} GroupTotalIsCount(items: seq<NavItem>, keys: seq<string>, groups: map<string, seq<NavItem>>)
    requires forall c :: c in keys ==> c in groups
    requires GroupsHold(items, groups)
    ensures GroupTotal(keys, groups) == CountByKeys(items, keys, CategoryOf)
  {
    if keys != [] {
      GroupTotalIsCount(items, keys[1..], groups);
    }
  }

  /** What the content area shows for the active tab. */
  datatype Content =
    | NotFound                    // "Modulo no encontrado"
    | Standalone(item: NavItem)   // rendered without `logAuditEvent`
    | WithAudit(item: NavItem)    // rendered with `logAuditEvent` as a prop

  const StandaloneComponents: seq<string> := ["audit", "data-protection"]

  /** `renderActiveContent`: the first item whose id is the active tab, and whether
      it is one of the two panels that take no audit callback. */
  function ActiveContent(items: seq<NavItem>, activeTab: string): (c: Content)
    ensures c.NotFound? <==> forall x :: x in items ==> x.id != activeTab
    ensures !c.NotFound? ==> c.item in items && c.item.id == activeTab
    ensures !c.NotFound? ==> Find(items, IdIs(activeTab)) == Some(c.item)
    ensures c.Standalone? <==> !c.NotFound? && activeTab in StandaloneComponents
  {
    match Find(items, IdIs(activeTab))
    case None => NotFound
    case Some(item) =>
      if activeTab in StandaloneComponents then Standalone(item) else WithAudit(item)
  }

  /** Over the real navigation list, exactly the audit-log and data-protection
      panels are rendered without the audit callback. */
  lemma StandalonePanels(activeTab: string)
    ensures ActiveContent(NavigationItems(), activeTab).Standalone?
        <==> activeTab == "audit" || activeTab == "data-protection"
  {
    var items := NavigationItems();
    if activeTab in StandaloneComponents {
      var k := if activeTab == "audit" then 10 else 11;
      assert items[k] in items && items[k].id == activeTab;
    }
  }

  /** The shell's own state. */
  class Shell {
    var activeTab: string
    var loadingError: Option<string>

    constructor ()
      ensures activeTab == "dashboard" && loadingError == None
    {
      activeTab := "dashboard";
      loadingError := None;
    }

    /** `handleTabChange`: switch tab, clear the error, and log `navigate_<id>`. */
    method HandleTabChange(tabId: string) returns (audit: AuditRequest)
      modifies this
      ensures activeTab == tabId && loadingError == None
      ensures audit == Event("navigate_" + tabId)
    {
      activeTab := tabId;
      loadingError := None;
      audit := Event("navigate_" + tabId);
    }

    /** The mount effect: a connection probe, then `admin_panel_initialized` is logged.
        A probe error only warns; only a raised exception sets the error screen. */
    method InitializeAdmin(probe: Reply<string>) returns (audit: Option<AuditRequest>)
      modifies this
      ensures activeTab == old(activeTab)
      ensures probe.Threw? ==> audit == None && loadingError == Some("Error de conexion con la base de datos")
      ensures !probe.Threw? ==> audit == Some(Event("admin_panel_initialized")) && loadingError == old(loadingError)
    {
      if probe.Threw? {
        loadingError := Some("Error de conexion con la base de datos");
        audit := None;
      } else {
        audit := Some(Event("admin_panel_initialized"));
      }
    }
  }
}

/**
  The dashboard's navigation (`src/components/dashboard/DashboardSidebar.tsx`):
  the fixed `navStructure`, cut down for members to the dashboard, products and
  events items, with empty sections dropped.
*/
module DashboardSidebar {
  import opened Common

  datatype NavItem = NavItem(id: string, tag: string, badge: Option<string>)
  datatype NavSection = NavSection(section: string, items: seq<NavItem>)

  const Main := NavSection("Main", [NavItem("dashboard", "Dashboard", None), NavItem("pos", "Point of Sale", Some("Hot"))])
  const Inventory := NavSection("Inventory", [NavItem("products", "Products", None), NavItem("stock", "Stock Management", None)])
  const SalesAndEvents := NavSection("Sales & Events", [NavItem("events", "Events", None), NavItem("transactions", "Transactions", None),
                                                        NavItem("revenue", "Revenue", None)])
  const Analytics := NavSection("Analytics", [NavItem("sales-analytics", "Sales Analytics", None)])
  const Automation := NavSection("AI & Automation", [NavItem("forecasting", "AI Forecasting", Some("New"))])
  const Management := NavSection("Management", [NavItem("team", "Team", None), NavItem("settings", "Settings", None)])

  /** `navStructure`. */
  const NavStructure := [Main, Inventory, SalesAndEvents, Analytics, Automation, Management]

  const MemberAllowed := {"dashboard", "products", "events"}

  /** `String(systemRole || "").toLowerCase() || "member"`. */
  function RoleOf(systemRole: Option<string>): (r: string)
    ensures !Truthy(systemRole) ==> r == "member"
    ensures Truthy(systemRole) ==> r == ToLower(systemRole.value)
    ensures r != ""
  {
    var lc := ToLower(OrElse(systemRole, ""));
    if lc == "" then "member" else lc
  }

  /** `filterItem`: a member keeps only the allowed ids. */
  predicate FilterItem(role: string, id: string) {
    role == "member" ==> id in MemberAllowed
  }

  /** The second filter: "team" only for a role other than member. */
  predicate TeamGate(role: string, id: string) {
    id == "team" ==> role != "member"
  }

  /** The two filters as predicates on items. */
  function RoleFilter(role: string): NavItem -> bool {
    (i: NavItem) => FilterItem(role, i.id)
  }

  function TeamFilter(role: string): NavItem -> bool {
    (i: NavItem) => TeamGate(role, i.id)
  }

  /** A section's items after both filters, in order. */
  function SectionItems(role: string, items: seq<NavItem>): seq<NavItem>
  {
    Filter(Filter(items, RoleFilter(role)), TeamFilter(role))
  }

  /** An item is kept exactly when it passes both filters. */
  lemma SectionItemsMembers(role: string, items: seq<NavItem>)
    ensures forall it :: it in SectionItems(role, items) <==> it in items && FilterItem(role, it.id) && TeamGate(role, it.id)
  {
    FilterMembers(items, RoleFilter(role));
    FilterMembers(Filter(items, RoleFilter(role)), TeamFilter(role));
  }

  /** Every section with its filtered items, in order. */
  function MapSections(role: string, nav: seq<NavSection>): (r: seq<NavSection>)
    ensures |r| == |nav|
  {
    if nav == [] then [] else [nav[0].(items := SectionItems(role, nav[0].items))] + MapSections(role, nav[1..])
  }

  /** Every section keeps its place and name and gets its filtered items. */
  lemma {:induction false} MapSectionsAt(role: string, nav: seq<NavSection>)
    ensures forall k :: 0 <= k < |nav| ==>
              MapSections(role, nav)[k] == nav[k].(items := SectionItems(role, nav[k].items))
  {
    if nav != [] {
      MapSectionsAt(role, nav[1..]);
      forall k | 1 <= k < |nav|
        ensures MapSections(role, nav)[k] == nav[k].(items := SectionItems(role, nav[k].items))
      {
        assert MapSections(role, nav)[k] == MapSections(role, nav[1..])[k - 1];
        assert nav[1..][k - 1] == nav[k];
      }
    }
  }

  predicate NonEmpty(s: NavSection) {
    |s.items| > 0
  }

  /** The sections shown for a role. */
  function Visible(role: string, nav: seq<NavSection>): seq<NavSection>
  {
    Filter(MapSections(role, nav), NonEmpty)
  }

  /**
    Every shown section has items; each shown item comes from a section of the
    same name in `nav`; a member sees only allowed ids and never "team"; and an
    item of `nav` that passes both filters is shown.
  */
  lemma VisibleFacts(role: string, nav: seq<NavSection>)
    ensures forall s :: s in Visible(role, nav) ==> NonEmpty(s)
    ensures forall s, it :: s in Visible(role, nav) && it in s.items ==>
              (exists k :: 0 <= k < |nav| && nav[k].section == s.section && it in nav[k].items)
              && FilterItem(role, it.id) && TeamGate(role, it.id)
    ensures forall k, it :: 0 <= k < |nav| && it in nav[k].items && FilterItem(role, it.id) && TeamGate(role, it.id) ==>
              exists s :: s in Visible(role, nav) && s.section == nav[k].section && it in s.items
    ensures SubSeq(Visible(role, nav), MapSections(role, nav))
  {
    var mapped := MapSections(role, nav);
    MapSectionsAt(role, nav);
    FilterSubSeq(mapped, NonEmpty);
    FilterMembers(mapped, NonEmpty);
    forall s, it | s in Visible(role, nav) && it in s.items
      ensures (exists k :: 0 <= k < |nav| && nav[k].section == s.section && it in nav[k].items)
              && FilterItem(role, it.id) && TeamGate(role, it.id)
    {
      var k :| 0 <= k < |mapped| && mapped[k] == s;
      SectionItemsMembers(role, nav[k].items);
    }
    forall k, it | 0 <= k < |nav| && it in nav[k].items && FilterItem(role, it.id) && TeamGate(role, it.id)
      ensures exists s :: s in Visible(role, nav) && s.section == nav[k].section && it in s.items
    {
      SectionItemsMembers(role, nav[k].items);
      assert mapped[k] in mapped && NonEmpty(mapped[k]);
    }
  }

  /** A role other than member keeps a section's items as they are. */
  lemma {:induction false} NonMemberKeepsItems(role: string, items: seq<NavItem>)
    requires role != "member"
    ensures SectionItems(role, items) == items
  {
    FilterAll(items, RoleFilter(role));
    FilterAll(items, TeamFilter(role));
  }

  /** Any role other than member sees the whole navigation. */
  lemma NonMemberSeesAll(systemRole: Option<string>)
    requires RoleOf(systemRole) != "member"
    ensures Visible(RoleOf(systemRole), NavStructure) == NavStructure
  {
    var role := RoleOf(systemRole);
    var mapped := MapSections(role, NavStructure);
    MapSectionsAt(role, NavStructure);
    forall k | 0 <= k < |NavStructure| ensures mapped[k] == NavStructure[k] {
      NonMemberKeepsItems(role, NavStructure[k].items);
    }
    assert mapped == NavStructure;
    FilterAll(NavStructure, NonEmpty);
  }

  /** A member, or a user with no role, sees three sections holding dashboard, products and events. */
  lemma MemberView()
    ensures Visible("member", NavStructure) == [
              NavSection("Main", [NavItem("dashboard", "Dashboard", None)]),
              NavSection("Inventory", [NavItem("products", "Products", None)]),
              NavSection("Sales & Events", [NavItem("events", "Events", None)])]
  {
    MemberFromInventory();
    MemberMain();
    VisibleFrom("member", NavStructure, 0);
    assert NavStructure[0..] == NavStructure;
  }

  /** From the inventory section on, a member sees products and events. */
  lemma MemberFromInventory()
    ensures Visible("member", NavStructure[1..])
            == [NavSection("Inventory", [NavItem("products", "Products", None)]),
                NavSection("Sales & Events", [NavItem("events", "Events", None)])]
  {
    MemberFromSales();
    MemberInventory();
    VisibleFrom("member", NavStructure, 1);
  }

  /** From the sales section on, a member sees only the events item. */
  lemma MemberFromSales()
    ensures Visible("member", NavStructure[2..])
            == [NavSection("Sales & Events", [NavItem("events", "Events", None)])]
  {
    MemberTail();
    MemberSales();
    VisibleFrom("member", NavStructure, 2);
  }

  /** Analytics, automation and management have nothing for a member. */
  lemma MemberTail()
    ensures Visible("member", NavStructure[3..]) == []
  {
    MemberAnalytics();
    MemberAutomation();
    MemberManagement();
    assert NavStructure[6..] == [];
    VisibleFrom("member", NavStructure, 5);
    VisibleFrom("member", NavStructure, 4);
    VisibleFrom("member", NavStructure, 3);
  }

  /** The shown sections from the `k`-th on: that section, if any item is left, then the rest. */
  lemma VisibleFrom(role: string, nav: seq<NavSection>, k: nat)
    requires k < |nav|
    ensures var t := nav[k].(items := SectionItems(role, nav[k].items));
            Visible(role, nav[k..]) == (if NonEmpty(t) then [t] else []) + Visible(role, nav[k + 1..])
  {
    assert nav[k..] == [nav[k]] + nav[k + 1..];
    VisibleCons(role, nav[k], nav[k + 1..]);
  }

  /** The shown sections of a list with one more section in front. */
  lemma VisibleCons(role: string, s: NavSection, nav: seq<NavSection>)
    ensures var t := s.(items := SectionItems(role, s.items));
            Visible(role, [s] + nav) == (if NonEmpty(t) then [t] else []) + Visible(role, nav)
  {
    assert ([s] + nav)[1..] == nav;
    assert MapSections(role, [s] + nav)[1..] == MapSections(role, nav);
  }

  /** The filtered items of a list with one more item in front. */
  lemma ItemsCons(role: string, x: NavItem, xs: seq<NavItem>)
    ensures SectionItems(role, [x] + xs)
            == (if FilterItem(role, x.id) && TeamGate(role, x.id) then [x] else []) + SectionItems(role, xs)
  {
    var inner := Filter(xs, RoleFilter(role));
    FilterCons(x, xs, RoleFilter(role));
    assert RoleFilter(role)(x) == FilterItem(role, x.id);
    assert TeamFilter(role)(x) == TeamGate(role, x.id);
    if FilterItem(role, x.id) {
      assert Filter([x] + xs, RoleFilter(role)) == [x] + inner;
      FilterCons(x, inner, TeamFilter(role));
    } else {
      assert Filter([x] + xs, RoleFilter(role)) == inner;
    }
  }

  lemma MemberMain()
    ensures SectionItems("member", Main.items) == [NavItem("dashboard", "Dashboard", None)]
  {
    var pos := NavItem("pos", "Point of Sale", Some("Hot"));
    assert Main.items == [NavItem("dashboard", "Dashboard", None)] + [pos];
    assert "pos" !in MemberAllowed;
    ItemsCons("member", NavItem("dashboard", "Dashboard", None), [pos]);
    ItemsCons("member", pos, []);
  }

  lemma MemberInventory()
    ensures SectionItems("member", Inventory.items) == [NavItem("products", "Products", None)]
  {
    var stock := NavItem("stock", "Stock Management", None);
    assert Inventory.items == [NavItem("products", "Products", None)] + [stock];
    assert "stock" !in MemberAllowed;
    ItemsCons("member", NavItem("products", "Products", None), [stock]);
    ItemsCons("member", stock, []);
  }

  lemma MemberSales()
    ensures SectionItems("member", SalesAndEvents.items) == [NavItem("events", "Events", None)]
  {
    var transactions := SalesAndEvents.items[1];
    var revenue := SalesAndEvents.items[2];
    assert SalesAndEvents.items == [NavItem("events", "Events", None)] + ([transactions] + [revenue]);
    assert transactions.id !in MemberAllowed && revenue.id !in MemberAllowed;
    ItemsCons("member", NavItem("events", "Events", None), [transactions] + [revenue]);
    ItemsCons("member", transactions, [revenue]);
    ItemsCons("member", revenue, []);
  }

  lemma MemberAnalytics()
    ensures SectionItems("member", Analytics.items) == []
  {
    assert "sales-analytics" !in MemberAllowed;
    ItemsCons("member", Analytics.items[0], []);
  }

  lemma MemberAutomation()
    ensures SectionItems("member", Automation.items) == []
  {
    assert "forecasting" !in MemberAllowed;
    ItemsCons("member", Automation.items[0], []);
  }

  lemma MemberManagement()
    ensures SectionItems("member", Management.items) == []
  {
    var team := NavItem("team", "Team", None);
    var settings := NavItem("settings", "Settings", None);
    assert Management.items == [team] + [settings];
    assert "team" !in MemberAllowed && "settings" !in MemberAllowed;
    ItemsCons("member", team, [settings]);
    ItemsCons("member", settings, []);
  }

  /** Clicking an item makes its id the active section, so exactly the items with that id are highlighted. */
  function Click(item: NavItem): (activeSection: string)
    ensures forall other: NavItem :: other.id == activeSection <==> other.id == item.id
  {
    item.id
  }
}

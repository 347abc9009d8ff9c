/**
 * The application sidebar (`AppSidebar`): which menu entry is highlighted for
 * the current location, and the entries grouped under their headings.
 */
module Sidebar {
  import opened Wrappers
  import Seqs
  import Text

  /** A menu entry. The icon is not modelled. */
  datatype NavItem = NavItem(title: string, url: string, group: string)

  const Home := "/dashboard"

  /** The menu; every entry after the first opens a dashboard tab. */
  function NavigationItems(): seq<NavItem> {
    [ NavItem("Dashboard", Home, "Principal"),
      NavItem("PDV", TabUrl("pos"), "Vendas"),
      NavItem("Cat\U{00E1}logo", TabUrl("catalog"), "Vendas"),
      NavItem("Produtos", TabUrl("products"), "Estoque"),
      NavItem("Estoque", TabUrl("stock"), "Estoque"),
      NavItem("Invent\U{00E1}rio", TabUrl("inventory"), "Estoque"),
      NavItem("Clientes", TabUrl("customers"), "CRM"),
      NavItem("CRM", TabUrl("crm"), "CRM"),
      NavItem("Financeiro", TabUrl("financial"), "Gest\U{00E3}o"),
      NavItem("Relat\U{00F3}rios", TabUrl("reports"), "Gest\U{00E3}o"),
      NavItem("Configura\U{00E7}\U{00F5}es", TabUrl("settings"), "Gest\U{00E3}o") ]
  }

  /** On the bare home path the home entry is the only one highlighted. */
  lemma HomePathHighlightsHomeOnly()
    ensures IsActive(NavigationItems()[0].url, Home)
    ensures forall i :: 1 <= i < |NavigationItems()| ==> !IsActive(NavigationItems()[i].url, Home)
  {
    var tabs := ["pos", "catalog", "products", "stock", "inventory", "customers", "crm",
                 "financial", "reports", "settings"];
    forall i | 1 <= i < |NavigationItems()| ensures !IsActive(NavigationItems()[i].url, Home) {
      assert NavigationItems()[i].url == TabUrl(tabs[i - 1]);
      TabInactiveAtHome(tabs[i - 1]);
    }
  }

  /** `url.split("?")[1]` as `includes` receives it: the piece after the first
      '?', or the text "undefined" when the url has no '?'. */
  function QueryPart(url: string): string {
    var pieces := Text.Split(url, '?');
    if |pieces| >= 2 then pieces[1] else "undefined"
  }

  /** `isActive`. */
  predicate IsActive(url: string, currentPath: string) {
    if url == Home && currentPath == Home then true
    else if url != Home && Text.Contains(currentPath, QueryPart(url)) then true
    else false
  }

  /** The home entry is highlighted exactly on the bare home path. */
  lemma HomeActive(currentPath: string)
    ensures IsActive(Home, currentPath) <==> currentPath == Home
  {
  }

  /** Any other entry of the form `base?query` is highlighted exactly when the
      current location contains its query; one without '?' looks for the text
      "undefined" instead. */
  lemma OtherActive(base: string, query: string, currentPath: string)
    requires '?' !in base && '?' !in query
    requires base + "?" + query != Home
    ensures IsActive(base + "?" + query, currentPath) <==> Text.Contains(currentPath, query)
    ensures base != Home ==> (IsActive(base, currentPath) <==> Text.Contains(currentPath, "undefined"))
  {
    assert Text.Join([base, query], '?') == base + "?" + query by {
      assert Text.Join([base, query][1..], '?') == query;
    }
    Text.SplitJoin([base, query], '?');
    Text.SplitJoin([base], '?');
  }

  /** A string cannot contain a character it does not have. */
  lemma MissingChar(s: string, sub: string, c: char)
    requires c in sub && c !in s
    ensures !Text.Contains(s, sub)
  {
  }

  /** The url of a dashboard tab. */
  function TabUrl(tab: string): string {
    Home + "?tab=" + tab
  }

  /** On the bare home path no tab entry is highlighted. */
  lemma TabInactiveAtHome(tab: string)
    requires '?' !in tab
    ensures !IsActive(TabUrl(tab), Home)
  {
    var query := "tab=" + tab;
    assert TabUrl(tab) == Home + "?" + query;
    OtherActive(Home, query, Home);
    assert query[3] == '=';
    MissingChar(Home, query, '=');
  }

  /** A heading and its entries, as `Object.entries(groupedItems)` lists them. */
  datatype Group = Group(name: string, items: seq<NavItem>)

  function GroupName(g: Group): string { g.name }

  /** One step of the `reduce`: the entry joins its heading's list, opening a
      new heading at the end when there is none yet. */
  function AddToGroups(groups: seq<Group>, item: NavItem): seq<Group> {
    match Seqs.FindKey(groups, GroupName, item.group)
    case None => groups + [Group(item.group, [item])]
    case Some(i) => groups[i := Group(groups[i].name, groups[i].items + [item])]
  }

  /** `groupedItems`, folded from the first entry to the last. */
  function Grouped(items: seq<NavItem>): seq<Group>
    decreases |items|
  {
    if items == [] then [] else AddToGroups(Grouped(items[..|items| - 1]), items[|items| - 1])
  }

  function InGroup(name: string): NavItem -> bool {
    (item: NavItem) => item.group == name
  }

  /** The number of entries under all headings. */
  function Size(groups: seq<Group>): nat {
    if groups == [] then 0 else |groups[0].items| + Size(groups[1..])
  }

  lemma {:induction false} SizeAppend(groups: seq<Group>, g: Group)
    ensures Size(groups + [g]) == Size(groups) + |g.items|
  {
    if groups != [] {
      assert (groups + [g])[1..] == groups[1..] + [g];
      SizeAppend(groups[1..], g);
    } else {
      assert [g][1..] == [];
    }
  }

  lemma {:induction false} SizeUpdate(groups: seq<Group>, i: nat, g: Group)
    requires i < |groups|
    ensures Size(groups[i := g]) == Size(groups) - |groups[i].items| + |g.items|
  {
    if i > 0 {
      assert groups[i := g][1..] == groups[1..][i - 1 := g];
      SizeUpdate(groups[1..], i - 1, g);
    } else {
      assert groups[i := g][1..] == groups[1..];
    }
  }

  /** What the sidebar shows: one non-empty heading per distinct group,
      each listing exactly its entries in menu order, with no entry lost or
      repeated. */
  predicate GroupedCorrectly(items: seq<NavItem>, groups: seq<Group>) {
    && Seqs.DistinctKeys(groups, GroupName)
    && (forall i :: 0 <= i < |groups| ==> groups[i].items == Seqs.Filter(items, InGroup(groups[i].name)))
    && (forall i :: 0 <= i < |groups| ==> groups[i].items != [])
    && (forall x :: x in items ==> exists i :: 0 <= i < |groups| && groups[i].name == x.group)
    && Size(groups) == |items|
  }

  /** An entry of a group not seen before opens a new heading at the end. */
  lemma AddNewGroup(items: seq<NavItem>, groups: seq<Group>, last: NavItem)
    requires GroupedCorrectly(items, groups)
    requires forall i :: 0 <= i < |groups| ==> groups[i].name != last.group
    ensures GroupedCorrectly(items + [last], groups + [Group(last.group, [last])])
  {
    var g := Group(last.group, [last]);
    var r := groups + [g];
    SizeAppend(groups, g);
    assert Seqs.DistinctKeys(r, GroupName) by {
      forall i | 0 <= i < |groups| ensures GroupName(r[i]) != GroupName(r[|groups|]) {
        assert r[i] == groups[i];
      }
    }
    forall i | 0 <= i < |r| ensures r[i].items == Seqs.Filter(items + [last], InGroup(r[i].name)) {
      Seqs.FilterConcat(items, [last], InGroup(r[i].name));
      if i == |groups| {
        forall k | 0 <= k < |items| ensures !InGroup(last.group)(items[k]) {
          assert items[k] in items;
        }
        Seqs.FilterNone(items, InGroup(last.group));
      }
    }
    forall x | x in items + [last] ensures exists i :: 0 <= i < |r| && r[i].name == x.group {
      if x in items {
        var i :| 0 <= i < |groups| && groups[i].name == x.group;
        assert r[i].name == x.group;
      } else {
        assert r[|groups|].name == x.group;
      }
    }
  }

  /** An entry of a known group joins the end of that heading's list. */
  lemma AddToGroup(items: seq<NavItem>, groups: seq<Group>, last: NavItem, j: nat)
    requires GroupedCorrectly(items, groups)
    requires j < |groups| && groups[j].name == last.group
    ensures GroupedCorrectly(items + [last],
      groups[j := Group(groups[j].name, groups[j].items + [last])])
  {
    var g := Group(groups[j].name, groups[j].items + [last]);
    var r := groups[j := g];
    assert Size(r) == |items| + 1 by {
      SizeUpdate(groups, j, g);
    }
    assert Seqs.DistinctKeys(r, GroupName) by {
      assert forall i :: 0 <= i < |r| ==> GroupName(r[i]) == GroupName(groups[i]);
    }
    assert forall i :: 0 <= i < |r| ==> r[i].items != [];
    forall i | 0 <= i < |r| ensures r[i].items == Seqs.Filter(items + [last], InGroup(r[i].name)) {
      Seqs.FilterConcat(items, [last], InGroup(r[i].name));
      if i != j {
        assert GroupName(groups[i]) != GroupName(groups[j]);
      }
    }
    forall x | x in items + [last] ensures exists i :: 0 <= i < |r| && r[i].name == x.group {
      if x in items {
        var i :| 0 <= i < |groups| && groups[i].name == x.group;
        assert r[i].name == x.group;
      } else {
        assert r[j].name == x.group;
      }
    }
  }

  /** The `reduce` groups the menu correctly. */
  lemma {:induction false} GroupedSpec(items: seq<NavItem>)
    ensures GroupedCorrectly(items, Grouped(items))
  {
    if items != [] {
      var prefix := items[..|items| - 1];
      var last := items[|items| - 1];
      assert items == prefix + [last];
      GroupedSpec(prefix);
      var gs := Grouped(prefix);
      match Seqs.FindKey(gs, GroupName, last.group)
      case None =>
        AddNewGroup(prefix, gs, last);
      case Some(j) =>
        AddToGroup(prefix, gs, last, j);
    }
  }

  function ItemGroup(item: NavItem): string { item.group }

  /** Where a group first occurs in the menu (`|items|` when it does not). */
  function FirstIndex(items: seq<NavItem>, name: string): (r: nat)
    ensures r <= |items|
    ensures r < |items| <==> exists k :: 0 <= k < |items| && items[k].group == name
  {
    match Seqs.FindKey(items, ItemGroup, name)
    case Some(i) => i
    case None =>
      assert forall k :: 0 <= k < |items| ==> ItemGroup(items[k]) != name;
      |items|
  }

  /** An entry added at the end moves no group's first occurrence. */
  lemma FirstIndexExtend(prefix: seq<NavItem>, last: NavItem, name: string)
    requires exists k :: 0 <= k < |prefix| && prefix[k].group == name
    ensures FirstIndex(prefix + [last], name) == FirstIndex(prefix, name)
  {
    var all := prefix + [last];
    var k :| 0 <= k < |prefix| && prefix[k].group == name;
    assert ItemGroup(prefix[k]) == name && all[k] == prefix[k];
    var a := Seqs.FindKey(prefix, ItemGroup, name).value;
    var b := Seqs.FindKey(all, ItemGroup, name).value;
    assert all[a] == prefix[a];
    assert b <= a;
    assert b < |prefix| && all[b] == prefix[b];
  }

  /** A group first met at the last entry occurs there. */
  lemma FirstIndexNew(prefix: seq<NavItem>, last: NavItem)
    requires forall x :: x in prefix ==> x.group != last.group
    ensures FirstIndex(prefix + [last], last.group) == |prefix|
  {
    var all := prefix + [last];
    assert all[|prefix|] == last;
    forall k | 0 <= k < |prefix| ensures all[k].group != last.group {
      assert all[k] == prefix[k] && prefix[k] in prefix;
    }
  }

  /** A heading's group occurs in the menu. */
  lemma HeadingOccurs(items: seq<NavItem>, groups: seq<Group>, i: nat)
    requires GroupedCorrectly(items, groups) && i < |groups|
    ensures exists k :: 0 <= k < |items| && items[k].group == groups[i].name
  {
    var x := groups[i].items[0];
    assert x in Seqs.Filter(items, InGroup(groups[i].name));
    var k :| 0 <= k < |items| && items[k] == x;
  }

  /** Each heading comes after those of groups met earlier in the menu. */
  predicate InMenuOrder(items: seq<NavItem>, groups: seq<Group>) {
    forall i, j :: 0 <= i < j < |groups| ==>
      FirstIndex(items, groups[i].name) < FirstIndex(items, groups[j].name)
  }

  /** Adding an entry moves no existing heading's first occurrence. */
  lemma HeadingsKeepFirstIndex(items: seq<NavItem>, groups: seq<Group>, last: NavItem)
    requires GroupedCorrectly(items, groups)
    ensures forall i :: 0 <= i < |groups| ==>
      FirstIndex(items + [last], groups[i].name) == FirstIndex(items, groups[i].name) < |items|
  {
    forall i | 0 <= i < |groups|
      ensures FirstIndex(items + [last], groups[i].name) == FirstIndex(items, groups[i].name) < |items|
    {
      HeadingOccurs(items, groups, i);
      FirstIndexExtend(items, last, groups[i].name);
    }
  }

  lemma OrderAfterNewGroup(items: seq<NavItem>, groups: seq<Group>, last: NavItem)
    requires GroupedCorrectly(items, groups) && InMenuOrder(items, groups)
    requires forall i :: 0 <= i < |groups| ==> groups[i].name != last.group
    ensures InMenuOrder(items + [last], groups + [Group(last.group, [last])])
  {
    HeadingsKeepFirstIndex(items, groups, last);
    forall x | x in items ensures x.group != last.group {
      var i :| 0 <= i < |groups| && groups[i].name == x.group;
    }
    FirstIndexNew(items, last);
  }

  lemma OrderAfterJoin(items: seq<NavItem>, groups: seq<Group>, last: NavItem, j: nat)
    requires GroupedCorrectly(items, groups) && InMenuOrder(items, groups)
    requires j < |groups|
    ensures InMenuOrder(items + [last], groups[j := Group(groups[j].name, groups[j].items + [last])])
  {
    HeadingsKeepFirstIndex(items, groups, last);
    var r := groups[j := Group(groups[j].name, groups[j].items + [last])];
    assert forall i :: 0 <= i < |r| ==> r[i].name == groups[i].name;
  }

  /** Headings appear in the order their groups first occur in the menu.
      `Object.entries` lists string keys in insertion order, but integer-like
      keys first and in ascending order, and `!acc[group]` misreads keys such
      as "constructor" that the prototype already defines; the menu's group
      names are of neither kind, so for them this insertion order is the
      order shown. */
  lemma {:induction false} GroupOrder(items: seq<NavItem>)
    ensures InMenuOrder(items, Grouped(items))
  {
    if items != [] {
      var prefix := items[..|items| - 1];
      var last := items[|items| - 1];
      assert items == prefix + [last];
      GroupOrder(prefix);
      GroupedSpec(prefix);
      var gs := Grouped(prefix);
      match Seqs.FindKey(gs, GroupName, last.group)
      case None =>
        OrderAfterNewGroup(prefix, gs, last);
      case Some(j) =>
        OrderAfterJoin(prefix, gs, last, j);
    }
  }
}

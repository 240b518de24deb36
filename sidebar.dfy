/**
  The navigation sidebar (components/layout/Sidebar.tsx): a fixed navigation tree, the list
  `expandedItems` of section names whose children are shown, the toggle that a section's
  button performs on that list, and the predicates that decide what is expanded and which
  link is highlighted for the current path.
 */
module Sidebar {

  /** A leaf of the navigation: a label and the path it links to. */
  datatype NavLink = NavLink(name: string, href: string)

  /** A top-level entry: a page link, or a section with child links that can be expanded. */
  datatype NavItem =
    | Page(name: string, href: string)
    | Section(name: string, children: seq<NavLink>)

  const DrivetrainLinks: seq<NavLink> := [
    NavLink("Overview", "/drivetrains"),
    NavLink("Tank Drive", "/drivetrains/tank"),
    NavLink("Mecanum Drive", "/drivetrains/mecanum"),
    NavLink("Swerve Drive", "/drivetrains/swerve"),
    NavLink("Omni Drive", "/drivetrains/omni")
  ]

  const ControlTheoryLinks: seq<NavLink> := [
    NavLink("Overview", "/control-theory"),
    NavLink("PID Controller", "/control-theory/pid"),
    NavLink("Feedforward", "/control-theory/feedforward"),
    NavLink("Motion Profiling", "/control-theory/motion-profiling")
  ]

  const CalculatorLinks: seq<NavLink> := [
    NavLink("Overview", "/calculators"),
    NavLink("Speed Calculator", "/calculators/speed"),
    NavLink("Torque Calculator", "/calculators/torque"),
    NavLink("Gear Ratio", "/calculators/gear-ratio")
  ]

  /** The `navigation` tree, top to bottom. */
  const Navigation: seq<NavItem> := [
    Page("Home", "/"),
    Section("Drivetrains", DrivetrainLinks),
    Section("Control Theory", ControlTheoryLinks),
    Section("Calculators", CalculatorLinks),
    Page("Simulator", "/simulator"),
    Page("Motor Selection", "/motor-selection"),
    Page("Resources", "/resources")
  ]

  /** The sections expanded when the sidebar first renders. */
  const InitialExpanded: seq<string> := ["Drivetrains", "Control Theory", "Calculators"]

  predicate NoDuplicates(items: seq<string>)
  {
    forall i, j :: 0 <= i < j < |items| ==> items[i] != items[j]
  }

  /** `items.filter(item => item !== name)`: every occurrence of `name` dropped, the rest kept in order. */
  function RemoveAll(items: seq<string>, name: string): (r: seq<string>)
    ensures multiset(r) == multiset(items)[name := 0]
    ensures name !in r
    ensures forall x :: x != name ==> (x in r <==> x in items)
  {
    if items == [] then []
    else
      var rest := RemoveAll(items[1..], name);
      assert items == [items[0]] + items[1..];
      if items[0] == name then rest else [items[0]] + rest
  }

  /** Removal distributes over concatenation, so the names kept stay in their relative order. */
  lemma {:induction false} RemoveAllAppend(a: seq<string>, b: seq<string>, name: string)
    ensures RemoveAll(a + b, name) == RemoveAll(a, name) + RemoveAll(b, name)
  {
    if a != [] {
      assert (a + b)[1..] == a[1..] + b;
      RemoveAllAppend(a[1..], b, name);
    } else {
      assert a + b == b;
    }
  }

  /** Any two kept names that appear in some order before removal appear in that order after it. */
  lemma RemoveAllKeepsOrder(a: seq<string>, x: string, b: seq<string>, y: string, c: seq<string>, name: string)
    requires x != name && y != name
    ensures RemoveAll(a + [x] + b + [y] + c, name)
         == RemoveAll(a, name) + [x] + RemoveAll(b, name) + [y] + RemoveAll(c, name)
  {
    RemoveAllAppend(a + [x] + b + [y], c, name);
    RemoveAllAppend(a + [x] + b, [y], name);
    RemoveAllAppend(a + [x], b, name);
    RemoveAllAppend(a, [x], name);
    assert RemoveAll([x], name) == [x] by { assert [x][1..] == []; }
    assert RemoveAll([y], name) == [y] by { assert [y][1..] == []; }
  }

  /** Removing names from a list without duplicates leaves a list without duplicates. */
  lemma {:induction false} RemoveAllKeepsNoDuplicates(items: seq<string>, name: string)
    requires NoDuplicates(items)
    ensures NoDuplicates(RemoveAll(items, name))
  {
    if items != [] {
      assert NoDuplicates(items[1..]) by {
        forall i, j | 0 <= i < j < |items[1..]| ensures items[1..][i] != items[1..][j] {
          assert items[1..][i] == items[i + 1] && items[1..][j] == items[j + 1];
        }
      }
      RemoveAllKeepsNoDuplicates(items[1..], name);
      assert items[0] !in items[1..];
    }
  }

  /** A list with no occurrence of `name` is left as it is. */
  lemma {:induction false} RemoveAllAbsent(items: seq<string>, name: string)
    requires name !in items
    ensures RemoveAll(items, name) == items
  {
    if items != [] {
      RemoveAllAbsent(items[1..], name);
      assert items == [items[0]] + items[1..];
    }
  }

  /** `toggleExpand`'s update: drop every occurrence of a present name, append an absent one. */
  function Toggled(items: seq<string>, name: string): (r: seq<string>)
    ensures name in r <==> name !in items
    ensures forall x :: x != name ==> (x in r <==> x in items)
    ensures name !in items ==> r == items + [name]
    ensures name in items ==> multiset(r) == multiset(items)[name := 0]
  {
    if name in items then RemoveAll(items, name) else items + [name]
  }

  /** Toggling keeps the list free of duplicates. */
  lemma ToggledKeepsNoDuplicates(items: seq<string>, name: string)
    requires NoDuplicates(items)
    ensures NoDuplicates(Toggled(items, name))
  {
    if name in items {
      RemoveAllKeepsNoDuplicates(items, name);
    }
  }

  /** Toggling an absent name twice restores the list exactly. */
  lemma ToggleTwiceAbsent(items: seq<string>, name: string)
    requires name !in items
    ensures Toggled(Toggled(items, name), name) == items
  {
    RemoveAllAppend(items, [name], name);
    RemoveAllAbsent(items, name);
    assert RemoveAll([name], name) == [] by { assert [name][1..] == []; }
  }

  /** Toggling a present name twice restores the members, with `name` moved to the end. */
  lemma ToggleTwicePresent(items: seq<string>, name: string)
    requires name in items
    ensures Toggled(Toggled(items, name), name) == RemoveAll(items, name) + [name]
    ensures forall x :: x in Toggled(Toggled(items, name), name) <==> x in items
  {
  }

  /** A link (child or page) is highlighted when its path is the current path. */
  predicate IsHighlighted(pathname: string, href: string)
  {
    pathname == href
  }

  /** No two links of a section point to the same path. */
  predicate DistinctHrefs(links: seq<NavLink>)
  {
    forall i, j :: 0 <= i < j < |links| ==> links[i].href != links[j].href
  }

  /** The children of every section of the navigation have distinct paths. */
  lemma SectionHrefsDistinct()
    ensures forall item :: item in Navigation && item.Section? ==> DistinctHrefs(item.children)
  {
    assert DistinctHrefs(DrivetrainLinks);
    assert DistinctHrefs(ControlTheoryLinks);
    assert DistinctHrefs(CalculatorLinks);
  }

  /** Whatever the current path, at most one child link of a section is highlighted. */
  lemma AtMostOneChildHighlighted(item: NavItem, pathname: string)
    requires item in Navigation && item.Section?
    ensures forall i, j :: 0 <= i < j < |item.children| ==>
      !(IsHighlighted(pathname, item.children[i].href) && IsHighlighted(pathname, item.children[j].href))
  {
    SectionHrefsDistinct();
  }

  /** Every section of the navigation starts out expanded, and the initial list has no duplicates. */
  lemma InitiallyAllSectionsShown()
    ensures forall item :: item in Navigation && item.Section? ==> item.name in InitialExpanded
    ensures NoDuplicates(InitialExpanded)
  {
  }

  /** The sidebar component's state: the list of expanded section names. */
  class SidebarState {
    var expandedItems: seq<string>

    ghost predicate Valid()
      reads this
    {
      NoDuplicates(expandedItems)
    }

    constructor ()
      ensures Valid()
      ensures expandedItems == InitialExpanded
      ensures forall item :: item in Navigation && item.Section? ==> ChildrenShown(item)
    {
      expandedItems := InitialExpanded;
      InitiallyAllSectionsShown();
    }

    /** Whether the section called `name` is expanded (its chevron rotated). */
    function IsExpanded(name: string): bool
      reads this
    {
      name in expandedItems
    }

    /** Whether an entry's children are rendered: it is a section and it is expanded. */
    predicate ChildrenShown(item: NavItem)
      reads this
    {
      item.Section? && IsExpanded(item.name)
    }

    /** The click handler of a section's button. */
    method ToggleExpand(name: string)
      requires Valid()
      modifies this
      ensures Valid()
      ensures expandedItems == Toggled(old(expandedItems), name)
      ensures IsExpanded(name) <==> !old(IsExpanded(name))
      ensures forall item: NavItem :: item.Section? && item.name == name ==> (ChildrenShown(item) <==> !old(ChildrenShown(item)))
      ensures forall item: NavItem :: item.name != name ==> (ChildrenShown(item) <==> old(ChildrenShown(item)))
    {
      ToggledKeepsNoDuplicates(expandedItems, name);
      expandedItems := Toggled(expandedItems, name);
    }
  }
}

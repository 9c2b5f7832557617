/**
 * The WordPress admin-menu globals the theme rearranges: `$menu`, the top-level items, and
 * `$submenu`, the items under each parent slug, with the core functions that edit them
 * (`remove_menu_page`, `add_submenu_page`, `remove_submenu_page`) and plain `unset`.
 *
 * Both globals are PHP arrays: ordered (key, item) slots. An item is the array
 * `[0 => title, 1 => capability, 2 => slug]`; an index that is not set reads as null (`None`).
 */
module WpMenu {
  import opened Php

  datatype MenuItem = MenuItem(title: Option<string>, cap: Option<string>, slug: Option<string>)

  /** The (key, item) slots of a PHP array of menu items, in order. */
  type Slots = seq<(int, MenuItem)>

  /** A submenu list: its slots and the key the next `[] =` append uses. */
  datatype SubList = SubList(slots: Slots, next: int)

  datatype MenuState = MenuState(menu: Slots, submenu: map<string, SubList>)

  predicate KeysDistinct(s: Slots) {
    forall i, j :: 0 <= i < j < |s| ==> s[i].0 != s[j].0
  }

  // ---------------------------------------------------------------------------------------
  // Slot helpers

  /** The first slot whose item has slug `slug` (compared with `===`). */
  function SlugIndex(s: Slots, slug: Option<string>): (r: Option<nat>)
    ensures r.Some? ==> r.value < |s| && s[r.value].1.slug == slug
    ensures r.Some? ==> forall j :: 0 <= j < r.value ==> s[j].1.slug != slug
    ensures r.None? ==> forall j :: 0 <= j < |s| ==> s[j].1.slug != slug
  {
    if s == [] then None
    else if s[0].1.slug == slug then Some(0)
    else
      match SlugIndex(s[1..], slug)
      case None => None
      case Some(i) => Some(i + 1)
  }

  /** Removing the key of a slot whose key occurs nowhere else removes exactly that slot. */
  lemma UnsetKeyRemovesOnly(s: Slots, i: int)
    requires 0 <= i < |s| && KeysDistinct(s)
    ensures UnsetKey(s, s[i].0) == s[..i] + s[i + 1..]
  {
    var k := s[i].0;
    var before, rest := s[..i], s[i..];
    assert s == before + rest;
    KeyAbsentAround(s, i, before, s[i + 1..]);
    UnsetKeyConcat(before, rest, k);
    UnsetKeyAbsent(before, k);
    assert rest[0] == s[i] && rest[1..] == s[i + 1..];
    UnsetKeyAbsent(s[i + 1..], k);
  }

  /** In a sequence with distinct keys, the key of slot `i` occurs before and after it nowhere. */
  lemma KeyAbsentAround(s: Slots, i: int, before: Slots, after: Slots)
    requires 0 <= i < |s| && KeysDistinct(s)
    requires before == s[..i] && after == s[i + 1..]
    ensures forall j :: 0 <= j < |before| ==> before[j].0 != s[i].0
    ensures forall j :: 0 <= j < |after| ==> after[j].0 != s[i].0
  {
    forall j | 0 <= j < |before| ensures before[j].0 != s[i].0 {
      assert before[j] == s[j];
    }
    forall j | 0 <= j < |after| ensures after[j].0 != s[i].0 {
      assert after[j] == s[i + 1 + j];
    }
  }

  /** The slots of `s` that a sweep leaves in place, in order. */
  function KeepUnless(s: Slots, moved: MenuItem -> bool): (r: Slots)
    ensures |r| <= |s|
    decreases |s|
  {
    if s == [] then []
    else
      var prev := KeepUnless(s[..|s| - 1], moved);
      var last := s[|s| - 1];
      if moved(last.1) then prev else prev + [last]
  }

  lemma {:induction false} KeepUnlessMembers(s: Slots, moved: MenuItem -> bool)
    ensures forall e :: e in KeepUnless(s, moved) <==> e in s && !moved(e.1)
    decreases |s|
  {
    if s != [] {
      KeepUnlessMembers(s[..|s| - 1], moved);
      assert s == s[..|s| - 1] + [s[|s| - 1]];
    }
  }

  /** The slots kept from a prefix of `snap` are slots of that prefix. */
  lemma KeptFromPrefix(snap: Slots, k: nat, moved: MenuItem -> bool, j: nat)
    requires k <= |snap| && j < |KeepUnless(snap[..k], moved)|
    ensures exists m :: 0 <= m < k && snap[m] == KeepUnless(snap[..k], moved)[j]
  {
    KeepUnlessMembers(snap[..k], moved);
    assert KeepUnless(snap[..k], moved)[j] in snap[..k];
  }

  /**
   * While a loop over `snap` unsets some of its slots by key, the list reads as the slots kept
   * so far followed by the unvisited ones; unsetting the key of the next slot removes just it.
   */
  lemma UnsetKeyAfterKept(snap: Slots, k: nat, moved: MenuItem -> bool)
    requires KeysDistinct(snap) && k < |snap|
    ensures UnsetKey(KeepUnless(snap[..k], moved) + snap[k..], snap[k].0) == KeepUnless(snap[..k], moved) + snap[k + 1..]
  {
    var kept := KeepUnless(snap[..k], moved);
    var e := snap[k];
    assert snap[k..] == [e] + snap[k + 1..];
    forall j | 0 <= j < |kept| ensures kept[j].0 != e.0 {
      KeptFromPrefix(snap, k, moved, j);
    }
    var rest := snap[k + 1..];
    forall j | 0 <= j < |rest| ensures rest[j].0 != e.0 {
      assert rest[j] == snap[k + 1 + j];
    }
    UnsetKeyAbsent(kept, e.0);
    UnsetKeyAbsent(rest, e.0);
    UnsetKeyConcat(kept, [e] + rest, e.0);
    UnsetKeyConcat([e], rest, e.0);
    assert UnsetKey([e], e.0) == [];
  }

  /** `$list[] = $x`. */
  function Push(l: SubList, x: MenuItem): SubList {
    SubList(l.slots + [(l.next, x)], l.next + 1)
  }

  /** The top-level items whose slug is `parent`, as `add_submenu_page` copies them. */
  function ParentLinks(menu: Slots, parent: string): (r: seq<MenuItem>)
    ensures forall x :: x in r ==> x.slug == Some(parent)
    ensures |r| <= |menu|
  {
    if menu == [] then []
    else (if menu[0].1.slug == Some(parent) then [menu[0].1] else []) + ParentLinks(menu[1..], parent)
  }

  /** Every top-level item with the parent's slug is copied, and nothing else is. */
  lemma {:induction false} ParentLinksMembers(menu: Slots, parent: string)
    ensures forall x :: x in ParentLinks(menu, parent) <==>
      x.slug == Some(parent) && exists i :: 0 <= i < |menu| && menu[i].1 == x
    decreases |menu|
  {
    if menu != [] {
      ParentLinksMembers(menu[1..], parent);
      forall x: MenuItem | x.slug == Some(parent) && (exists i :: 0 <= i < |menu| && menu[i].1 == x)
        ensures x in ParentLinks(menu, parent)
      {
        var i :| 0 <= i < |menu| && menu[i].1 == x;
        if i > 0 {
          assert menu[1..][i - 1].1 == x;
        }
      }
      forall x | x in ParentLinks(menu[1..], parent)
        ensures exists i :: 0 <= i < |menu| && menu[i].1 == x
      {
        var j :| 0 <= j < |menu[1..]| && menu[1..][j].1 == x;
        assert menu[j + 1].1 == x;
      }
    }
  }

  /** The copies keep the menu's order: the links of a concatenation are the links of each part, in turn. */
  lemma {:induction false} ParentLinksConcat(a: Slots, b: Slots, parent: string)
    ensures ParentLinks(a + b, parent) == ParentLinks(a, parent) + ParentLinks(b, parent)
    decreases |a|
  {
    if a == [] {
      assert a + b == b;
    } else {
      assert (a + b)[1..] == a[1..] + b;
      ParentLinksConcat(a[1..], b, parent);
    }
  }

  function PushAll(l: SubList, xs: seq<MenuItem>): (r: SubList)
    ensures |r.slots| == |l.slots| + |xs|
    ensures r.next == l.next + |xs|
    ensures r.slots[..|l.slots|] == l.slots
    ensures forall i :: 0 <= i < |xs| ==> r.slots[|l.slots| + i] == (l.next + i, xs[i])
    decreases |xs|
  {
    if xs == [] then l else PushAll(Push(l, xs[0]), xs[1..])
  }

  // ---------------------------------------------------------------------------------------
  // The core functions

  /** `remove_menu_page( $slug )`: the first top-level slot with that slug goes; nothing else changes. */
  function RemoveMenuPage(st: MenuState, slug: Option<string>): (r: MenuState)
    ensures r.submenu == st.submenu
    ensures SlugIndex(st.menu, slug).None? ==> r == st
    ensures SlugIndex(st.menu, slug).Some? ==>
      var i := SlugIndex(st.menu, slug).value; r.menu == st.menu[..i] + st.menu[i + 1..]
  {
    match SlugIndex(st.menu, slug)
    case None => st
    case Some(i) => st.(menu := st.menu[..i] + st.menu[i + 1..])
  }

  /**
   * `add_submenu_page( $parent, ..., $x )` for a user holding the capability: when the parent
   * has no submenu yet (and `$x` is not a link to the parent itself), the top-level items with
   * the parent's slug are copied in first; then `$x` is appended.
   */
  function AddSubmenuPage(st: MenuState, parent: string, x: MenuItem): (r: MenuState)
    ensures r.menu == st.menu
    ensures parent in r.submenu
    ensures parent in st.submenu ==> r.submenu[parent] == Push(st.submenu[parent], x)
    ensures |r.submenu[parent].slots| >= 1 && r.submenu[parent].slots[|r.submenu[parent].slots| - 1].1 == x
    ensures forall p :: p != parent ==>
      (p in r.submenu <==> p in st.submenu) && (p in st.submenu ==> r.submenu[p] == st.submenu[p])
    ensures parent !in st.submenu && x.slug != Some(parent) ==>
      r.submenu[parent] == Push(PushAll(SubList([], 0), ParentLinks(st.menu, parent)), x)
    ensures parent !in st.submenu ==>
      var links := if x.slug != Some(parent) then ParentLinks(st.menu, parent) else [];
      var l := r.submenu[parent];
      && |l.slots| == |links| + 1 && l.next == |links| + 1
      && (forall i :: 0 <= i < |links| ==> l.slots[i] == (i, links[i]))
      && l.slots[|links|] == (|links|, x)
  {
    var base :=
      if parent in st.submenu then st.submenu[parent]
      else if x.slug != Some(parent) then PushAll(SubList([], 0), ParentLinks(st.menu, parent))
      else SubList([], 0);
    st.(submenu := st.submenu[parent := Push(base, x)])
  }

  /** `unset( $menu[$k] )`. */
  function UnsetMenuKey(st: MenuState, k: int): (r: MenuState)
    ensures r.submenu == st.submenu
    ensures r.menu == UnsetKey(st.menu, k)
  {
    st.(menu := UnsetKey(st.menu, k))
  }

  /** `unset( $submenu[$parent][$k] )`; an absent parent is left absent. */
  function UnsetSubmenuKey(st: MenuState, parent: string, k: int): (r: MenuState)
    ensures r.menu == st.menu
    ensures parent !in st.submenu ==> r == st
    ensures parent in st.submenu ==>
      r.submenu == st.submenu[parent := st.submenu[parent].(slots := UnsetKey(st.submenu[parent].slots, k))]
  {
    if parent in st.submenu then
      var l := st.submenu[parent];
      st.(submenu := st.submenu[parent := l.(slots := UnsetKey(l.slots, k))])
    else st
  }

  /** `remove_submenu_page( $parent, $slug )`: the first slot under the parent with that slug goes. */
  function RemoveSubmenuPage(st: MenuState, parent: string, slug: string): (r: MenuState)
    ensures r.menu == st.menu
    ensures parent !in st.submenu || SlugIndex(st.submenu[parent].slots, Some(slug)).None? ==> r == st
    ensures parent in st.submenu && SlugIndex(st.submenu[parent].slots, Some(slug)).Some? ==>
      var l := st.submenu[parent];
      var i := SlugIndex(l.slots, Some(slug)).value;
      r.submenu == st.submenu[parent := l.(slots := l.slots[..i] + l.slots[i + 1..])]
  {
    if parent !in st.submenu then st
    else
      var l := st.submenu[parent];
      match SlugIndex(l.slots, Some(slug))
      case None => st
      case Some(i) => st.(submenu := st.submenu[parent := l.(slots := l.slots[..i] + l.slots[i + 1..])])
  }

  /** At most one slot carries the slug. */
  predicate SlugAtMostOnce(s: Slots, slug: Option<string>) {
    forall j, k :: 0 <= j < k < |s| && s[j].1.slug == slug ==> s[k].1.slug != slug
  }

  /** Dropping the first slot with a slug leaves all other slots, in order. */
  function WithoutFirstSlug(s: Slots, slug: Option<string>): Slots {
    match SlugIndex(s, slug)
    case None => s
    case Some(i) => s[..i] + s[i + 1..]
  }

  /**
   * When a slug occurs at most once, dropping its first slot (what `remove_menu_page` and
   * `remove_submenu_page` do) leaves exactly the slots with another slug.
   */
  lemma WithoutOnlySlug(s: Slots, slug: Option<string>)
    requires SlugAtMostOnce(s, slug)
    ensures forall e :: e in WithoutFirstSlug(s, slug) <==> e in s && e.1.slug != slug
  {
    match SlugIndex(s, slug)
    case None =>
    case Some(i) =>
      SpliceKeepsOthers(s, slug, i);
      SpliceDropsSlug(s, slug, i);
  }

  lemma SpliceKeepsOthers(s: Slots, slug: Option<string>, i: nat)
    requires i < |s| && s[i].1.slug == slug
    ensures forall e :: e in s && e.1.slug != slug ==> e in s[..i] + s[i + 1..]
  {
    var t := s[..i] + s[i + 1..];
    forall e | e in s && e.1.slug != slug ensures e in t {
      var j :| 0 <= j < |s| && s[j] == e;
      if j < i {
        assert t[j] == e;
      } else {
        assert t[j - 1] == e;
      }
    }
  }

  lemma SpliceDropsSlug(s: Slots, slug: Option<string>, i: nat)
    requires SlugAtMostOnce(s, slug) && i < |s| && s[i].1.slug == slug
    ensures forall e :: e in s[..i] + s[i + 1..] ==> e in s && e.1.slug != slug
  {
    var t := s[..i] + s[i + 1..];
    forall e | e in t ensures e in s && e.1.slug != slug {
      var j :| 0 <= j < |t| && t[j] == e;
      if j < i {
        assert e == s[j];
      } else {
        assert e == s[j + 1];
      }
    }
  }

  /**
   * The first `add_submenu_page` under a fresh parent that has one top-level item puts the
   * parent's own link at key 0 and the new item at key 1.
   */
  lemma FirstSubmenuPageGetsParentLink(st: MenuState, parent: string, x: MenuItem, link: MenuItem)
    requires parent !in st.submenu && x.slug != Some(parent)
    requires ParentLinks(st.menu, parent) == [link]
    ensures AddSubmenuPage(st, parent, x).submenu[parent] == SubList([(0, link), (1, x)], 2)
  {
    var base := PushAll(SubList([], 0), [link]);
    assert base.slots == [(0, link)];
  }

  /** Appending one more item after a run of appends is one append more. */
  lemma {:induction false} PushAllSnoc(l: SubList, xs: seq<MenuItem>, x: MenuItem)
    ensures PushAll(l, xs + [x]) == Push(PushAll(l, xs), x)
    decreases |xs|
  {
    if xs == [] {
      assert xs + [x] == [x];
    } else {
      assert (xs + [x])[0] == xs[0] && (xs + [x])[1..] == xs[1..] + [x];
      PushAllSnoc(Push(l, xs[0]), xs[1..], x);
    }
  }

  /**
   * `add_submenu_page` under a parent whose list is a run of appends extends the run; the
   * top-level menu and the other parents stay as they were.
   */
  lemma AddExtendsRun(st: MenuState, parent: string, l: SubList, xs: seq<MenuItem>, x: MenuItem)
    requires parent in st.submenu && st.submenu[parent] == PushAll(l, xs)
    ensures var r := AddSubmenuPage(st, parent, x);
      && r.menu == st.menu && parent in r.submenu && r.submenu[parent] == PushAll(l, xs + [x])
      && r.submenu == st.submenu[parent := r.submenu[parent]]
  {
    PushAllSnoc(l, xs, x);
  }

  /** Appends after existing slots: the existing slots, then the appended run on its own. */
  lemma {:induction false} PushAllAfter(a: Slots, n: int, xs: seq<MenuItem>)
    ensures PushAll(SubList(a, n), xs).slots == a + PushAll(SubList([], n), xs).slots
    decreases |xs|
  {
    if xs != [] {
      var x, rest := xs[0], PushAll(SubList([], n + 1), xs[1..]).slots;
      assert PushAll(SubList(a, n), xs).slots == a + [(n, x)] + rest by {
        assert Push(SubList(a, n), x) == SubList(a + [(n, x)], n + 1);
        PushAllAfter(a + [(n, x)], n + 1, xs[1..]);
      }
      assert PushAll(SubList([], n), xs).slots == [(n, x)] + rest by {
        assert Push(SubList([], n), x) == SubList([(n, x)], n + 1);
        PushAllAfter([(n, x)], n + 1, xs[1..]);
      }
      assert a + [(n, x)] + rest == a + ([(n, x)] + rest);
    }
  }

  /** A run of appends starting at key `n` uses keys from `n` on. */
  lemma {:induction false} PushAllKeysFrom(n: int, xs: seq<MenuItem>)
    ensures forall e :: e in PushAll(SubList([], n), xs).slots ==> e.0 >= n
    decreases |xs|
  {
    if xs != [] {
      PushAllKeysFrom(n + 1, xs[1..]);
      PushAllAfter([(n, xs[0])], n + 1, xs[1..]);
      assert Push(SubList([], n), xs[0]) == SubList([(n, xs[0])], n + 1);
    }
  }

  /** Appends after a key-0 entry take keys from 1 on; unsetting key 0 leaves just them. */
  lemma UnsetLinkBeforeRun(link: MenuItem, xs: seq<MenuItem>)
    ensures UnsetKey(PushAll(SubList([(0, link)], 1), xs).slots, 0) == PushAll(SubList([], 1), xs).slots
  {
    var run := PushAll(SubList([], 1), xs).slots;
    PushAllAfter([(0, link)], 1, xs);
    PushAllKeysFrom(1, xs);
    assert forall i :: 0 <= i < |run| ==> run[i] in run;
    UnsetKeyAbsent(run, 0);
    assert ([(0, link)] + run)[1..] == run;
  }

  // ---------------------------------------------------------------------------------------
  // The globals

  class AdminMenu {
    var menu: Slots
    var submenu: map<string, SubList>

    function State(): MenuState
      reads this
    {
      MenuState(menu, submenu)
    }

    constructor (initial: MenuState)
      ensures State() == initial
    {
      menu := initial.menu;
      submenu := initial.submenu;
    }

    method RemoveMenuPageCall(slug: Option<string>)
      modifies this
      ensures State() == RemoveMenuPage(old(State()), slug)
    {
      var st := RemoveMenuPage(State(), slug);
      menu, submenu := st.menu, st.submenu;
    }

    method AddSubmenuPageCall(parent: string, x: MenuItem)
      modifies this
      ensures State() == AddSubmenuPage(old(State()), parent, x)
    {
      var st := AddSubmenuPage(State(), parent, x);
      menu, submenu := st.menu, st.submenu;
    }

    method UnsetMenuKeyCall(k: int)
      modifies this
      ensures State() == UnsetMenuKey(old(State()), k)
    {
      menu := UnsetKey(menu, k);
    }

    method UnsetSubmenuKeyCall(parent: string, k: int)
      modifies this
      ensures State() == UnsetSubmenuKey(old(State()), parent, k)
    {
      var st := UnsetSubmenuKey(State(), parent, k);
      submenu := st.submenu;
    }

    method RemoveSubmenuPageCall(parent: string, slug: string)
      modifies this
      ensures State() == RemoveSubmenuPage(old(State()), parent, slug)
    {
      var st := RemoveSubmenuPage(State(), parent, slug);
      submenu := st.submenu;
    }
  }
}

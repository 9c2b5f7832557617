/**
 * `AdminMenuCustomizer`: regroups the WordPress admin menu under three custom parents —
 * "Content" (`content-menu`), "Site Settings" (`site-settings-menu`) and "Advanced"
 * (`advanced-menu`) — by adding submenu entries and removing the original top-level items,
 * and highlights the right parent through the `parent_file` filter.
 *
 * Whether a plugin class, function or post type exists is the `Env` input.
 */
module AdminMenuCustomizer {
  import opened Php
  import opened WpMenu

  const ContentMenu := "content-menu"
  const SettingsMenu := "site-settings-menu"
  const AdvancedMenu := "advanced-menu"

  const ContentTypes: seq<string> :=
    ["post", "page", "product", "event", "tribe_events", "people", "person", "team", "staff", "member"]
  const SettingsPages: seq<string> :=
    ["themes.php", "plugins.php", "users.php", "tools.php", "options-general.php"]
  const AdvancedPages: seq<string> := [
    "woocommerce", "woocommerce-marketing", "edit.php?post_type=acf-field-group", "filebird-settings",
    "snippets", "code-snippets", "edit-snippets", "atai", "alttext", "alttext-ai", "alt-text-ai",
    "wpsynchro_menu", "pmxe-admin-export", "pmxe-admin-manage", "pmxe-admin-home", "pmxi-admin-home",
    "wc-admin&path=/payments/overview", "wc-admin&path=/payments", "wcpay-overview", "wc-payments"]
  const PeoplePostTypes: seq<string> := ["people", "person", "team", "staff", "member"]
  const PaymentSlugs: seq<string> :=
    ["wc-admin&path=/payments/overview", "wc-admin&path=/payments", "wcpay-overview", "wc-payments"]
  const SnippetsSlugs: seq<string> := ["snippets", "code-snippets", "edit-snippets"]
  const AltTextSlugs: seq<string> := ["atai", "alttext", "alttext-ai", "alt-text-ai"]
  const ExportSlugs: seq<string> := ["pmxe-admin-export", "pmxe-admin-manage", "pmxe-admin-home"]
  const PluginKeywords: seq<string> :=
    ["Marketing", "Analytics", "Payments", "Snippets", "AltText", "Alt Text", "All Export", "All Import"]
  const CoreMenus: seq<string> := ["index.php", "upload.php", "edit-comments.php", "profile.php"]

  // ---------------------------------------------------------------------------------------
  // adjust_parent_file

  /** The current screen's post type is one of the content types. */
  predicate ContentScreen(screenPostType: Option<string>) {
    screenPostType.Some? && screenPostType.value in ContentTypes
  }

  /** The page belongs under "Advanced": a listed plugin page, a payments page, or a WooCommerce screen. */
  predicate AdvancedPage(parentFile: string, screenId: Option<string>) {
    || parentFile in AdvancedPages
    || Contains(parentFile, "payments") || Contains(parentFile, "Payments")
    || (screenId.Some? && Contains(screenId.value, "woocommerce"))
  }

  /** Neither the content rule, the Posts page rule nor the settings rule applies. */
  predicate NoEarlierRule(parentFile: string, screenPostType: Option<string>) {
    !ContentScreen(screenPostType) && parentFile != "edit.php" && parentFile !in SettingsPages
  }

  /**
   * `adjust_parent_file`: the rules in priority order — content screen, the Posts page,
   * the five settings pages, the advanced pages — and otherwise the parent file unchanged.
   */
  function AdjustParentFile(parentFile: string, screenPostType: Option<string>, screenId: Option<string>): (r: string)
    ensures ContentScreen(screenPostType) ==> r == ContentMenu
    ensures !ContentScreen(screenPostType) && parentFile == "edit.php" ==> r == ContentMenu
    ensures !ContentScreen(screenPostType) && parentFile in SettingsPages ==> r == SettingsMenu
    ensures NoEarlierRule(parentFile, screenPostType) && AdvancedPage(parentFile, screenId) ==> r == AdvancedMenu
    ensures NoEarlierRule(parentFile, screenPostType) && !AdvancedPage(parentFile, screenId) ==> r == parentFile
  {
    if ContentScreen(screenPostType) then ContentMenu
    else if parentFile == "edit.php" then ContentMenu
    else if parentFile in SettingsPages then SettingsMenu
    else if parentFile in AdvancedPages then AdvancedMenu
    else if Contains(parentFile, "payments") || Contains(parentFile, "Payments") then AdvancedMenu
    else if screenId.Some? && Contains(screenId.value, "woocommerce") then AdvancedMenu
    else parentFile
  }

  /**
   * Each page the reorganisations move keeps its new parent highlighted: the five settings
   * pages under Site Settings, and every slug the Advanced sweeps remove under Advanced,
   * whatever the screen's id, as long as the screen is not a content type.
   */
  lemma MovedPagesHighlightTheirParent(screenPostType: Option<string>, screenId: Option<string>)
    requires !ContentScreen(screenPostType)
    ensures forall p :: p in SettingsPages ==> AdjustParentFile(p, screenPostType, screenId) == SettingsMenu
    ensures forall p :: p in PaymentSlugs + SnippetsSlugs + AltTextSlugs + ExportSlugs ==>
      AdjustParentFile(p, screenPostType, screenId) == AdvancedMenu
  {
    forall p | p in PaymentSlugs + SnippetsSlugs + AltTextSlugs + ExportSlugs
      ensures AdjustParentFile(p, screenPostType, screenId) == AdvancedMenu
    {
      NoDotNoPhp(p);
    }
  }

  /** A moved slug is an Advanced page that no earlier rule claims: the `.php` pages all have a dot, the moved slugs none. */
  lemma NoDotNoPhp(p: string)
    requires p in PaymentSlugs + SnippetsSlugs + AltTextSlugs + ExportSlugs
    ensures p in AdvancedPages && p != "edit.php" && p !in SettingsPages
  {
    MovedSlugsAreAdvancedPages();
    PhpPagesHaveADot();
    MovedSlugsHaveNoDot(p);
  }

  /** The four moved lists sit, whole, inside the Advanced list. */
  lemma MovedSlugsAreAdvancedPages()
    ensures AdvancedPages ==
      AdvancedPages[..4] + SnippetsSlugs + AltTextSlugs + [AdvancedPages[11]] + ExportSlugs + [AdvancedPages[15]] + PaymentSlugs
  {
  }

  lemma PhpPagesHaveADot()
    ensures '.' in "edit.php" && forall q :: q in SettingsPages ==> '.' in q
  {
    assert "edit.php"[4] == '.';
    assert forall i :: 0 <= i < |SettingsPages| ==> SettingsPages[i][|SettingsPages[i]| - 4] == '.';
  }

  lemma MovedSlugsHaveNoDot(p: string)
    requires p in PaymentSlugs + SnippetsSlugs + AltTextSlugs + ExportSlugs
    ensures '.' !in p
  {
    PaymentSlugsDotless();
    SnippetsSlugsDotless();
    AltTextSlugsDotless();
    ExportSlugsDotless();
  }

  predicate Dotless(slugs: seq<string>) {
    forall p :: p in slugs ==> '.' !in p
  }

  lemma PaymentSlugsDotless() ensures Dotless(PaymentSlugs) { }
  lemma SnippetsSlugsDotless() ensures Dotless(SnippetsSlugs) { }
  lemma AltTextSlugsDotless() ensures Dotless(AltTextSlugs) { }
  lemma ExportSlugsDotless() ensures Dotless(ExportSlugs) { }

  // ---------------------------------------------------------------------------------------
  // The first-match sweeps over `$menu` (loops that stop at the first hit)

  datatype Rule = PeopleRule | PaymentsRule | SnippetsRule | AltTextRule | ExportRule

  /** The title test of each sweep; an item without a title never matches. */
  predicate Matches(rule: Rule, x: MenuItem) {
    x.title.Some? &&
    var t := x.title.value;
    match rule
    case PeopleRule => ContainsCI(t, "People")
    case PaymentsRule => Contains(t, "Payments") || Contains(t, "payments")
    case SnippetsRule => ContainsCI(t, "Snippets")
    case AltTextRule => ContainsCI(t, "AltText") || ContainsCI(t, "Alt Text") || ContainsCI(t, "atai")
    case ExportRule =>
      ContainsCI(t, "All Export") || (ContainsCI(t, "Export") && x.slug.Some? && ContainsCI(x.slug.value, "pmxe"))
  }

  function FirstMatch(menu: Slots, rule: Rule): (r: Option<nat>)
    ensures r.Some? ==> r.value < |menu| && Matches(rule, menu[r.value].1)
    ensures r.Some? ==> forall j :: 0 <= j < r.value ==> !Matches(rule, menu[j].1)
    ensures r.None? ==> forall j :: 0 <= j < |menu| ==> !Matches(rule, menu[j].1)
  {
    if menu == [] then None
    else if Matches(rule, menu[0].1) then Some(0)
    else
      match FirstMatch(menu[1..], rule)
      case None => None
      case Some(i) => Some(i + 1)
  }

  /** The submenu entry a sweep adds: its title, and the capability and slug used when the item has none. */
  datatype Move = Move(parent: string, title: string, defaultCap: string, defaultSlug: string)

  function OrElse(x: Option<string>, d: string): string {
    if x.Some? then x.value else d
  }

  /** `add_submenu_page( parent, title, title, isset($item[1]) ? $item[1] : cap, isset($item[2]) ? $item[2] : slug )`. */
  function MovedItem(x: MenuItem, mv: Move): MenuItem {
    MenuItem(Some(mv.title), Some(OrElse(x.cap, mv.defaultCap)), Some(OrElse(x.slug, mv.defaultSlug)))
  }

  /** What a sweep does with its hit `e`: optionally add a submenu entry for it, optionally unset it. */
  function ApplyHit(st: MenuState, e: (int, MenuItem), add: Option<Move>, unsetHit: bool): MenuState {
    var s1 := if add.Some? then AddSubmenuPage(st, add.value.parent, MovedItem(e.1, add.value)) else st;
    if unsetHit then UnsetMenuKey(s1, e.0) else s1
  }

  /** The effect of a first-match sweep: the first matching slot, if any, is the hit. */
  function MoveFirstMatch(st: MenuState, rule: Rule, add: Option<Move>, unsetHit: bool): MenuState {
    match FirstMatch(st.menu, rule)
    case None => st
    case Some(i) => ApplyHit(st, st.menu[i], add, unsetHit)
  }

  /**
   * A removing sweep takes out the first matching item and nothing else: every other item,
   * later matches included, stays in place.
   */
  lemma OnlyFirstMatchRemoved(st: MenuState, rule: Rule, add: Option<Move>)
    requires KeysDistinct(st.menu)
    ensures FirstMatch(st.menu, rule).None? ==> MoveFirstMatch(st, rule, add, true).menu == st.menu
    ensures FirstMatch(st.menu, rule).Some? ==>
      var i := FirstMatch(st.menu, rule).value;
      MoveFirstMatch(st, rule, add, true).menu == st.menu[..i] + st.menu[i + 1..]
  {
    if FirstMatch(st.menu, rule).Some? {
      UnsetKeyRemovesOnly(st.menu, FirstMatch(st.menu, rule).value);
    }
  }

  lemma {:induction false} FirstMatchAt(menu: Slots, rule: Rule, i: nat)
    requires i < |menu| && Matches(rule, menu[i].1)
    requires forall j :: 0 <= j < i ==> !Matches(rule, menu[j].1)
    ensures FirstMatch(menu, rule) == Some(i)
    decreases i
  {
    if i > 0 {
      FirstMatchAt(menu[1..], rule, i - 1);
    }
  }

  method ApplyHitCall(m: AdminMenu, e: (int, MenuItem), add: Option<Move>, unsetHit: bool)
    modifies m
    ensures m.State() == ApplyHit(old(m.State()), e, add, unsetHit)
  {
    if add.Some? {
      m.AddSubmenuPageCall(add.value.parent, MovedItem(e.1, add.value));
    }
    if unsetHit {
      m.UnsetMenuKeyCall(e.0);
    }
  }

  /** A `foreach ( $menu as $key => $item )` that handles the first matching item and then breaks. */
  method SweepFirst(m: AdminMenu, rule: Rule, add: Option<Move>, unsetHit: bool) returns (found: bool)
    modifies m
    ensures found <==> FirstMatch(old(m.menu), rule).Some?
    ensures m.State() == MoveFirstMatch(old(m.State()), rule, add, unsetHit)
  {
    var snapshot := m.menu;
    var i := 0;
    while i < |snapshot|
      invariant 0 <= i <= |snapshot|
      invariant forall j :: 0 <= j < i ==> !Matches(rule, snapshot[j].1)
      invariant m.State() == old(m.State())
    {
      if Matches(rule, snapshot[i].1) {
        FirstMatchAt(snapshot, rule, i);
        ApplyHitCall(m, snapshot[i], add, unsetHit);
        return true;
      }
      i := i + 1;
    }
    return false;
  }

  // ---------------------------------------------------------------------------------------
  // The Analytics sweep (no break; removal through remove_menu_page)

  /** `isset( $item[0] ) && strpos( $item[0], 'Analytics' ) !== false`: case-sensitive. */
  predicate AnalyticsMatch(x: MenuItem) {
    x.title.Some? && Contains(x.title.value, "Analytics")
  }

  /** The Analytics loop over the snapshot `snap`: each hit is added under Advanced, then its slug is removed. */
  function AnalyticsFold(snap: Slots, st: MenuState): MenuState
    decreases |snap|
  {
    if snap == [] then st
    else
      var s := AnalyticsFold(snap[..|snap| - 1], st);
      var x := snap[|snap| - 1].1;
      if AnalyticsMatch(x) then
        RemoveMenuPage(AddSubmenuPage(s, AdvancedMenu, MenuItem(Some("Analytics"), x.cap, x.slug)), x.slug)
      else s
  }

  method AnalyticsSweep(m: AdminMenu)
    modifies m
    ensures m.State() == AnalyticsFold(old(m.menu), old(m.State()))
  {
    var snapshot := m.menu;
    var i := 0;
    while i < |snapshot|
      invariant 0 <= i <= |snapshot|
      invariant m.State() == AnalyticsFold(snapshot[..i], old(m.State()))
    {
      assert snapshot[..i + 1][..i] == snapshot[..i];
      var x := snapshot[i].1;
      if AnalyticsMatch(x) {
        m.AddSubmenuPageCall(AdvancedMenu, MenuItem(Some("Analytics"), x.cap, x.slug));
        m.RemoveMenuPageCall(x.slug);
      }
      i := i + 1;
    }
    assert snapshot[..|snapshot|] == snapshot;
  }

  predicate SlugsDistinct(s: Slots) {
    forall i, j :: 0 <= i < j < |s| ==> s[i].1.slug != s[j].1.slug
  }



  /** `remove_menu_page` of a slug that first occurs at slot `|kept|` removes that slot. */
  lemma RemoveSlugAfter(s: MenuState, kept: Slots, x: (int, MenuItem), rest: Slots)
    requires s.menu == kept + ([x] + rest)
    requires forall j :: 0 <= j < |kept| ==> kept[j].1.slug != x.1.slug
    ensures RemoveMenuPage(s, x.1.slug).menu == kept + rest
  {
    assert s.menu[|kept|] == x;
    forall j | 0 <= j < |kept| ensures s.menu[j].1.slug != x.1.slug {
      assert s.menu[j] == kept[j];
    }
    assert SlugIndex(s.menu, x.1.slug) == Some(|kept|);
    assert s.menu[..|kept|] == kept;
    assert s.menu[|kept| + 1..] == rest;
  }



  lemma {:induction false} AnalyticsFoldPrefix(snap: Slots, st: MenuState, i: nat)
    requires st.menu == snap && SlugsDistinct(snap) && i <= |snap|
    ensures AnalyticsFold(snap[..i], st).menu == KeepUnless(snap[..i], AnalyticsMatch) + snap[i..]
    decreases i
  {
    if i > 0 {
      AnalyticsFoldPrefix(snap, st, i - 1);
      AnalyticsStep(snap, st, i);
    }
  }

  /** The fold's invariant carries from the first `i - 1` slots to the first `i`. */
  lemma AnalyticsStep(snap: Slots, st: MenuState, i: nat)
    requires SlugsDistinct(snap) && 0 < i <= |snap|
    requires AnalyticsFold(snap[..i - 1], st).menu == KeepUnless(snap[..i - 1], AnalyticsMatch) + snap[i - 1..]
    ensures AnalyticsFold(snap[..i], st).menu == KeepUnless(snap[..i], AnalyticsMatch) + snap[i..]
  {
    assert snap[..i][..i - 1] == snap[..i - 1];
    assert snap[i - 1..] == [snap[i - 1]] + snap[i..];
    var kept := KeepUnless(snap[..i - 1], AnalyticsMatch);
    if AnalyticsMatch(snap[i - 1].1) {
      KeptSlugsDiffer(snap, i - 1);
      AnalyticsStepMoves(snap, st, i, kept);
    } else {
      AnalyticsStepKeeps(snap, st, i, kept);
    }
  }

  /** One slot that does not match: the fold leaves the menu alone and the slot stays kept. */
  lemma AnalyticsStepKeeps(snap: Slots, st: MenuState, i: nat, kept: Slots)
    requires 0 < i <= |snap| && !AnalyticsMatch(snap[i - 1].1)
    requires snap[..i][..i - 1] == snap[..i - 1] && kept == KeepUnless(snap[..i - 1], AnalyticsMatch)
    requires AnalyticsFold(snap[..i - 1], st).menu == kept + ([snap[i - 1]] + snap[i..])
    ensures AnalyticsFold(snap[..i], st).menu == KeepUnless(snap[..i], AnalyticsMatch) + snap[i..]
  {
    assert KeepUnless(snap[..i], AnalyticsMatch) == kept + [snap[i - 1]];
    assert kept + ([snap[i - 1]] + snap[i..]) == kept + [snap[i - 1]] + snap[i..];
  }

  /** With distinct slugs, no slot kept from before slot `k` has the slug of slot `k`. */
  lemma KeptSlugsDiffer(snap: Slots, k: nat)
    requires SlugsDistinct(snap) && k < |snap|
    ensures forall j :: 0 <= j < |KeepUnless(snap[..k], AnalyticsMatch)| ==>
      KeepUnless(snap[..k], AnalyticsMatch)[j].1.slug != snap[k].1.slug
  {
    forall j | 0 <= j < |KeepUnless(snap[..k], AnalyticsMatch)|
      ensures KeepUnless(snap[..k], AnalyticsMatch)[j].1.slug != snap[k].1.slug
    {
      KeptFromPrefix(snap, k, AnalyticsMatch, j);
    }
  }

  /** One matching slot: it is added under Advanced and then removed from where it stood. */
  lemma AnalyticsStepMoves(snap: Slots, st: MenuState, i: nat, kept: Slots)
    requires 0 < i <= |snap| && AnalyticsMatch(snap[i - 1].1)
    requires snap[..i][..i - 1] == snap[..i - 1] && kept == KeepUnless(snap[..i - 1], AnalyticsMatch)
    requires AnalyticsFold(snap[..i - 1], st).menu == kept + ([snap[i - 1]] + snap[i..])
    requires forall j :: 0 <= j < |kept| ==> kept[j].1.slug != snap[i - 1].1.slug
    ensures AnalyticsFold(snap[..i], st).menu == KeepUnless(snap[..i], AnalyticsMatch) + snap[i..]
  {
    var x := snap[i - 1];
    var s := AnalyticsFold(snap[..i - 1], st);
    var s1 := AddSubmenuPage(s, AdvancedMenu, MenuItem(Some("Analytics"), x.1.cap, x.1.slug));
    assert AnalyticsFold(snap[..i], st) == RemoveMenuPage(s1, x.1.slug);
    RemoveSlugAfter(s1, kept, x, snap[i..]);
  }

  /**
   * With distinct slugs every item whose title contains "Analytics" (case-sensitively) is
   * moved, and every other item stays, in order.
   */
  lemma AnalyticsMovesEveryMatch(st: MenuState)
    requires SlugsDistinct(st.menu)
    ensures AnalyticsFold(st.menu, st).menu == KeepUnless(st.menu, AnalyticsMatch)
  {
    AnalyticsFoldPrefix(st.menu, st, |st.menu|);
    assert st.menu[..|st.menu|] == st.menu;
  }

  // ---------------------------------------------------------------------------------------
  // The keyword sweep (lines 528-557)

  predicate HasKeyword(t: string) {
    exists j :: 0 <= j < |PluginKeywords| && ContainsCI(t, PluginKeywords[j])
  }

  /** Titled, slugged, not a core menu, and its title contains a plugin keyword (any case). */
  predicate KeywordMoved(x: MenuItem) {
    x.title.Some? && x.slug.Some? && x.slug.value !in CoreMenus && HasKeyword(x.title.value)
  }

  /** The keyword loop over the snapshot `snap`: each hit is added under Advanced under its own title, then unset. */
  function KeywordFold(snap: Slots, st: MenuState): MenuState
    decreases |snap|
  {
    if snap == [] then st
    else
      var s := KeywordFold(snap[..|snap| - 1], st);
      var e := snap[|snap| - 1];
      if KeywordMoved(e.1) then
        UnsetMenuKey(AddSubmenuPage(s, AdvancedMenu, MenuItem(e.1.title, e.1.cap, e.1.slug)), e.0)
      else s
  }

  method KeywordSweep(m: AdminMenu)
    modifies m
    ensures m.State() == KeywordFold(old(m.menu), old(m.State()))
  {
    var snapshot := m.menu;
    var i := 0;
    while i < |snapshot|
      invariant 0 <= i <= |snapshot|
      invariant m.State() == KeywordFold(snapshot[..i], old(m.State()))
    {
      assert snapshot[..i + 1][..i] == snapshot[..i];
      var (key, item) := snapshot[i];
      if item.title.Some? && item.slug.Some? && item.slug.value !in CoreMenus {
        var k := 0;
        while k < |PluginKeywords|
          invariant 0 <= k <= |PluginKeywords|
          invariant forall j :: 0 <= j < k ==> !ContainsCI(item.title.value, PluginKeywords[j])
          invariant m.State() == KeywordFold(snapshot[..i], old(m.State()))
        {
          if ContainsCI(item.title.value, PluginKeywords[k]) {
            m.AddSubmenuPageCall(AdvancedMenu, MenuItem(item.title, item.cap, item.slug));
            m.UnsetMenuKeyCall(key);
            assert KeywordMoved(item);
            break;
          }
          k := k + 1;
        }
      }
      i := i + 1;
    }
    assert snapshot[..|snapshot|] == snapshot;
  }

  lemma {:induction false} KeywordFoldPrefix(snap: Slots, st: MenuState, i: nat)
    requires st.menu == snap && KeysDistinct(snap) && i <= |snap|
    ensures KeywordFold(snap[..i], st).menu == KeepUnless(snap[..i], KeywordMoved) + snap[i..]
    decreases i
  {
    if i > 0 {
      var k := i - 1;
      KeywordFoldPrefix(snap, st, k);
      assert snap[..i][..k] == snap[..k];
      var kept := KeepUnless(snap[..k], KeywordMoved);
      var e := snap[k];
      if KeywordMoved(e.1) {
        UnsetKeyAfterKept(snap, k, KeywordMoved);
      } else {
        assert KeepUnless(snap[..i], KeywordMoved) == kept + [e];
        ShiftOne(kept, snap, k);
      }
    }
  }

  lemma ShiftOne(p: Slots, s: Slots, k: nat)
    requires k < |s|
    ensures p + s[k..] == (p + [s[k]]) + s[k + 1..]
  {
    assert s[k..] == [s[k]] + s[k + 1..];
  }

  /**
   * The keyword sweep removes exactly the items with a title, a slug outside the core
   * menus and a keyword in the title; every other item stays, in order.
   */
  lemma KeywordSweepRemovesExactlyMatches(st: MenuState)
    requires KeysDistinct(st.menu)
    ensures KeywordFold(st.menu, st).menu == KeepUnless(st.menu, KeywordMoved)
    ensures forall e :: e in st.menu && (e.1.title.None? || e.1.slug.None? || e.1.slug.value in CoreMenus) ==>
      e in KeywordFold(st.menu, st).menu
  {
    KeywordFoldPrefix(st.menu, st, |st.menu|);
    assert st.menu[..|st.menu|] == st.menu;
    KeepUnlessMembers(st.menu, KeywordMoved);
  }

  // ---------------------------------------------------------------------------------------
  // Plain removals and the placeholder entry

  /** `remove_menu_page` for each slug in turn. */
  function RemoveMenuPages(st: MenuState, slugs: seq<string>): (r: MenuState)
    ensures r.submenu == st.submenu
    decreases |slugs|
  {
    if slugs == [] then st
    else RemoveMenuPage(RemoveMenuPages(st, slugs[..|slugs| - 1]), Some(slugs[|slugs| - 1]))
  }

  method RemoveMenuPagesLoop(m: AdminMenu, slugs: seq<string>)
    modifies m
    ensures m.State() == RemoveMenuPages(old(m.State()), slugs)
  {
    var i := 0;
    while i < |slugs|
      invariant 0 <= i <= |slugs|
      invariant m.State() == RemoveMenuPages(old(m.State()), slugs[..i])
    {
      assert slugs[..i + 1][..i] == slugs[..i];
      m.RemoveMenuPageCall(Some(slugs[i]));
      i := i + 1;
    }
    assert slugs[..|slugs|] == slugs;
  }

  /** `unset( $submenu[parent][0] )` when the parent has a non-empty submenu. */
  function RemovePlaceholder(st: MenuState, parent: string): (r: MenuState)
    ensures r == UnsetSubmenuKey(st, parent, 0)
  {
    if parent in st.submenu && st.submenu[parent].slots != [] then UnsetSubmenuKey(st, parent, 0) else st
  }

  method RemovePlaceholderCall(m: AdminMenu, parent: string)
    modifies m
    ensures m.State() == RemovePlaceholder(old(m.State()), parent)
  {
    if parent in m.submenu && m.submenu[parent].slots != [] {
      m.UnsetSubmenuKeyCall(parent, 0);
    }
  }

  // ---------------------------------------------------------------------------------------
  // The three reorganisations

  /** Which plugins, plugin functions and post types are present. */
  datatype Env = Env(wooCommerce: bool, postTypes: set<string>, wcAdmin: bool, acf: bool,
                     codeSnippets: bool, pmxe: bool, pmxi: bool)

  function Item(title: string, cap: string, slug: string): MenuItem {
    MenuItem(Some(title), Some(cap), Some(slug))
  }

  function Add(st: MenuState, parent: string, title: string, cap: string, slug: string): MenuState {
    AddSubmenuPage(st, parent, Item(title, cap, slug))
  }

  /** The first People post type that exists (the loop with `break` at lines 105-117). */
  function FirstPeopleType(types: seq<string>, postTypes: set<string>): (r: Option<string>)
    ensures r.Some? ==> r.value in types && r.value in postTypes
    ensures r.None? ==> forall t :: t in types ==> t !in postTypes
  {
    if types == [] then None
    else if types[0] in postTypes then Some(types[0])
    else FirstPeopleType(types[1..], postTypes)
  }

  /** The listed People post types that exist, as edit-screen slugs. */
  function ExistingPeopleSlugs(types: seq<string>, postTypes: set<string>): seq<string>
    decreases |types|
  {
    if types == [] then []
    else
      ExistingPeopleSlugs(types[..|types| - 1], postTypes)
      + (if types[|types| - 1] in postTypes then ["edit.php?post_type=" + types[|types| - 1]] else [])
  }

  /** The first `add_submenu_page` calls of `reorganize_admin_menu`: Posts, Pages, Products, Events. */
  function ContentTypeAdds(st: MenuState, env: Env): MenuState {
    var s1 := Add(st, ContentMenu, "Posts", "edit_posts", "edit.php");
    var s2 := Add(s1, ContentMenu, "Pages", "edit_pages", "edit.php?post_type=page");
    var s3 := if env.wooCommerce then Add(s2, ContentMenu, "Products", "edit_products", "edit.php?post_type=product") else s2;
    if "event" in env.postTypes then Add(s3, ContentMenu, "Events", "edit_posts", "edit.php?post_type=event") else s3
  }

  /** The `add_submenu_page` calls of `reorganize_admin_menu` (lines 62-144). */
  function ContentAddsSpec(st: MenuState, env: Env): MenuState {
    var s4 := ContentTypeAdds(st, env);
    var s5 := PeopleAddSpec(s4, env);
    if "tribe_events" in env.postTypes then Add(s5, ContentMenu, "Events", "edit_tribe_events", "edit.php?post_type=tribe_events") else s5
  }

  /** People goes under Content from the first existing People post type, else from the first "People" item. */
  function PeopleAddSpec(st: MenuState, env: Env): MenuState {
    match FirstPeopleType(PeoplePostTypes, env.postTypes)
    case Some(t) => Add(st, ContentMenu, "People", "edit_posts", "edit.php?post_type=" + t)
    case None => MoveFirstMatch(st, PeopleRule, Some(Move(ContentMenu, "People", "edit_posts", "edit.php?post_type=people")), false)
  }

  /** The removals of `reorganize_admin_menu` (lines 147-185). */
  function ContentRemovalsSpec(st: MenuState, env: Env): MenuState {
    var s1 := RemoveMenuPage(RemoveMenuPage(st, Some("edit.php")), Some("edit.php?post_type=page"));
    var s2 := if env.wooCommerce then RemoveMenuPage(s1, Some("edit.php?post_type=product")) else s1;
    var s3 := if "event" in env.postTypes then RemoveMenuPage(s2, Some("edit.php?post_type=event")) else s2;
    var s4 := if "tribe_events" in env.postTypes then RemoveMenuPage(s3, Some("edit.php?post_type=tribe_events")) else s3;
    var s5 := RemoveMenuPages(s4, ExistingPeopleSlugs(PeoplePostTypes, env.postTypes));
    var s6 := MoveFirstMatch(s5, PeopleRule, None, true);
    RemovePlaceholder(s6, ContentMenu)
  }

  function ReorganizeAdminMenuSpec(st: MenuState, env: Env): MenuState {
    ContentRemovalsSpec(ContentAddsSpec(st, env), env)
  }

  lemma {:induction false} FirstPeopleTypeAt(types: seq<string>, postTypes: set<string>, i: nat)
    requires i < |types| && types[i] in postTypes
    requires forall j :: 0 <= j < i ==> types[j] !in postTypes
    ensures FirstPeopleType(types, postTypes) == Some(types[i])
    decreases i
  {
    if i > 0 {
      FirstPeopleTypeAt(types[1..], postTypes, i - 1);
    }
  }

  /** Lines 102-133: the post-type loop with `break`, then the menu search when no type exists. */
  method AddPeople(m: AdminMenu, env: Env)
    modifies m
    ensures m.State() == PeopleAddSpec(old(m.State()), env)
  {
    var i := 0;
    while i < |PeoplePostTypes|
      invariant 0 <= i <= |PeoplePostTypes|
      invariant forall j :: 0 <= j < i ==> PeoplePostTypes[j] !in env.postTypes
      invariant m.State() == old(m.State())
    {
      var t := PeoplePostTypes[i];
      if t in env.postTypes {
        FirstPeopleTypeAt(PeoplePostTypes, env.postTypes, i);
        m.AddSubmenuPageCall(ContentMenu, Item("People", "edit_posts", "edit.php?post_type=" + t));
        return;
      }
      i := i + 1;
    }
    var _ := SweepFirst(m, PeopleRule, Some(Move(ContentMenu, "People", "edit_posts", "edit.php?post_type=people")), false);
  }

  /** Lines 164-170: `remove_menu_page` for each People post type that exists. */
  method RemovePeopleTypes(m: AdminMenu, env: Env)
    modifies m
    ensures m.State() == RemoveMenuPages(old(m.State()), ExistingPeopleSlugs(PeoplePostTypes, env.postTypes))
  {
    var i := 0;
    while i < |PeoplePostTypes|
      invariant 0 <= i <= |PeoplePostTypes|
      invariant m.State() == RemoveMenuPages(old(m.State()), ExistingPeopleSlugs(PeoplePostTypes[..i], env.postTypes))
    {
      RemovePeopleStep(old(m.State()), PeoplePostTypes, env.postTypes, i);
      var t := PeoplePostTypes[i];
      if t in env.postTypes {
        m.RemoveMenuPageCall(Some("edit.php?post_type=" + t));
      }
      i := i + 1;
    }
    assert PeoplePostTypes[..|PeoplePostTypes|] == PeoplePostTypes;
  }

  /** One turn of the loop above: the next existing type's page is removed, a missing type changes nothing. */
  lemma RemovePeopleStep(st: MenuState, types: seq<string>, postTypes: set<string>, i: nat)
    requires i < |types|
    ensures var before := RemoveMenuPages(st, ExistingPeopleSlugs(types[..i], postTypes));
      RemoveMenuPages(st, ExistingPeopleSlugs(types[..i + 1], postTypes)) ==
        if types[i] in postTypes then RemoveMenuPage(before, Some("edit.php?post_type=" + types[i])) else before
  {
    assert types[..i + 1][..i] == types[..i];
    var slugs := ExistingPeopleSlugs(types[..i], postTypes);
    if types[i] in postTypes {
      assert (slugs + ["edit.php?post_type=" + types[i]])[..|slugs|] == slugs;
    } else {
      assert slugs + [] == slugs;
    }
  }

  method AddContentItems(m: AdminMenu, env: Env)
    modifies m
    ensures m.State() == ContentAddsSpec(old(m.State()), env)
  {
    m.AddSubmenuPageCall(ContentMenu, Item("Posts", "edit_posts", "edit.php"));
    m.AddSubmenuPageCall(ContentMenu, Item("Pages", "edit_pages", "edit.php?post_type=page"));
    if env.wooCommerce {
      m.AddSubmenuPageCall(ContentMenu, Item("Products", "edit_products", "edit.php?post_type=product"));
    }
    if "event" in env.postTypes {
      m.AddSubmenuPageCall(ContentMenu, Item("Events", "edit_posts", "edit.php?post_type=event"));
    }
    AddPeople(m, env);
    if "tribe_events" in env.postTypes {
      m.AddSubmenuPageCall(ContentMenu, Item("Events", "edit_tribe_events", "edit.php?post_type=tribe_events"));
    }
  }

  method RemoveContentOriginals(m: AdminMenu, env: Env)
    modifies m
    ensures m.State() == ContentRemovalsSpec(old(m.State()), env)
  {
    m.RemoveMenuPageCall(Some("edit.php"));
    m.RemoveMenuPageCall(Some("edit.php?post_type=page"));
    if env.wooCommerce {
      m.RemoveMenuPageCall(Some("edit.php?post_type=product"));
    }
    if "event" in env.postTypes {
      m.RemoveMenuPageCall(Some("edit.php?post_type=event"));
    }
    if "tribe_events" in env.postTypes {
      m.RemoveMenuPageCall(Some("edit.php?post_type=tribe_events"));
    }
    RemovePeopleTypes(m, env);
    var _ := SweepFirst(m, PeopleRule, None, true);
    RemovePlaceholderCall(m, ContentMenu);
  }

  /** `reorganize_admin_menu`. */
  method ReorganizeAdminMenu(m: AdminMenu, env: Env)
    modifies m
    ensures m.State() == ReorganizeAdminMenuSpec(old(m.State()), env)
  {
    AddContentItems(m, env);
    RemoveContentOriginals(m, env);
  }

  /** The People entry the reorganisation puts under Content: from the post type, else from the first "People" item. */
  function PeopleEntry(menu: Slots, env: Env): seq<MenuItem> {
    match FirstPeopleType(PeoplePostTypes, env.postTypes)
    case Some(t) => [Item("People", "edit_posts", "edit.php?post_type=" + t)]
    case None =>
      match FirstMatch(menu, PeopleRule)
      case None => []
      case Some(i) => [MovedItem(menu[i].1, Move(ContentMenu, "People", "edit_posts", "edit.php?post_type=people"))]
  }

  /** Posts and Pages, then Products and Events where they exist. */
  function ContentTypeItems(env: Env): seq<MenuItem> {
    [Item("Posts", "edit_posts", "edit.php"), Item("Pages", "edit_pages", "edit.php?post_type=page")]
    + (if env.wooCommerce then [Item("Products", "edit_products", "edit.php?post_type=product")] else [])
    + (if "event" in env.postTypes then [Item("Events", "edit_posts", "edit.php?post_type=event")] else [])
  }

  /** The entries of the Content menu, in order, for a top-level menu and an environment. */
  function ContentItems(menu: Slots, env: Env): seq<MenuItem> {
    ContentTypeItems(env)
    + PeopleEntry(menu, env)
    + (if "tribe_events" in env.postTypes then [Item("Events", "edit_tribe_events", "edit.php?post_type=tribe_events")] else [])
  }

  /**
   * Under a fresh Content parent whose own top-level item is the only one with its slug,
   * `reorganize_admin_menu` leaves exactly the Content entries, in order, at keys 1, 2, ...:
   * Posts, Pages, then Products, Events, People and the Events Calendar's events where they
   * apply. The copied parent link at key 0 is what the placeholder removal takes out.
   */
  lemma ContentSubmenuIsTheContentItems(st: MenuState, env: Env, link: MenuItem)
    requires ContentMenu !in st.submenu
    requires ParentLinks(st.menu, ContentMenu) == [link]
    ensures var r := ReorganizeAdminMenuSpec(st, env);
      ContentMenu in r.submenu && r.submenu[ContentMenu] == PushAll(SubList([], 1), ContentItems(st.menu, env))
  {
    var items := ContentItems(st.menu, env);
    var s := ContentAddsSpec(st, env);
    ContentAddsRun(st, env, link);
    ContentRemovalsUnsetPlaceholder(s, env);
    UnsetLinkBeforeRun(link, items);
  }

  /** The adds of `reorganize_admin_menu` append the Content entries after the parent link. */
  lemma ContentAddsRun(st: MenuState, env: Env, link: MenuItem)
    requires ContentMenu !in st.submenu
    requires ParentLinks(st.menu, ContentMenu) == [link]
    ensures var s := ContentAddsSpec(st, env);
      && s.menu == st.menu && ContentMenu in s.submenu
      && s.submenu[ContentMenu] == PushAll(SubList([(0, link)], 1), ContentItems(st.menu, env))
  {
    var base := SubList([(0, link)], 1);
    var s4 := ContentTypeAdds(st, env);
    var xs4 := ContentTypeItems(env);
    ContentTypeAddsRun(st, env, link);
    var s5 := PeopleAddSpec(s4, env);
    var xs5 := xs4 + PeopleEntry(st.menu, env);
    PeopleAddsEntry(s4, env, base, xs4);
    var tribe := Item("Events", "edit_tribe_events", "edit.php?post_type=tribe_events");
    var xs6 := xs5 + (if "tribe_events" in env.postTypes then [tribe] else []);
    if "tribe_events" in env.postTypes {
      AddExtendsRun(s5, ContentMenu, base, xs5, tribe);
    } else {
      assert xs6 == xs5;
    }
  }

  lemma ContentTypeAddsRun(st: MenuState, env: Env, link: MenuItem)
    requires ContentMenu !in st.submenu
    requires ParentLinks(st.menu, ContentMenu) == [link]
    ensures var s := ContentTypeAdds(st, env);
      && s.menu == st.menu && ContentMenu in s.submenu
      && s.submenu[ContentMenu] == PushAll(SubList([(0, link)], 1), ContentTypeItems(env))
  {
    var base := SubList([(0, link)], 1);
    var posts, pages := Item("Posts", "edit_posts", "edit.php"), Item("Pages", "edit_pages", "edit.php?post_type=page");
    var s1 := Add(st, ContentMenu, "Posts", "edit_posts", "edit.php");
    FirstSubmenuPageGetsParentLink(st, ContentMenu, posts, link);
    assert s1.submenu[ContentMenu] == PushAll(base, [posts]);
    var s2 := Add(s1, ContentMenu, "Pages", "edit_pages", "edit.php?post_type=page");
    AddExtendsRun(s1, ContentMenu, base, [posts], pages);
    var xs2 := [posts, pages];
    assert [posts] + [pages] == xs2;
    var products := Item("Products", "edit_products", "edit.php?post_type=product");
    var s3 := if env.wooCommerce then Add(s2, ContentMenu, "Products", "edit_products", "edit.php?post_type=product") else s2;
    var xs3 := xs2 + (if env.wooCommerce then [products] else []);
    if env.wooCommerce { AddExtendsRun(s2, ContentMenu, base, xs2, products); } else { assert xs3 == xs2; }
    var events := Item("Events", "edit_posts", "edit.php?post_type=event");
    var xs4 := xs3 + (if "event" in env.postTypes then [events] else []);
    if "event" in env.postTypes { AddExtendsRun(s3, ContentMenu, base, xs3, events); } else { assert xs4 == xs3; }
  }

  /** The People step appends the People entry, if any, and leaves the top-level menu alone. */
  lemma PeopleAddsEntry(s: MenuState, env: Env, base: SubList, xs: seq<MenuItem>)
    requires ContentMenu in s.submenu && s.submenu[ContentMenu] == PushAll(base, xs)
    ensures var r := PeopleAddSpec(s, env);
      r.menu == s.menu && ContentMenu in r.submenu && r.submenu[ContentMenu] == PushAll(base, xs + PeopleEntry(s.menu, env))
  {
    match FirstPeopleType(PeoplePostTypes, env.postTypes)
    case Some(t) =>
      AddExtendsRun(s, ContentMenu, base, xs, Item("People", "edit_posts", "edit.php?post_type=" + t));
    case None =>
      match FirstMatch(s.menu, PeopleRule)
      case None =>
        assert xs + [] == xs;
      case Some(i) =>
        AddExtendsRun(s, ContentMenu, base, xs, MovedItem(s.menu[i].1, Move(ContentMenu, "People", "edit_posts", "edit.php?post_type=people")));
  }

  /** The removals of `reorganize_admin_menu` change the submenus only by unsetting Content's key 0. */
  lemma ContentRemovalsUnsetPlaceholder(s: MenuState, env: Env)
    ensures ContentRemovalsSpec(s, env).submenu == UnsetSubmenuKey(s, ContentMenu, 0).submenu
  {
    var s1 := RemoveMenuPage(RemoveMenuPage(s, Some("edit.php")), Some("edit.php?post_type=page"));
    var s2 := if env.wooCommerce then RemoveMenuPage(s1, Some("edit.php?post_type=product")) else s1;
    var s3 := if "event" in env.postTypes then RemoveMenuPage(s2, Some("edit.php?post_type=event")) else s2;
    var s4 := if "tribe_events" in env.postTypes then RemoveMenuPage(s3, Some("edit.php?post_type=tribe_events")) else s3;
    var s5 := RemoveMenuPages(s4, ExistingPeopleSlugs(PeoplePostTypes, env.postTypes));
    assert s4.submenu == s.submenu;
    RemovingSweepKeepsSubmenus(s5, PeopleRule);
  }

  /** A sweep that only unsets its hit leaves every submenu as it was. */
  lemma RemovingSweepKeepsSubmenus(s: MenuState, rule: Rule)
    ensures MoveFirstMatch(s, rule, None, true).submenu == s.submenu
  {
  }

  function ReorganizeSettingsMenuSpec(st: MenuState): MenuState {
    var s1 := Add(st, SettingsMenu, "Appearance", "switch_themes", "themes.php");
    var s2 := Add(s1, SettingsMenu, "Plugins", "activate_plugins", "plugins.php");
    var s3 := Add(s2, SettingsMenu, "Users", "list_users", "users.php");
    var s4 := Add(s3, SettingsMenu, "Tools", "manage_options", "tools.php");
    var s5 := Add(s4, SettingsMenu, "Settings", "manage_options", "options-general.php");
    var s6 := RemoveMenuPage(RemoveMenuPage(s5, Some("themes.php")), Some("plugins.php"));
    var s7 := RemoveMenuPage(RemoveMenuPage(RemoveMenuPage(s6, Some("users.php")), Some("tools.php")), Some("options-general.php"));
    RemovePlaceholder(s7, SettingsMenu)
  }

  /** `reorganize_settings_menu`. */
  method ReorganizeSettingsMenu(m: AdminMenu)
    modifies m
    ensures m.State() == ReorganizeSettingsMenuSpec(old(m.State()))
  {
    m.AddSubmenuPageCall(SettingsMenu, Item("Appearance", "switch_themes", "themes.php"));
    m.AddSubmenuPageCall(SettingsMenu, Item("Plugins", "activate_plugins", "plugins.php"));
    m.AddSubmenuPageCall(SettingsMenu, Item("Users", "list_users", "users.php"));
    m.AddSubmenuPageCall(SettingsMenu, Item("Tools", "manage_options", "tools.php"));
    m.AddSubmenuPageCall(SettingsMenu, Item("Settings", "manage_options", "options-general.php"));
    m.RemoveMenuPageCall(Some("themes.php"));
    m.RemoveMenuPageCall(Some("plugins.php"));
    m.RemoveMenuPageCall(Some("users.php"));
    m.RemoveMenuPageCall(Some("tools.php"));
    m.RemoveMenuPageCall(Some("options-general.php"));
    RemovePlaceholderCall(m, SettingsMenu);
  }

  /**
   * Under a fresh "Site Settings" parent whose own top-level item is the only one with its
   * slug, the reorganisation leaves exactly the five settings pages, in order, at keys 1-5:
   * the copied parent link at key 0 is the entry the placeholder removal takes out.
   */
  lemma SettingsSubmenuIsTheFivePages(st: MenuState, link: MenuItem)
    requires SettingsMenu !in st.submenu
    requires ParentLinks(st.menu, SettingsMenu) == [link]
    ensures ReorganizeSettingsMenuSpec(st).submenu[SettingsMenu] == SubList(FiveSettingsSlots(), 6)
  {
    SettingsPagesAdded(st, link);
    var s5 := Add(Add(Add(Add(Add(st, SettingsMenu, "Appearance", "switch_themes", "themes.php"),
      SettingsMenu, "Plugins", "activate_plugins", "plugins.php"), SettingsMenu, "Users", "list_users", "users.php"),
      SettingsMenu, "Tools", "manage_options", "tools.php"), SettingsMenu, "Settings", "manage_options", "options-general.php");
    var s6 := RemoveMenuPage(RemoveMenuPage(s5, Some("themes.php")), Some("plugins.php"));
    var s7 := RemoveMenuPage(RemoveMenuPage(RemoveMenuPage(s6, Some("users.php")), Some("tools.php")), Some("options-general.php"));
    assert s7.submenu == s5.submenu;
    PlaceholderIsTheParentLink(s7, link);
  }

  /** The five settings pages, in order, at keys 1-5 after the parent link at key 0. */
  function FiveSettingsSlots(): (r: Slots)
    ensures |r| == 5 && forall i :: 0 <= i < 5 ==> r[i].0 == i + 1
  {
    [(1, Item("Appearance", "switch_themes", "themes.php")),
     (2, Item("Plugins", "activate_plugins", "plugins.php")),
     (3, Item("Users", "list_users", "users.php")),
     (4, Item("Tools", "manage_options", "tools.php")),
     (5, Item("Settings", "manage_options", "options-general.php"))]
  }

  /** The five `add_submenu_page` calls under a fresh parent: its link, then the five pages. */
  lemma SettingsPagesAdded(st: MenuState, link: MenuItem)
    requires SettingsMenu !in st.submenu
    requires ParentLinks(st.menu, SettingsMenu) == [link]
    ensures
      var s5 := Add(Add(Add(Add(Add(st, SettingsMenu, "Appearance", "switch_themes", "themes.php"),
        SettingsMenu, "Plugins", "activate_plugins", "plugins.php"), SettingsMenu, "Users", "list_users", "users.php"),
        SettingsMenu, "Tools", "manage_options", "tools.php"), SettingsMenu, "Settings", "manage_options", "options-general.php");
      SettingsMenu in s5.submenu && s5.submenu[SettingsMenu] == SubList([(0, link)] + FiveSettingsSlots(), 6)
  {
    FirstSubmenuPageGetsParentLink(st, SettingsMenu, Item("Appearance", "switch_themes", "themes.php"), link);
  }

  /** Removing key 0 takes out the copied parent link and keeps the five pages. */
  lemma PlaceholderIsTheParentLink(s7: MenuState, link: MenuItem)
    requires SettingsMenu in s7.submenu && s7.submenu[SettingsMenu] == SubList([(0, link)] + FiveSettingsSlots(), 6)
    ensures RemovePlaceholder(s7, SettingsMenu).submenu[SettingsMenu] == SubList(FiveSettingsSlots(), 6)
  {
    var rest := FiveSettingsSlots();
    UnsetKeyAbsent(rest, 0);
    assert UnsetKey([(0, link)] + rest, 0) == rest;
  }

  /** Lines 297-356: WooCommerce, the Analytics sweep, Marketing, ACF and FileBird. */
  function AdvancedPhase1(st: MenuState, env: Env): MenuState {
    var s1 :=
      if env.wooCommerce then RemoveMenuPage(Add(st, AdvancedMenu, "WooCommerce", "manage_woocommerce", "woocommerce"), Some("woocommerce"))
      else st;
    var s2 := AnalyticsFold(s1.menu, s1);
    var s3 :=
      if env.wcAdmin then RemoveMenuPage(Add(s2, AdvancedMenu, "Marketing", "manage_woocommerce", "wc-admin&path=/marketing"), Some("woocommerce-marketing"))
      else s2;
    var s4 :=
      if env.acf then RemoveMenuPage(Add(s3, AdvancedMenu, "ACF", "manage_options", "edit.php?post_type=acf-field-group"), Some("edit.php?post_type=acf-field-group"))
      else s3;
    RemoveMenuPage(Add(s4, AdvancedMenu, "FileBird", "manage_options", "filebird-settings"), Some("filebird-settings"))
  }

  /** Lines 360-426: Payments and Code Snippets. */
  function AdvancedPhase2(st: MenuState, env: Env): MenuState {
    var s1 := RemoveMenuPages(st, PaymentSlugs);
    var s2 := MoveFirstMatch(s1, PaymentsRule, Some(Move(AdvancedMenu, "Payments", "manage_woocommerce", "wc-admin&path=/payments")), true);
    var s3 := if env.codeSnippets then Add(s2, AdvancedMenu, "Snippets", "manage_options", "snippets") else s2;
    var s4 := RemoveMenuPages(s3, SnippetsSlugs);
    MoveFirstMatch(s4, SnippetsRule, if env.codeSnippets then None else Some(Move(AdvancedMenu, "Snippets", "manage_options", "snippets")), true)
  }

  /** Lines 429-474: AltText.ai (added by the known slug when no item matched) and WP Synchro. */
  function AdvancedPhase3(st: MenuState): MenuState {
    var s1 := RemoveMenuPages(st, AltTextSlugs);
    var s2 := MoveFirstMatch(s1, AltTextRule, Some(Move(AdvancedMenu, "AltText.ai", "manage_options", "atai")), true);
    var s3 := if FirstMatch(s1.menu, AltTextRule).None? then Add(s2, AdvancedMenu, "AltText.ai", "manage_options", "atai") else s2;
    RemoveMenuPage(Add(s3, AdvancedMenu, "WP Synchro", "manage_options", "wpsynchro_menu"), Some("wpsynchro_menu"))
  }

  /** Lines 477-557: All Export, All Import and the keyword sweep. */
  function AdvancedPhase4Moves(st: MenuState, env: Env): MenuState {
    var s1 := if env.pmxe then Add(st, AdvancedMenu, "All Export", "manage_options", "pmxe-admin-export") else st;
    var s2 := RemoveMenuPages(s1, ExportSlugs);
    var s3 := MoveFirstMatch(s2, ExportRule, if env.pmxe then None else Some(Move(AdvancedMenu, "All Export", "manage_options", "pmxe-admin-export")), true);
    var s4 :=
      if env.pmxi then RemoveMenuPage(Add(s3, AdvancedMenu, "All Import", "manage_options", "pmxi-admin-home"), Some("pmxi-admin-home"))
      else s3;
    KeywordFold(s4.menu, s4)
  }

  /** Lines 477-562: the moves above, then the placeholder. */
  function AdvancedPhase4(st: MenuState, env: Env): MenuState {
    RemovePlaceholder(AdvancedPhase4Moves(st, env), AdvancedMenu)
  }

  function ReorganizeAdvancedMenuSpec(st: MenuState, env: Env): MenuState {
    AdvancedPhase4(AdvancedPhase3(AdvancedPhase2(AdvancedPhase1(st, env), env)), env)
  }

  method AdvancedStep1(m: AdminMenu, env: Env)
    modifies m
    ensures m.State() == AdvancedPhase1(old(m.State()), env)
  {
    if env.wooCommerce {
      m.AddSubmenuPageCall(AdvancedMenu, Item("WooCommerce", "manage_woocommerce", "woocommerce"));
      m.RemoveMenuPageCall(Some("woocommerce"));
    }
    AnalyticsSweep(m);
    if env.wcAdmin {
      m.AddSubmenuPageCall(AdvancedMenu, Item("Marketing", "manage_woocommerce", "wc-admin&path=/marketing"));
      m.RemoveMenuPageCall(Some("woocommerce-marketing"));
    }
    if env.acf {
      m.AddSubmenuPageCall(AdvancedMenu, Item("ACF", "manage_options", "edit.php?post_type=acf-field-group"));
      m.RemoveMenuPageCall(Some("edit.php?post_type=acf-field-group"));
    }
    m.AddSubmenuPageCall(AdvancedMenu, Item("FileBird", "manage_options", "filebird-settings"));
    m.RemoveMenuPageCall(Some("filebird-settings"));
  }

  method AdvancedStep2(m: AdminMenu, env: Env)
    modifies m
    ensures m.State() == AdvancedPhase2(old(m.State()), env)
  {
    RemoveMenuPagesLoop(m, PaymentSlugs);
    var _ := SweepFirst(m, PaymentsRule, Some(Move(AdvancedMenu, "Payments", "manage_woocommerce", "wc-admin&path=/payments")), true);
    var snippetsAdded := false;
    if env.codeSnippets {
      m.AddSubmenuPageCall(AdvancedMenu, Item("Snippets", "manage_options", "snippets"));
      snippetsAdded := true;
    }
    RemoveMenuPagesLoop(m, SnippetsSlugs);
    var _ := SweepFirst(m, SnippetsRule, if snippetsAdded then None else Some(Move(AdvancedMenu, "Snippets", "manage_options", "snippets")), true);
  }

  method AdvancedStep3(m: AdminMenu)
    modifies m
    ensures m.State() == AdvancedPhase3(old(m.State()))
  {
    RemoveMenuPagesLoop(m, AltTextSlugs);
    var altTextAdded := SweepFirst(m, AltTextRule, Some(Move(AdvancedMenu, "AltText.ai", "manage_options", "atai")), true);
    if !altTextAdded {
      m.AddSubmenuPageCall(AdvancedMenu, Item("AltText.ai", "manage_options", "atai"));
    }
    m.AddSubmenuPageCall(AdvancedMenu, Item("WP Synchro", "manage_options", "wpsynchro_menu"));
    m.RemoveMenuPageCall(Some("wpsynchro_menu"));
  }

  method AdvancedStep4(m: AdminMenu, env: Env)
    modifies m
    ensures m.State() == AdvancedPhase4(old(m.State()), env)
  {
    var exportAdded := false;
    if env.pmxe {
      m.AddSubmenuPageCall(AdvancedMenu, Item("All Export", "manage_options", "pmxe-admin-export"));
      exportAdded := true;
    }
    RemoveMenuPagesLoop(m, ExportSlugs);
    var _ := SweepFirst(m, ExportRule, if exportAdded then None else Some(Move(AdvancedMenu, "All Export", "manage_options", "pmxe-admin-export")), true);
    if env.pmxi {
      m.AddSubmenuPageCall(AdvancedMenu, Item("All Import", "manage_options", "pmxi-admin-home"));
      m.RemoveMenuPageCall(Some("pmxi-admin-home"));
    }
    KeywordSweep(m);
    RemovePlaceholderCall(m, AdvancedMenu);
  }

  /** `reorganize_advanced_menu`. */
  method ReorganizeAdvancedMenu(m: AdminMenu, env: Env)
    modifies m
    ensures m.State() == ReorganizeAdvancedMenuSpec(old(m.State()), env)
  {
    AdvancedStep1(m, env);
    AdvancedStep2(m, env);
    AdvancedStep3(m);
    AdvancedStep4(m, env);
  }

  // ---------------------------------------------------------------------------------------
  // What ends up under Advanced

  /** Every parent other than Advanced has the same submenu in `t` as in `s`. */
  ghost predicate OthersAsBefore(s: MenuState, t: MenuState) {
    forall p :: p != AdvancedMenu ==> (p in s.submenu <==> p in t.submenu) && (p in s.submenu ==> t.submenu[p] == s.submenu[p])
  }

  /** Advanced's next key, when it has a submenu, is not negative, as PHP's automatic keys are not. */
  predicate NextSound(s: MenuState) {
    AdvancedMenu in s.submenu ==> s.submenu[AdvancedMenu].next >= 0
  }

  /** `t` keeps every Advanced entry of `s` and its next key, and changes no other submenu. */
  ghost predicate AdvancedKept(s: MenuState, t: MenuState) {
    && (NextSound(s) ==> NextSound(t))
    && (AdvancedMenu in s.submenu ==>
          && AdvancedMenu in t.submenu
          && s.submenu[AdvancedMenu].next <= t.submenu[AdvancedMenu].next
          && forall e :: e in s.submenu[AdvancedMenu].slots ==> e in t.submenu[AdvancedMenu].slots)
    && OthersAsBefore(s, t)
  }

  /** Advanced has a submenu whose next key is past the placeholder key 0. */
  predicate AdvancedOpen(s: MenuState) {
    AdvancedMenu in s.submenu && s.submenu[AdvancedMenu].next >= 1
  }

  /** Advanced lists an entry with this title at a key other than the placeholder's. */
  ghost predicate Listed(s: MenuState, title: string) {
    AdvancedMenu in s.submenu &&
    exists e :: e in s.submenu[AdvancedMenu].slots && e.0 != 0 && e.1.title == Some(title)
  }

  lemma KeptTrans(a: MenuState, b: MenuState, c: MenuState)
    requires AdvancedKept(a, b) && AdvancedKept(b, c)
    ensures AdvancedKept(a, c)
  {
  }

  lemma KeptListed(a: MenuState, b: MenuState, title: string)
    requires AdvancedKept(a, b) && Listed(a, title)
    ensures Listed(b, title)
  {
    var e :| e in a.submenu[AdvancedMenu].slots && e.0 != 0 && e.1.title == Some(title);
    assert e in b.submenu[AdvancedMenu].slots;
  }

  /** An `add_submenu_page` under Advanced keeps what was there and lists the new entry once the parent is open. */
  lemma AddKept(s: MenuState, x: MenuItem)
    ensures var t := AddSubmenuPage(s, AdvancedMenu, x);
      && AdvancedKept(s, t) && (NextSound(s) ==> AdvancedOpen(t))
      && (AdvancedOpen(s) && x.title.Some? ==> Listed(t, x.title.value))
  {
    var t := AddSubmenuPage(s, AdvancedMenu, x);
    if AdvancedMenu in s.submenu {
      var l := s.submenu[AdvancedMenu];
      assert t.submenu[AdvancedMenu].slots == l.slots + [(l.next, x)];
      assert (l.next, x) in t.submenu[AdvancedMenu].slots;
    }
  }

  /** Adding and removing a top-level page, as most steps under Advanced do. */
  lemma AddThenRemoveKept(s: MenuState, x: MenuItem, slug: Option<string>)
    ensures var t := RemoveMenuPage(AddSubmenuPage(s, AdvancedMenu, x), slug);
      && AdvancedKept(s, t) && (NextSound(s) ==> AdvancedOpen(t))
      && (AdvancedOpen(s) && x.title.Some? ==> Listed(t, x.title.value))
  {
    AddKept(s, x);
  }

  /** A removing sweep that adds under Advanced, or adds nothing, keeps Advanced's entries. */
  lemma SweepKept(s: MenuState, rule: Rule, add: Option<Move>)
    requires add.None? || add.value.parent == AdvancedMenu
    ensures AdvancedKept(s, MoveFirstMatch(s, rule, add, true))
  {
    match FirstMatch(s.menu, rule)
    case None =>
    case Some(i) =>
      if add.Some? {
        AddKept(s, MovedItem(s.menu[i].1, add.value));
      }
  }

  lemma {:induction false} AnalyticsFoldKept(snap: Slots, s: MenuState)
    ensures AdvancedKept(s, AnalyticsFold(snap, s))
    decreases |snap|
  {
    if snap != [] {
      var t := AnalyticsFold(snap[..|snap| - 1], s);
      AnalyticsFoldKept(snap[..|snap| - 1], s);
      var x := snap[|snap| - 1].1;
      if AnalyticsMatch(x) {
        AddThenRemoveKept(t, MenuItem(Some("Analytics"), x.cap, x.slug), x.slug);
        KeptTrans(s, t, AnalyticsFold(snap, s));
      }
    }
  }

  lemma {:induction false} KeywordFoldKept(snap: Slots, s: MenuState)
    ensures AdvancedKept(s, KeywordFold(snap, s))
    decreases |snap|
  {
    if snap != [] {
      var t := KeywordFold(snap[..|snap| - 1], s);
      KeywordFoldKept(snap[..|snap| - 1], s);
      var e := snap[|snap| - 1];
      if KeywordMoved(e.1) {
        AddKept(t, MenuItem(e.1.title, e.1.cap, e.1.slug));
        KeptTrans(s, t, KeywordFold(snap, s));
      }
    }
  }

  lemma Phase1Kept(st: MenuState, env: Env)
    requires NextSound(st)
    ensures AdvancedKept(st, AdvancedPhase1(st, env)) && AdvancedOpen(AdvancedPhase1(st, env))
  {
    var s1 :=
      if env.wooCommerce then RemoveMenuPage(Add(st, AdvancedMenu, "WooCommerce", "manage_woocommerce", "woocommerce"), Some("woocommerce"))
      else st;
    if env.wooCommerce { AddThenRemoveKept(st, Item("WooCommerce", "manage_woocommerce", "woocommerce"), Some("woocommerce")); }
    var s2 := AnalyticsFold(s1.menu, s1);
    AnalyticsFoldKept(s1.menu, s1);
    KeptTrans(st, s1, s2);
    var s3 :=
      if env.wcAdmin then RemoveMenuPage(Add(s2, AdvancedMenu, "Marketing", "manage_woocommerce", "wc-admin&path=/marketing"), Some("woocommerce-marketing"))
      else s2;
    if env.wcAdmin { AddThenRemoveKept(s2, Item("Marketing", "manage_woocommerce", "wc-admin&path=/marketing"), Some("woocommerce-marketing")); }
    KeptTrans(st, s2, s3);
    var s4 :=
      if env.acf then RemoveMenuPage(Add(s3, AdvancedMenu, "ACF", "manage_options", "edit.php?post_type=acf-field-group"), Some("edit.php?post_type=acf-field-group"))
      else s3;
    if env.acf { AddThenRemoveKept(s3, Item("ACF", "manage_options", "edit.php?post_type=acf-field-group"), Some("edit.php?post_type=acf-field-group")); }
    KeptTrans(st, s3, s4);
    AddThenRemoveKept(s4, Item("FileBird", "manage_options", "filebird-settings"), Some("filebird-settings"));
    KeptTrans(st, s4, AdvancedPhase1(st, env));
  }

  lemma Phase2Kept(st: MenuState, env: Env)
    ensures AdvancedKept(st, AdvancedPhase2(st, env))
    ensures AdvancedOpen(st) && env.codeSnippets ==> Listed(AdvancedPhase2(st, env), "Snippets")
  {
    var s1 := RemoveMenuPages(st, PaymentSlugs);
    var s2 := MoveFirstMatch(s1, PaymentsRule, Some(Move(AdvancedMenu, "Payments", "manage_woocommerce", "wc-admin&path=/payments")), true);
    SweepKept(s1, PaymentsRule, Some(Move(AdvancedMenu, "Payments", "manage_woocommerce", "wc-admin&path=/payments")));
    var s3 := if env.codeSnippets then Add(s2, AdvancedMenu, "Snippets", "manage_options", "snippets") else s2;
    if env.codeSnippets { AddKept(s2, Item("Snippets", "manage_options", "snippets")); }
    KeptTrans(st, s2, s3);
    var s4 := RemoveMenuPages(s3, SnippetsSlugs);
    var add := if env.codeSnippets then None else Some(Move(AdvancedMenu, "Snippets", "manage_options", "snippets"));
    SweepKept(s4, SnippetsRule, add);
    KeptTrans(st, s4, AdvancedPhase2(st, env));
    if AdvancedOpen(st) && env.codeSnippets {
      KeptListed(s3, AdvancedPhase2(st, env), "Snippets");
    }
  }

  lemma Phase3Kept(st: MenuState)
    ensures AdvancedKept(st, AdvancedPhase3(st))
    ensures AdvancedOpen(st) ==> Listed(AdvancedPhase3(st), "AltText.ai") && Listed(AdvancedPhase3(st), "WP Synchro")
  {
    var s1 := RemoveMenuPages(st, AltTextSlugs);
    var mv := Move(AdvancedMenu, "AltText.ai", "manage_options", "atai");
    var s2 := MoveFirstMatch(s1, AltTextRule, Some(mv), true);
    var s3 := if FirstMatch(s1.menu, AltTextRule).None? then Add(s2, AdvancedMenu, "AltText.ai", "manage_options", "atai") else s2;
    match FirstMatch(s1.menu, AltTextRule)
    case None =>
      AddKept(s2, Item("AltText.ai", "manage_options", "atai"));
    case Some(i) =>
      AddKept(s1, MovedItem(s1.menu[i].1, mv));
    AddThenRemoveKept(s3, Item("WP Synchro", "manage_options", "wpsynchro_menu"), Some("wpsynchro_menu"));
    KeptTrans(st, s3, AdvancedPhase3(st));
    if AdvancedOpen(st) {
      KeptListed(s3, AdvancedPhase3(st), "AltText.ai");
    }
  }

  lemma Phase4MovesKept(st: MenuState, env: Env)
    ensures AdvancedKept(st, AdvancedPhase4Moves(st, env))
    ensures AdvancedOpen(st) && env.pmxe ==> Listed(AdvancedPhase4Moves(st, env), "All Export")
    ensures AdvancedOpen(st) && env.pmxi ==> Listed(AdvancedPhase4Moves(st, env), "All Import")
  {
    var s1 := if env.pmxe then Add(st, AdvancedMenu, "All Export", "manage_options", "pmxe-admin-export") else st;
    if env.pmxe { AddKept(st, Item("All Export", "manage_options", "pmxe-admin-export")); }
    var s2 := RemoveMenuPages(s1, ExportSlugs);
    var add := if env.pmxe then None else Some(Move(AdvancedMenu, "All Export", "manage_options", "pmxe-admin-export"));
    var s3 := MoveFirstMatch(s2, ExportRule, add, true);
    SweepKept(s2, ExportRule, add);
    KeptTrans(st, s2, s3);
    var s4 :=
      if env.pmxi then RemoveMenuPage(Add(s3, AdvancedMenu, "All Import", "manage_options", "pmxi-admin-home"), Some("pmxi-admin-home"))
      else s3;
    if env.pmxi { AddThenRemoveKept(s3, Item("All Import", "manage_options", "pmxi-admin-home"), Some("pmxi-admin-home")); }
    KeptTrans(st, s3, s4);
    KeywordFoldKept(s4.menu, s4);
    KeptTrans(st, s4, AdvancedPhase4Moves(st, env));
    if AdvancedOpen(st) && env.pmxe {
      KeptListed(s1, AdvancedPhase4Moves(st, env), "All Export");
    }
    if AdvancedOpen(st) && env.pmxi {
      KeptListed(s4, AdvancedPhase4Moves(st, env), "All Import");
    }
  }

  /** The placeholder removal drops key 0 only: listed entries stay, other parents are untouched. */
  lemma PlaceholderKeepsListed(s: MenuState, title: string)
    ensures OthersAsBefore(s, RemovePlaceholder(s, AdvancedMenu))
    ensures Listed(s, title) ==> Listed(RemovePlaceholder(s, AdvancedMenu), title)
    ensures AdvancedMenu in s.submenu ==>
      var after := RemovePlaceholder(s, AdvancedMenu).submenu[AdvancedMenu].slots;
      forall e :: e in after <==> e in s.submenu[AdvancedMenu].slots && e.0 != 0
  {
    if AdvancedMenu in s.submenu {
      var slots := s.submenu[AdvancedMenu].slots;
      var after := RemovePlaceholder(s, AdvancedMenu).submenu[AdvancedMenu].slots;
      forall e ensures e in after <==> e in slots && e.0 != 0 {
        UnsetKeyMember(slots, 0, e);
      }
    }
  }

  /**
   * What `reorganize_advanced_menu` guarantees under Advanced, whatever the menu held: the
   * AltText.ai and WP Synchro entries, Snippets with Code Snippets, All Export with WP All
   * Export and All Import with WP All Import are listed; no entry sits at the placeholder key
   * 0; every entry Advanced already had at another key stays; no other parent's submenu changes.
   */
  lemma AdvancedMenuCollectsPlugins(st: MenuState, env: Env)
    requires NextSound(st)
    ensures var r := ReorganizeAdvancedMenuSpec(st, env);
      && Listed(r, "AltText.ai") && Listed(r, "WP Synchro")
      && (env.codeSnippets ==> Listed(r, "Snippets"))
      && (env.pmxe ==> Listed(r, "All Export"))
      && (env.pmxi ==> Listed(r, "All Import"))
    ensures var r := ReorganizeAdvancedMenuSpec(st, env);
      && AdvancedMenu in r.submenu
      && (forall e :: e in r.submenu[AdvancedMenu].slots ==> e.0 != 0)
      && (AdvancedMenu in st.submenu ==>
            forall e :: e in st.submenu[AdvancedMenu].slots && e.0 != 0 ==> e in r.submenu[AdvancedMenu].slots)
      && OthersAsBefore(st, r)
  {
    var p1 := AdvancedPhase1(st, env);
    var p2 := AdvancedPhase2(p1, env);
    var p3 := AdvancedPhase3(p2);
    var m4 := AdvancedPhase4Moves(p3, env);
    Phase1Kept(st, env);
    Phase2Kept(p1, env);
    Phase3Kept(p2);
    Phase4MovesKept(p3, env);
    KeptTrans(st, p1, p2);
    KeptTrans(st, p2, p3);
    KeptTrans(st, p3, m4);
    if env.codeSnippets {
      KeptListed(p2, p3, "Snippets");
      KeptListed(p3, m4, "Snippets");
      PlaceholderKeepsListed(m4, "Snippets");
    }
    KeptListed(p3, m4, "AltText.ai");
    KeptListed(p3, m4, "WP Synchro");
    PlaceholderKeepsListed(m4, "AltText.ai");
    PlaceholderKeepsListed(m4, "WP Synchro");
    PlaceholderKeepsListed(m4, "All Export");
    PlaceholderKeepsListed(m4, "All Import");
  }
}

/**
 * `DisableProductReviews`: WooCommerce product reviews switched off through filters on
 * associative arrays (tabs, columns, structured data, catalog ordering), the comment filters
 * for product posts, the admin redirect, and the removal of review entries from `$submenu`.
 */
module DisableProductReviews {
  import opened Php
  import opened WpMenu

  const ProductMenu := "edit.php?post_type=product"

  // ---------------------------------------------------------------------------------------
  // Array filters

  /** The tab, status-tab and product-data-tab filters: drop a set `reviews` entry. */
  function RemoveReviewsTab(tabs: PhpArray): (r: PhpArray)
    ensures !Isset(r, "reviews")
    ensures forall k :: k != "reviews" ==> (k in r <==> k in tabs)
    ensures forall k :: k in r ==> k in tabs && r[k] == tabs[k]
  {
    UnsetEach(tabs, ["reviews"])
  }

  /** The products-list columns filter: drop a set `comments` column. */
  function RemoveReviewsColumn(columns: PhpArray): (r: PhpArray)
    ensures !Isset(r, "comments")
    ensures forall k :: k != "comments" ==> (k in r <==> k in columns)
    ensures forall k :: k in r ==> k in columns && r[k] == columns[k]
  {
    UnsetEach(columns, ["comments"])
  }

  /** The structured-data filter: drop `aggregateRating` and `review`, keep every other key. */
  function RemoveRatingFromStructuredData(data: PhpArray): (r: PhpArray)
    ensures !Isset(r, "aggregateRating") && !Isset(r, "review")
    ensures forall k :: k != "aggregateRating" && k != "review" ==> (k in r <==> k in data)
    ensures forall k :: k in r ==> k in data && r[k] == data[k]
  {
    UnsetEach(data, ["aggregateRating", "review"])
  }

  /** Applying any of the key-removal filters twice is the same as applying it once. */
  lemma ReviewFiltersIdempotent(a: PhpArray)
    ensures RemoveReviewsTab(RemoveReviewsTab(a)) == RemoveReviewsTab(a)
    ensures RemoveReviewsColumn(RemoveReviewsColumn(a)) == RemoveReviewsColumn(a)
    ensures RemoveRatingFromStructuredData(RemoveRatingFromStructuredData(a)) == RemoveRatingFromStructuredData(a)
  {
    UnsetEachIdempotent(a, ["reviews"]);
    UnsetEachIdempotent(a, ["comments"]);
    UnsetEachIdempotent(a, ["aggregateRating", "review"]);
  }

  /** Catalog ordering by average rating: the rating key goes and the order falls back to date. */
  function RemoveReviewSorting(args: PhpArray): (r: PhpArray)
    ensures "meta_key" in args && args["meta_key"] == Str("_wc_average_rating") ==>
      && "meta_key" !in r
      && "orderby" in r && r["orderby"] == Str("date")
      && forall k :: k != "meta_key" && k != "orderby" ==> (k in r <==> k in args) && (k in r ==> r[k] == args[k])
    ensures !("meta_key" in args && args["meta_key"] == Str("_wc_average_rating")) ==> r == args
  {
    if Isset(args, "meta_key") && args["meta_key"] == Str("_wc_average_rating") then
      (args - {"meta_key"})["orderby" := Str("date")]
    else args
  }

  /** A second pass of the ordering filter changes nothing. */
  lemma RemoveReviewSortingIdempotent(args: PhpArray)
    ensures RemoveReviewSorting(RemoveReviewSorting(args)) == RemoveReviewSorting(args)
  {
  }

  // ---------------------------------------------------------------------------------------
  // Comment filters

  /** The result of `get_post`: none, or a post with its type. */
  datatype Post = Post(postType: string)

  /** `comments_open`: closed for products, passed through for every other post. */
  function DisableProductReviewsOpen(open: bool, post: Option<Post>): (r: bool)
    ensures post.Some? && post.value.postType == "product" ==> !r
    ensures !(post.Some? && post.value.postType == "product") ==> r == open
  {
    if post.Some? && post.value.postType == "product" then false else open
  }

  /** `comments_array`: empty for products, passed through for every other post. */
  function RemoveProductReviewsFromList<C>(comments: seq<C>, post: Option<Post>): (r: seq<C>)
    ensures post.Some? && post.value.postType == "product" ==> r == []
    ensures !(post.Some? && post.value.postType == "product") ==> r == comments
  {
    if post.Some? && post.value.postType == "product" then [] else comments
  }

  /**
   * `redirect_product_reviews_page`: the admin URL of the products list, only on `edit.php`
   * with `post_type=product` and `page=product-reviews` in the query.
   */
  function ReviewsRedirect(pagenow: string, get: PhpArray, adminBase: string): (r: Option<string>)
    ensures r.Some? <==>
      && pagenow == "edit.php"
      && "post_type" in get && get["post_type"] == Str("product")
      && "page" in get && get["page"] == Str("product-reviews")
    ensures r.Some? ==> r.value == adminBase + ProductMenu
  {
    if pagenow == "edit.php" && Isset(get, "post_type") && get["post_type"] == Str("product")
       && Isset(get, "page") && get["page"] == Str("product-reviews")
    then Some(adminBase + ProductMenu)
    else None
  }

  // ---------------------------------------------------------------------------------------
  // `remove_reviews_admin_menu`

  /** A submenu entry whose slug contains `edit-comments.php` or `product-reviews`. */
  predicate ReviewSlug(x: MenuItem) {
    x.slug.Some? && (Contains(x.slug.value, "edit-comments.php") || Contains(x.slug.value, "product-reviews"))
  }

  /** The loop over the snapshot `snap` of `$submenu[parent]`, unsetting each review entry by its key. */
  function ReviewSweepFold(parent: string, snap: Slots, st: MenuState): MenuState
    decreases |snap|
  {
    if snap == [] then st
    else
      var s := ReviewSweepFold(parent, snap[..|snap| - 1], st);
      var e := snap[|snap| - 1];
      if ReviewSlug(e.1) then UnsetSubmenuKey(s, parent, e.0) else s
  }

  lemma {:induction false} ReviewSweepPrefix(parent: string, st: MenuState, i: nat)
    requires parent in st.submenu && KeysDistinct(st.submenu[parent].slots)
    requires i <= |st.submenu[parent].slots|
    ensures var l := st.submenu[parent];
      ReviewSweepFold(parent, l.slots[..i], st) ==
        st.(submenu := st.submenu[parent := l.(slots := KeepUnless(l.slots[..i], ReviewSlug) + l.slots[i..])])
    decreases i
  {
    var l := st.submenu[parent];
    var snap := l.slots;
    if i == 0 {
      assert KeepUnless(snap[..0], ReviewSlug) + snap[0..] == snap;
      assert st.submenu[parent := l] == st.submenu;
    } else {
      var k := i - 1;
      ReviewSweepPrefix(parent, st, k);
      assert snap[..i][..k] == snap[..k];
      var kept := KeepUnless(snap[..k], ReviewSlug);
      var e := snap[k];
      if ReviewSlug(e.1) {
        UnsetKeyAfterKept(snap, k, ReviewSlug);
      } else {
        assert snap[k..] == [e] + snap[i..];
        assert kept + snap[k..] == (kept + [e]) + snap[i..];
      }
    }
  }

  /**
   * The sweep over one parent removes exactly its review entries; every other entry keeps
   * its key and its place, the append counter is unchanged, and nothing else changes.
   */
  lemma ReviewSweepRemovesExactlyReviews(parent: string, st: MenuState)
    requires parent in st.submenu && KeysDistinct(st.submenu[parent].slots)
    ensures var l := st.submenu[parent];
      ReviewSweepFold(parent, l.slots, st) ==
        st.(submenu := st.submenu[parent := l.(slots := KeepUnless(l.slots, ReviewSlug))])
  {
    var l := st.submenu[parent];
    ReviewSweepPrefix(parent, st, |l.slots|);
    assert l.slots[..|l.slots|] == l.slots;
    assert l.slots[|l.slots|..] == [];
    assert KeepUnless(l.slots, ReviewSlug) + [] == KeepUnless(l.slots, ReviewSlug);
  }

  method ReviewSweep(m: AdminMenu, parent: string)
    modifies m
    ensures parent !in old(m.submenu) ==> m.State() == old(m.State())
    ensures parent in old(m.submenu) ==> m.State() == ReviewSweepFold(parent, old(m.submenu[parent].slots), old(m.State()))
  {
    if parent in m.submenu {
      var snapshot := m.submenu[parent].slots;
      var i := 0;
      while i < |snapshot|
        invariant 0 <= i <= |snapshot|
        invariant m.State() == ReviewSweepFold(parent, snapshot[..i], old(m.State()))
      {
        assert snapshot[..i + 1][..i] == snapshot[..i];
        var (key, item) := snapshot[i];
        if item.slug.Some? && (Contains(item.slug.value, "edit-comments.php") || Contains(item.slug.value, "product-reviews")) {
          m.UnsetSubmenuKeyCall(parent, key);
        }
        i := i + 1;
      }
      assert snapshot[..|snapshot|] == snapshot;
    }
  }

  function RemoveReviewsAdminMenuSpec(st: MenuState): MenuState {
    var s1 := if "woocommerce" in st.submenu then ReviewSweepFold("woocommerce", st.submenu["woocommerce"].slots, st) else st;
    var s2 := if ProductMenu in s1.submenu then ReviewSweepFold(ProductMenu, s1.submenu[ProductMenu].slots, s1) else s1;
    var s3 := RemoveSubmenuPage(s2, ProductMenu, "product-reviews");
    RemoveMenuPage(s3, Some("edit-comments.php?comment_type=review"))
  }

  /** `remove_reviews_admin_menu`. */
  method RemoveReviewsAdminMenu(m: AdminMenu)
    modifies m
    ensures m.State() == RemoveReviewsAdminMenuSpec(old(m.State()))
  {
    ReviewSweep(m, "woocommerce");
    ReviewSweep(m, ProductMenu);
    m.RemoveSubmenuPageCall(ProductMenu, "product-reviews");
    m.RemoveMenuPageCall(Some("edit-comments.php?comment_type=review"));
  }

  lemma ProductReviewsIsAReviewSlug()
    ensures ReviewSlug(MenuItem(None, None, Some("product-reviews")))
  {
    assert OccursAt("product-reviews", "product-reviews", 0);
    ContainsIff("product-reviews", "product-reviews");
  }

  /**
   * With distinct keys under both parents, the two submenus end up holding exactly their
   * non-review entries, in order and under their old keys; the explicit
   * `remove_submenu_page( ..., 'product-reviews' )` then finds nothing left to remove.
   */
  lemma ReviewEntriesGoneFromBothParents(st: MenuState)
    requires "woocommerce" in st.submenu && KeysDistinct(st.submenu["woocommerce"].slots)
    requires ProductMenu in st.submenu && KeysDistinct(st.submenu[ProductMenu].slots)
    ensures var r := RemoveReviewsAdminMenuSpec(st);
      && "woocommerce" in r.submenu && ProductMenu in r.submenu
      && r.submenu["woocommerce"].slots == KeepUnless(st.submenu["woocommerce"].slots, ReviewSlug)
      && r.submenu[ProductMenu].slots == KeepUnless(st.submenu[ProductMenu].slots, ReviewSlug)
      && forall p :: p in st.submenu && p != "woocommerce" && p != ProductMenu ==> p in r.submenu && r.submenu[p] == st.submenu[p]
  {
    ReviewSweepRemovesExactlyReviews("woocommerce", st);
    var s1 := ReviewSweepFold("woocommerce", st.submenu["woocommerce"].slots, st);
    assert s1.submenu[ProductMenu] == st.submenu[ProductMenu];
    ReviewSweepRemovesExactlyReviews(ProductMenu, s1);
    var s2 := ReviewSweepFold(ProductMenu, s1.submenu[ProductMenu].slots, s1);
    var kept := KeepUnless(st.submenu[ProductMenu].slots, ReviewSlug);
    assert s2.submenu[ProductMenu].slots == kept;
    assert SlugIndex(kept, Some("product-reviews")).None? by {
      KeepUnlessMembers(st.submenu[ProductMenu].slots, ReviewSlug);
      ProductReviewsIsAReviewSlug();
      forall j | 0 <= j < |kept| ensures kept[j].1.slug != Some("product-reviews") {
        assert kept[j] in kept;
      }
    }
  }
}

/**
 * `DisableComments`: comments switched off site-wide through filters that drop fixed keys
 * from associative arrays (REST endpoints, response headers, XML-RPC methods), a constant
 * comment count, the admin redirect and the removal of the comment menu entries.
 */
module DisableComments {
  import opened Php
  import opened WpMenu

  /** The two comment routes of the REST API; in the route pattern `\d` is a literal backslash and `d`. */
  const CommentRoutes: seq<string> := ["/wp/v2/comments", "/wp/v2/comments/(?P<id>[\\d]+)"]
  const PingbackMethods: seq<string> := ["pingback.ping", "pingback.extensions.getPingbacks"]

  /** `remove_comments_from_rest_api`: exactly the two comment routes go; every other endpoint stays. */
  function RemoveCommentsFromRestApi(endpoints: PhpArray): (r: PhpArray)
    ensures forall k :: k in CommentRoutes ==> !Isset(r, k)
    ensures forall k :: k !in CommentRoutes ==> (k in r <==> k in endpoints)
    ensures forall k :: k in r ==> k in endpoints && r[k] == endpoints[k]
  {
    UnsetEach(endpoints, CommentRoutes)
  }

  /** `remove_x_pingback`: only the `X-Pingback` header goes. */
  function RemoveXPingback(headers: PhpArray): (r: PhpArray)
    ensures !Isset(r, "X-Pingback")
    ensures forall k :: k != "X-Pingback" ==> (k in r <==> k in headers)
    ensures forall k :: k in r ==> k in headers && r[k] == headers[k]
  {
    UnsetEach(headers, ["X-Pingback"])
  }

  /** `remove_xmlrpc_pingback`: only the two pingback methods go. */
  function RemoveXmlrpcPingback(methods: PhpArray): (r: PhpArray)
    ensures forall k :: k in PingbackMethods ==> !Isset(r, k)
    ensures forall k :: k !in PingbackMethods ==> (k in r <==> k in methods)
    ensures forall k :: k in r ==> k in methods && r[k] == methods[k]
  {
    UnsetEach(methods, PingbackMethods)
  }

  /** Each of the three filters is idempotent. */
  lemma CommentFiltersIdempotent(a: PhpArray)
    ensures RemoveCommentsFromRestApi(RemoveCommentsFromRestApi(a)) == RemoveCommentsFromRestApi(a)
    ensures RemoveXPingback(RemoveXPingback(a)) == RemoveXPingback(a)
    ensures RemoveXmlrpcPingback(RemoveXmlrpcPingback(a)) == RemoveXmlrpcPingback(a)
  {
    UnsetEachIdempotent(a, CommentRoutes);
    UnsetEachIdempotent(a, ["X-Pingback"]);
    UnsetEachIdempotent(a, PingbackMethods);
  }

  /** `hide_comments_number`: the count is always shown as the empty string. */
  function HideCommentsNumber(count: string): (r: string)
    ensures |r| == 0
  {
    ""
  }

  /** `disable_comments_admin`: the two comment screens redirect to the dashboard (`admin_url()`). */
  function CommentsAdminRedirect(pagenow: string, adminUrl: string): (r: Option<string>)
    ensures r.Some? <==> pagenow == "edit-comments.php" || pagenow == "options-discussion.php"
    ensures r.Some? ==> r.value == adminUrl
  {
    if pagenow == "edit-comments.php" || pagenow == "options-discussion.php" then Some(adminUrl) else None
  }

  /** `remove_comments_menu`: the Comments top-level page and the Discussion settings page. */
  function RemoveCommentsMenuSpec(st: MenuState): (r: MenuState)
    ensures r.menu == RemoveMenuPage(st, Some("edit-comments.php")).menu
    ensures "options-general.php" !in st.submenu ==> r.submenu == st.submenu
  {
    RemoveSubmenuPage(RemoveMenuPage(st, Some("edit-comments.php")), "options-general.php", "options-discussion.php")
  }

  /**
   * What `remove_comments_menu` leaves when the Comments page and the Discussion page each
   * appear at most once: every top-level item but Comments, every Settings item but
   * Discussion, and every other submenu as it was.
   */
  lemma CommentsMenuEntriesGone(st: MenuState)
    requires SlugAtMostOnce(st.menu, Some("edit-comments.php"))
    requires "options-general.php" in st.submenu ==>
      SlugAtMostOnce(st.submenu["options-general.php"].slots, Some("options-discussion.php"))
    ensures var r := RemoveCommentsMenuSpec(st);
      forall e :: e in r.menu <==> e in st.menu && e.1.slug != Some("edit-comments.php")
    ensures var r := RemoveCommentsMenuSpec(st);
      r.submenu.Keys == st.submenu.Keys
      && forall p :: p in st.submenu && p != "options-general.php" ==> r.submenu[p] == st.submenu[p]
    ensures var r := RemoveCommentsMenuSpec(st);
      "options-general.php" in st.submenu ==>
        var before, after := st.submenu["options-general.php"], r.submenu["options-general.php"];
        && after.next == before.next
        && forall e :: e in after.slots <==> e in before.slots && e.1.slug != Some("options-discussion.php")
  {
    WithoutOnlySlug(st.menu, Some("edit-comments.php"));
    if "options-general.php" in st.submenu {
      WithoutOnlySlug(st.submenu["options-general.php"].slots, Some("options-discussion.php"));
    }
  }

  method RemoveCommentsMenu(m: AdminMenu)
    modifies m
    ensures m.State() == RemoveCommentsMenuSpec(old(m.State()))
  {
    m.RemoveMenuPageCall(Some("edit-comments.php"));
    m.RemoveSubmenuPageCall("options-general.php", "options-discussion.php");
  }
}

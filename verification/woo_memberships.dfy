/**
 * `WooCommerceMemberships`: members of the "Digital Subscription" plan see a "View" button
 * instead of "Add to cart" on digital products, and the button links to the product's first
 * downloadable file, taken from the selected variation when there is one.
 *
 * WooCommerce's product store is a `Catalog` (what `wc_get_product` finds for an id); the
 * request's `variation_id` parameters are inputs.
 */
module WooMemberships {
  import opened Php

  /** The "Digital Subscription" membership plan. */
  const DigitalPlan := 667
  /** The Ars Botanica digital variant, always eligible. */
  const ArsBotanicaDigital := 222

  /** One entry of `get_downloads()`; `file` is `None` when `isset($download['file'])` fails. */
  datatype Download = Download(file: Option<string>)

  /**
   * A WooCommerce product: `kind` is `get_type()`; `variations` are the `variation_id`s of
   * `get_available_variations()`; `defaultAttributes` is `get_default_attributes()` in
   * order; `attributes` is `get_attributes()` of a variation.
   */
  datatype Product = Product(
    id: int, kind: string, downloadable: bool, virtual: bool, downloads: seq<Download>,
    variations: seq<int>, defaultAttributes: seq<(string, string)>, attributes: map<string, string>)

  /** `wc_get_product( $id )`: the product stored under an id, if any. */
  type Catalog = map<int, Product>

  /** The index of the first element satisfying `p`. */
  function FirstWhere(s: seq<int>, p: int -> bool): (r: Option<nat>)
    ensures r.Some? ==> r.value < |s| && p(s[r.value])
    ensures r.Some? ==> forall j :: 0 <= j < r.value ==> !p(s[j])
    ensures r.None? ==> forall j :: 0 <= j < |s| ==> !p(s[j])
  {
    if s == [] then None
    else if p(s[0]) then Some(0)
    else
      match FirstWhere(s[1..], p)
      case None => None
      case Some(i) => Some(i + 1)
  }

  // ---------------------------------------------------------------------------------------
  // user_has_active_membership

  /**
   * `user_has_active_membership`. `isActiveMember(user, plan)` stands for
   * `wc_memberships_is_user_active_member`.
   */
  function UserHasActiveMembership(loggedIn: bool, userId: int, isActiveMember: (int, int) -> bool): (r: bool)
    ensures !loggedIn ==> !r
    ensures loggedIn ==> (r <==> isActiveMember(userId, DigitalPlan))
  {
    loggedIn && isActiveMember(userId, DigitalPlan)
  }

  // ---------------------------------------------------------------------------------------
  // should_show_member_button

  /** `$variation && $variation->is_downloadable()` for a variation id. */
  predicate DownloadableId(catalog: Catalog, v: int) {
    v in catalog && catalog[v].downloadable
  }

  /**
   * Which products get the member button: never a null product; a variable product exactly
   * when one of its available variations is downloadable; any other product when it is the
   * Ars Botanica variant, downloadable, or simple and virtual.
   */
  predicate ShouldShow(catalog: Catalog, product: Option<Product>) {
    && product.Some?
    && var p := product.value;
       if p.kind == "variable" then exists i :: 0 <= i < |p.variations| && DownloadableId(catalog, p.variations[i])
       else p.id == ArsBotanicaDigital || p.downloadable || (p.kind == "simple" && p.virtual)
  }

  /** `should_show_member_button`: scans the variations and stops at the first downloadable one. */
  method ShouldShowMemberButton(catalog: Catalog, product: Option<Product>) returns (show: bool)
    ensures show == ShouldShow(catalog, product)
  {
    if product.None? {
      return false;
    }
    var p := product.value;
    if p.kind == "variable" {
      var i := 0;
      while i < |p.variations|
        invariant 0 <= i <= |p.variations|
        invariant forall j :: 0 <= j < i ==> !DownloadableId(catalog, p.variations[j])
      {
        var v := p.variations[i];
        if v in catalog && catalog[v].downloadable {
          return true;
        }
        i := i + 1;
      }
      return false;
    }
    if p.id == ArsBotanicaDigital {
      return true;
    }
    if p.downloadable {
      return true;
    }
    show := p.kind == "simple" && p.virtual;
  }

  // ---------------------------------------------------------------------------------------
  // get_selected_variation_id

  /** Every default attribute is set on the variation with exactly the default value. */
  predicate AttributesMatch(attrs: map<string, string>, defaults: seq<(string, string)>) {
    forall k :: 0 <= k < |defaults| ==> defaults[k].0 in attrs && attrs[defaults[k].0] == defaults[k].1
  }

  function MatchesDefaults(catalog: Catalog, defaults: seq<(string, string)>): int -> bool {
    v => v in catalog && AttributesMatch(catalog[v].attributes, defaults)
  }

  /**
   * The selected variation: a non-empty `variation_id` in the query string, else one in the
   * posted form, each read with `intval`; else, when the product has default attributes, the
   * id of the first available variation carrying all of them; else none.
   */
  function SelectedVariation(catalog: Catalog, p: Product, get: Option<string>, post: Option<string>): Option<int> {
    if get.Some? && !EmptyStr(get.value) then Some(IntVal(get.value))
    else if post.Some? && !EmptyStr(post.value) then Some(IntVal(post.value))
    else if |p.defaultAttributes| > 0 then
      match FirstWhere(p.variations, MatchesDefaults(catalog, p.defaultAttributes))
      case Some(i) => Some(catalog[p.variations[i]].id)
      case None => None
    else None
  }

  /** The inner loop: compares the default attributes one by one and stops at the first mismatch. */
  method AttributesMatchLoop(attrs: map<string, string>, defaults: seq<(string, string)>) returns (matched: bool)
    ensures matched == AttributesMatch(attrs, defaults)
  {
    matched := true;
    var k := 0;
    while k < |defaults|
      invariant 0 <= k <= |defaults|
      invariant matched
      invariant forall m :: 0 <= m < k ==> defaults[m].0 in attrs && attrs[defaults[m].0] == defaults[m].1
    {
      var (name, value) := defaults[k];
      if !(name in attrs) || attrs[name] != value {
        matched := false;
        break;
      }
      k := k + 1;
    }
  }

  /** `get_selected_variation_id`; `get` and `post` are `$_GET['variation_id']` and `$_POST['variation_id']` when set. */
  method GetSelectedVariationId(catalog: Catalog, p: Product, get: Option<string>, post: Option<string>) returns (r: Option<int>)
    ensures r == SelectedVariation(catalog, p, get, post)
  {
    if get.Some? && !EmptyStr(get.value) {
      return Some(IntVal(get.value));
    }
    if post.Some? && !EmptyStr(post.value) {
      return Some(IntVal(post.value));
    }
    if |p.defaultAttributes| > 0 {
      var i := 0;
      while i < |p.variations|
        invariant 0 <= i <= |p.variations|
        invariant forall j :: 0 <= j < i ==> !MatchesDefaults(catalog, p.defaultAttributes)(p.variations[j])
      {
        var v := p.variations[i];
        if v in catalog {
          var matched := AttributesMatchLoop(catalog[v].attributes, p.defaultAttributes);
          if matched {
            assert MatchesDefaults(catalog, p.defaultAttributes)(p.variations[i]);
            return Some(catalog[v].id);
          }
        }
        i := i + 1;
      }
    }
    return None;
  }

  // ---------------------------------------------------------------------------------------
  // get_member_download_url

  /** `reset( $downloads )['file']` for a non-empty download list. */
  function FirstFile(downloads: seq<Download>): Option<string> {
    if downloads == [] then None else downloads[0].file
  }

  /** The file a variation id yields: it must exist, be downloadable and have a first file. */
  function VariationFile(catalog: Catalog, v: int): Option<string> {
    if DownloadableId(catalog, v) then FirstFile(catalog[v].downloads) else None
  }

  function HasFile(catalog: Catalog): int -> bool {
    v => VariationFile(catalog, v).Some?
  }

  /** The fallback: the file of the first available variation that yields one. */
  function FallbackFile(catalog: Catalog, variations: seq<int>): Option<string> {
    match FirstWhere(variations, HasFile(catalog))
    case Some(i) => VariationFile(catalog, variations[i])
    case None => None
  }

  /**
   * The member's download link. For a variable product: the selected variation's file when
   * it yields one (a selection of 0 is falsy and skipped), else the fallback. For any other
   * product: its first file when it is downloadable.
   */
  function DownloadUrl(catalog: Catalog, product: Option<Product>, get: Option<string>, post: Option<string>): Option<string> {
    if product.None? then None
    else
      var p := product.value;
      if p.kind == "variable" then
        var sel := SelectedVariation(catalog, p, get, post);
        if sel.Some? && sel.value != 0 && VariationFile(catalog, sel.value).Some? then VariationFile(catalog, sel.value)
        else FallbackFile(catalog, p.variations)
      else if !p.downloadable then None
      else FirstFile(p.downloads)
  }

  /** The fallback loop of `get_member_download_url`, returning from inside the loop. */
  method FirstVariationFile(catalog: Catalog, variations: seq<int>) returns (url: Option<string>)
    ensures url == FallbackFile(catalog, variations)
  {
    var i := 0;
    while i < |variations|
      invariant 0 <= i <= |variations|
      invariant forall j :: 0 <= j < i ==> !HasFile(catalog)(variations[j])
    {
      var v := variations[i];
      if v in catalog && catalog[v].downloadable {
        var downloads := catalog[v].downloads;
        if downloads != [] && downloads[0].file.Some? {
          assert HasFile(catalog)(variations[i]);
          return downloads[0].file;
        }
      }
      i := i + 1;
    }
    return None;
  }

  /** `get_member_download_url`. */
  method GetMemberDownloadUrl(catalog: Catalog, product: Option<Product>, get: Option<string>, post: Option<string>) returns (url: Option<string>)
    ensures url == DownloadUrl(catalog, product, get, post)
  {
    if product.None? {
      return None;
    }
    var p := product.value;
    if p.kind == "variable" {
      var sel := GetSelectedVariationId(catalog, p, get, post);
      if sel.Some? && sel.value != 0 {
        var v := sel.value;
        if v in catalog && catalog[v].downloadable {
          var downloads := catalog[v].downloads;
          if downloads != [] && downloads[0].file.Some? {
            return downloads[0].file;
          }
        }
      }
      url := FirstVariationFile(catalog, p.variations);
      return;
    }
    if !p.downloadable {
      return None;
    }
    if p.downloads == [] {
      return None;
    }
    url := p.downloads[0].file;
  }

  /**
   * A link that does not come from an explicitly selected variation belongs to a product
   * that also gets the member button: the fallback only picks downloadable variations.
   */
  lemma UnselectedLinkImpliesButton(catalog: Catalog, product: Option<Product>, get: Option<string>, post: Option<string>)
    requires DownloadUrl(catalog, product, get, post).Some?
    requires product.Some? && product.value.kind == "variable" ==>
      var sel := SelectedVariation(catalog, product.value, get, post);
      !(sel.Some? && sel.value != 0 && VariationFile(catalog, sel.value).Some?)
    ensures ShouldShow(catalog, product)
  {
    var p := product.value;
    if p.kind == "variable" {
      var i := FirstWhere(p.variations, HasFile(catalog)).value;
      assert HasFile(catalog)(p.variations[i]);
      assert DownloadableId(catalog, p.variations[i]);
    }
  }

  /**
   * A query-string `variation_id` that `intval` reads as 0 still counts as a selection: it
   * hides the posted id, and the link falls back to the first variation with a file.
   */
  lemma NonNumericQueryHidesPostedVariation(catalog: Catalog, p: Product, posted: string)
    requires p.kind == "variable"
    ensures SelectedVariation(catalog, p, Some("x"), Some(posted)) == Some(0)
    ensures DownloadUrl(catalog, Some(p), Some("x"), Some(posted)) == FallbackFile(catalog, p.variations)
  {
    NonNumericIsZero();
    assert SelectedVariation(catalog, p, Some("x"), Some(posted)) == Some(0);
  }

  lemma NonNumericIsZero()
    ensures !EmptyStr("x") && IntVal("x") == 0
  {
    assert TrimLeft("x", IntvalSpace) == "x";
  }

  // ---------------------------------------------------------------------------------------
  // modify_add_to_cart_text / modify_add_to_cart_url

  /** `modify_add_to_cart_text`: "View" for an active member on an eligible product, else the text as given. */
  method ModifyAddToCartText(
    text: string, product: Option<Product>, catalog: Catalog,
    loggedIn: bool, userId: int, isActiveMember: (int, int) -> bool) returns (r: string)
    ensures UserHasActiveMembership(loggedIn, userId, isActiveMember) && ShouldShow(catalog, product) ==> r == "View"
    ensures !(UserHasActiveMembership(loggedIn, userId, isActiveMember) && ShouldShow(catalog, product)) ==> r == text
  {
    r := text;
    if UserHasActiveMembership(loggedIn, userId, isActiveMember) {
      var show := ShouldShowMemberButton(catalog, product);
      if show {
        r := "View";
      }
    }
  }

  /**
   * `modify_add_to_cart_url`: the product's permalink for an active member on an eligible
   * product, else the URL as given. `permalink` stands for `get_permalink`.
   */
  method ModifyAddToCartUrl(
    url: string, product: Option<Product>, catalog: Catalog,
    loggedIn: bool, userId: int, isActiveMember: (int, int) -> bool, permalink: int -> string) returns (r: string)
    ensures UserHasActiveMembership(loggedIn, userId, isActiveMember) && ShouldShow(catalog, product) ==>
      r == permalink(product.value.id)
    ensures !(UserHasActiveMembership(loggedIn, userId, isActiveMember) && ShouldShow(catalog, product)) ==> r == url
  {
    r := url;
    if UserHasActiveMembership(loggedIn, userId, isActiveMember) {
      var show := ShouldShowMemberButton(catalog, product);
      if show {
        r := permalink(product.value.id);
      }
    }
  }
}

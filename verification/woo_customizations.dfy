/**
 * `WooCommerceCustomizations`: the shop only sells simple and variable products, and has no
 * upsells. Filters drop the grouped and external product types from the admin screens and
 * the REST API; two maintenance routines convert stored grouped/external products to simple
 * ones and clear stored upsells.
 */
module WooCustomizations {
  import opened Php

  const Unwanted: seq<string> := ["grouped", "external"]

  // ---------------------------------------------------------------------------------------
  // Array filters

  /** `remove_unwanted_product_types` (and `remove_unwanted_product_data_tabs`, which is the same filter on the tabs). */
  function RemoveUnwantedProductTypes(types: PhpArray): (r: PhpArray)
    ensures !Isset(r, "grouped") && !Isset(r, "external")
    ensures forall k :: k !in Unwanted ==> (k in r <==> k in types)
    ensures forall k :: k in r ==> k in types && r[k] == types[k]
  {
    UnsetEach(types, Unwanted)
  }

  /** `remove_unwanted_product_options`: only `external_url` goes. */
  function RemoveUnwantedProductOptions(options: PhpArray): (r: PhpArray)
    ensures !Isset(r, "external_url")
    ensures forall k :: k != "external_url" ==> (k in r <==> k in options)
    ensures forall k :: k in r ==> k in options && r[k] == options[k]
  {
    UnsetEach(options, ["external_url"])
  }

  lemma ProductFiltersIdempotent(a: PhpArray)
    ensures RemoveUnwantedProductTypes(RemoveUnwantedProductTypes(a)) == RemoveUnwantedProductTypes(a)
    ensures RemoveUnwantedProductOptions(RemoveUnwantedProductOptions(a)) == RemoveUnwantedProductOptions(a)
  {
    UnsetEachIdempotent(a, Unwanted);
    UnsetEachIdempotent(a, ["external_url"]);
  }

  predicate IsUnwantedType(v: Value) {
    v == Str("grouped") || v == Str("external")
  }

  /** `filter_product_type_query`: a grouped or external `type` becomes `simple`; nothing else changes. */
  function FilterProductTypeQuery(args: PhpArray): (r: PhpArray)
    ensures r.Keys == args.Keys
    ensures "type" in args && IsUnwantedType(args["type"]) ==> r["type"] == Str("simple")
    ensures forall k :: k in r && (k != "type" || !IsUnwantedType(args["type"])) ==> r[k] == args[k]
  {
    if Isset(args, "type") && IsUnwantedType(args["type"]) then args["type" := Str("simple")] else args
  }

  /** Applying the query filter twice is applying it once, and no unwanted type survives it. */
  lemma FilterProductTypeQueryIdempotent(args: PhpArray)
    ensures FilterProductTypeQuery(FilterProductTypeQuery(args)) == FilterProductTypeQuery(args)
    ensures "type" in args ==> !IsUnwantedType(FilterProductTypeQuery(args)["type"])
  {
  }

  /**
   * `prevent_unwanted_in_api` (defined, not hooked by default): on a POST, PUT or PATCH
   * request a grouped or external `type` in the response data becomes `simple`.
   */
  function PreventUnwantedInApi(data: PhpArray, requestMethod: string): (r: PhpArray)
    ensures requestMethod !in ["POST", "PUT", "PATCH"] ==> r == data
    ensures requestMethod in ["POST", "PUT", "PATCH"] ==> r == FilterProductTypeQuery(data)
  {
    if requestMethod in ["POST", "PUT", "PATCH"] && Isset(data, "type") && IsUnwantedType(data["type"]) then
      data["type" := Str("simple")]
    else data
  }

  /** `remove_upsells_from_api`: `upsell_ids` is emptied when it is set, and never added. */
  function RemoveUpsellsFromApi(data: PhpArray): (r: PhpArray)
    ensures r.Keys == data.Keys
    ensures Isset(data, "upsell_ids") ==> r["upsell_ids"] == List([])
    ensures forall k :: k in r && k != "upsell_ids" ==> r[k] == data[k]
    ensures !Isset(data, "upsell_ids") ==> r == data
  {
    if Isset(data, "upsell_ids") then data["upsell_ids" := List([])] else data
  }

  // ---------------------------------------------------------------------------------------
  // The product store

  /** A stored product: its type term, name, the post-meta keys it carries and its stored upsell ids. */
  datatype StoredProduct = StoredProduct(id: int, kind: string, name: string, meta: set<string>, upsells: seq<int>)

  /** One line of `convert_unwanted_to_simple`'s report. */
  datatype Converted = Converted(id: int, name: string, oldType: string)

  datatype ConvertResults = ConvertResults(converted: nat, errors: nat, products: seq<Converted>)

  /** One line of `clear_all_upsells`'s report. */
  datatype Cleared = Cleared(id: int, name: string, oldUpsells: seq<int>)

  datatype ClearResults = ClearResults(cleared: nat, errors: nat, products: seq<Cleared>)

  /** The post meta a conversion deletes: grouped children, or the external URL and button text. */
  function TypeMeta(t: string): set<string> {
    if t == "grouped" then {"_children"} else if t == "external" then {"_product_url", "_button_text"} else {}
  }

  /** A product converted from type `t`: now simple, without `t`'s meta. */
  function ConvertOne(p: StoredProduct, t: string): StoredProduct {
    p.(kind := "simple", meta := p.meta - TypeMeta(t))
  }

  /** The store after one `wc_get_products( type => t )` pass: every product of type `t` converted. */
  function ConvertPass(ps: seq<StoredProduct>, t: string): (r: seq<StoredProduct>)
    ensures |r| == |ps|
  {
    seq(|ps|, j requires 0 <= j < |ps| => if ps[j].kind == t then ConvertOne(ps[j], t) else ps[j])
  }

  /** The report lines of one pass, in query order. */
  function ConvertedIn(ps: seq<StoredProduct>, t: string): seq<Converted>
    decreases |ps|
  {
    if ps == [] then []
    else
      var last := ps[|ps| - 1];
      ConvertedIn(ps[..|ps| - 1], t) + (if last.kind == t then [Converted(last.id, last.name, t)] else [])
  }

  /** The types `convert_unwanted_to_simple` processes: both for 'all', the one named, or none for anything else. */
  function TypesToConvert(t: string): (r: seq<string>)
    ensures forall k :: 0 <= k < |r| ==> r[k] in Unwanted
  {
    if t == "all" then Unwanted else if t in Unwanted then [t] else []
  }

  function ConvertAll(ps: seq<StoredProduct>, ts: seq<string>): (r: seq<StoredProduct>)
    ensures |r| == |ps|
    decreases |ts|
  {
    if ts == [] then ps else ConvertAll(ConvertPass(ps, ts[0]), ts[1..])
  }

  function ConvertedAll(ps: seq<StoredProduct>, ts: seq<string>): seq<Converted>
    decreases |ts|
  {
    if ts == [] then [] else ConvertedIn(ps, ts[0]) + ConvertedAll(ConvertPass(ps, ts[0]), ts[1..])
  }

  /** `! empty( $upsell_ids )` for the ids the getter returns. */
  function ViewedUpsells(p: StoredProduct, filtered: bool): seq<int> {
    if filtered then [] else p.upsells
  }

  /** A product whose upsells were cleared: no ids, no `_upsell_ids` meta. */
  function ClearOne(p: StoredProduct): StoredProduct {
    p.(upsells := [], meta := p.meta - {"_upsell_ids"})
  }

  /** The store after `clear_all_upsells`, when the getter's ids are `ViewedUpsells(_, filtered)`. */
  function ClearPass(ps: seq<StoredProduct>, filtered: bool): (r: seq<StoredProduct>)
    ensures |r| == |ps|
  {
    seq(|ps|, j requires 0 <= j < |ps| => if ViewedUpsells(ps[j], filtered) != [] then ClearOne(ps[j]) else ps[j])
  }

  function ClearedIn(ps: seq<StoredProduct>, filtered: bool): seq<Cleared>
    decreases |ps|
  {
    if ps == [] then []
    else
      var last := ps[|ps| - 1];
      ClearedIn(ps[..|ps| - 1], filtered) +
        (if ViewedUpsells(last, filtered) != [] then [Cleared(last.id, last.name, ViewedUpsells(last, filtered))] else [])
  }

  /**
   * The products as `wc_get_products` returns them (in query order), and whether the
   * `woocommerce_product_get_upsell_ids` filter that `init` installs (it returns an empty
   * array at priority 999) is in place.
   */
  class ProductStore {
    var products: seq<StoredProduct>
    var upsellFilter: bool

    constructor (ps: seq<StoredProduct>, initialised: bool)
      ensures products == ps && upsellFilter == initialised
    {
      products := ps;
      upsellFilter := initialised;
    }

    /** One type's pass of `convert_unwanted_to_simple`. */
    method ConvertType(t: string) returns (lines: seq<Converted>)
      modifies this
      ensures products == ConvertPass(old(products), t) && upsellFilter == old(upsellFilter)
      ensures lines == ConvertedIn(old(products), t)
    {
      ghost var snap := products;
      lines := [];
      var i := 0;
      while i < |products|
        invariant 0 <= i <= |products| == |snap|
        invariant forall j :: 0 <= j < i ==> products[j] == ConvertPass(snap, t)[j]
        invariant forall j :: i <= j < |products| ==> products[j] == snap[j]
        invariant lines == ConvertedIn(snap[..i], t)
        invariant upsellFilter == old(upsellFilter)
      {
        assert snap[..i + 1][..i] == snap[..i];
        var p := products[i];
        if p.kind == t {
          products := products[i := ConvertOne(p, t)];
          lines := lines + [Converted(p.id, p.name, t)];
        }
        i := i + 1;
      }
      assert snap[..|snap|] == snap;
    }

    /** `convert_unwanted_to_simple`: each product of a chosen type becomes simple, once, and is reported. */
    method ConvertUnwantedToSimple(t: string) returns (results: ConvertResults)
      modifies this
      ensures products == ConvertAll(old(products), TypesToConvert(t)) && upsellFilter == old(upsellFilter)
      ensures results.products == ConvertedAll(old(products), TypesToConvert(t))
      ensures results.converted == |results.products| && results.errors == 0
    {
      var ts := TypesToConvert(t);
      var all: seq<Converted> := [];
      var k := 0;
      while k < |ts|
        invariant 0 <= k <= |ts|
        invariant ConvertAll(products, ts[k..]) == ConvertAll(old(products), ts)
        invariant all + ConvertedAll(products, ts[k..]) == ConvertedAll(old(products), ts)
        invariant upsellFilter == old(upsellFilter)
      {
        assert ts[k..][1..] == ts[k + 1..];
        var lines := ConvertType(ts[k]);
        all := all + lines;
        k := k + 1;
      }
      results := ConvertResults(|all|, 0, all);
    }

    /**
     * `clear_all_upsells` as written: it reads each product's upsells through the filtered
     * getter, so with the filter in place it sees none.
     */
    method ClearAllUpsells() returns (results: ClearResults)
      modifies this
      ensures products == ClearPass(old(products), upsellFilter) && upsellFilter == old(upsellFilter)
      ensures results.products == ClearedIn(old(products), upsellFilter)
      ensures results.cleared == |results.products| && results.errors == 0
    {
      results := ClearWith(upsellFilter);
    }

    /** `clear_all_upsells` reading the stored ids (the `edit` context of the getter), which is what it is meant to do. */
    method ClearAllStoredUpsells() returns (results: ClearResults)
      modifies this
      ensures products == ClearPass(old(products), false) && upsellFilter == old(upsellFilter)
      ensures results.products == ClearedIn(old(products), false)
      ensures results.cleared == |results.products| && results.errors == 0
    {
      results := ClearWith(false);
    }

    method ClearWith(filtered: bool) returns (results: ClearResults)
      modifies this
      ensures products == ClearPass(old(products), filtered) && upsellFilter == old(upsellFilter)
      ensures results.products == ClearedIn(old(products), filtered)
      ensures results.cleared == |results.products| && results.errors == 0
    {
      ghost var snap := products;
      var lines: seq<Cleared> := [];
      var i := 0;
      while i < |products|
        invariant 0 <= i <= |products| == |snap|
        invariant forall j :: 0 <= j < i ==> products[j] == ClearPass(snap, filtered)[j]
        invariant forall j :: i <= j < |products| ==> products[j] == snap[j]
        invariant lines == ClearedIn(snap[..i], filtered)
        invariant upsellFilter == old(upsellFilter)
      {
        assert snap[..i + 1][..i] == snap[..i];
        var p := products[i];
        var ids := if filtered then [] else p.upsells;
        if ids != [] {
          products := products[i := ClearOne(p)];
          lines := lines + [Cleared(p.id, p.name, ids)];
        }
        i := i + 1;
      }
      assert snap[..|snap|] == snap;
      results := ClearResults(|lines|, 0, lines);
    }

    /** `remove_upsell_ids_on_save`: the product being saved loses its upsell ids. */
    method RemoveUpsellIdsOnSave(i: nat)
      requires i < |products|
      modifies this
      ensures products == old(products)[i := old(products)[i].(upsells := [])]
      ensures upsellFilter == old(upsellFilter)
    {
      products := products[i := products[i].(upsells := [])];
    }

    /** `prevent_upsells_via_api`: a product written through the REST API loses its upsell ids the same way. */
    method PreventUpsellsViaApi(i: nat)
      requires i < |products|
      modifies this
      ensures products == old(products)[i := old(products)[i].(upsells := [])]
      ensures upsellFilter == old(upsellFilter)
    {
      RemoveUpsellIdsOnSave(i);
    }
  }

  // ---------------------------------------------------------------------------------------
  // What the conversion promises

  /** A grouped pass creates no external product and converts no external one. */
  lemma {:induction false} ConvertedInAfterOtherPass(ps: seq<StoredProduct>, t: string, u: string)
    requires t != u && u != "simple"
    ensures ConvertedIn(ConvertPass(ps, t), u) == ConvertedIn(ps, u)
    decreases |ps|
  {
    if ps != [] {
      var init := ps[..|ps| - 1];
      assert ConvertPass(ps, t)[..|ps| - 1] == ConvertPass(init, t);
      ConvertedInAfterOtherPass(init, t, u);
    }
  }

  lemma {:induction false} ConvertedInCounts(ps: seq<StoredProduct>, t: string)
    ensures |ConvertedIn(ps, t)| == |set j | 0 <= j < |ps| && ps[j].kind == t|
    decreases |ps|
  {
    if ps != [] {
      var n := |ps| - 1;
      var init := ps[..n];
      ConvertedInCounts(init, t);
      var before := set j | 0 <= j < n && init[j].kind == t;
      var after := set j | 0 <= j < |ps| && ps[j].kind == t;
      if ps[n].kind == t {
        assert after == before + {n};
      } else {
        assert after == before;
      }
    }
  }

  /**
   * Converting 'all' reports every product that was grouped or external exactly once, leaves
   * none of either type behind, strips their type meta, and touches no other product.
   */
  lemma ConvertAllPromise(ps: seq<StoredProduct>)
    ensures var r := ConvertAll(ps, TypesToConvert("all"));
      forall j :: 0 <= j < |ps| ==>
        && r[j].kind !in Unwanted
        && (ps[j].kind in Unwanted ==> r[j] == ConvertOne(ps[j], ps[j].kind))
        && (ps[j].kind !in Unwanted ==> r[j] == ps[j])
    ensures |ConvertedAll(ps, TypesToConvert("all"))| ==
      |set j | 0 <= j < |ps| && ps[j].kind == "grouped"| + |set j | 0 <= j < |ps| && ps[j].kind == "external"|
  {
    var g := ConvertPass(ps, "grouped");
    var ts := TypesToConvert("all");
    assert ts[0] == "grouped" && ts[1..] == ["external"] && ts[1..][1..] == [];
    assert ConvertAll(ps, TypesToConvert("all")) == ConvertPass(g, "external");
    assert ConvertedAll(ps, TypesToConvert("all")) == ConvertedIn(ps, "grouped") + ConvertedIn(g, "external");
    ConvertedInAfterOtherPass(ps, "grouped", "external");
    ConvertedInCounts(ps, "grouped");
    ConvertedInCounts(ps, "external");
  }

  /** An unknown type converts nothing and reports nothing. */
  lemma InvalidTypeConvertsNothing(ps: seq<StoredProduct>, t: string)
    requires t != "all" && t !in Unwanted
    ensures ConvertAll(ps, TypesToConvert(t)) == ps && ConvertedAll(ps, TypesToConvert(t)) == []
  {
  }

  // ---------------------------------------------------------------------------------------
  // What clearing upsells promises, and what it does with the filter in place

  /** With the stored ids, every product ends with no upsells and exactly those that had some are reported. */
  lemma {:induction false} StoredClearEmptiesEveryUpsell(ps: seq<StoredProduct>)
    ensures forall j :: 0 <= j < |ps| ==> ClearPass(ps, false)[j].upsells == []
    ensures |ClearedIn(ps, false)| == |set j | 0 <= j < |ps| && ps[j].upsells != []|
    decreases |ps|
  {
    if ps != [] {
      var n := |ps| - 1;
      var init := ps[..n];
      StoredClearEmptiesEveryUpsell(init);
      var before := set j | 0 <= j < n && init[j].upsells != [];
      var after := set j | 0 <= j < |ps| && ps[j].upsells != [];
      if ps[n].upsells != [] {
        assert after == before + {n};
      } else {
        assert after == before;
      }
    }
  }

  /**
   * With the `woocommerce_product_get_upsell_ids` filter in place, `clear_all_upsells`
   * changes nothing and reports nothing, even when a product has stored upsells.
   */
  lemma {:induction false} FilteredClearIsANoOp(ps: seq<StoredProduct>)
    ensures ClearPass(ps, true) == ps
    ensures ClearedIn(ps, true) == []
    decreases |ps|
  {
    if ps != [] {
      FilteredClearIsANoOp(ps[..|ps| - 1]);
    }
  }

  /** A store with one product carrying an upsell: the as-written routine leaves it, the stored-id routine clears it. */
  lemma FilteredClearMissesStoredUpsells()
    ensures var ps := [StoredProduct(10, "simple", "Print edition", {"_upsell_ids"}, [11])];
      && ClearPass(ps, true)[0].upsells == [11]
      && ClearPass(ps, false)[0].upsells == []
      && |ClearedIn(ps, false)| == 1
  {
    var ps := [StoredProduct(10, "simple", "Print edition", {"_upsell_ids"}, [11])];
    assert ps[..0] == [];
  }
}

/**
 * `ACFCategoryFilter`: keeps the WooCommerce "Uncategorized" product category out of ACF
 * fields — excluded from taxonomy-field queries, blanked in taxonomy-field results, and
 * removed from the choices of the Publication Type select field.
 */
module AcfCategoryFilter {
  import opened Php

  const PublicationTypeKey := "field_68ac2f304ad26"

  /** `isset( $field['taxonomy'] ) && $field['taxonomy'] === 'product_cat'`. */
  predicate IsProductCatField(field: PhpArray) {
    "taxonomy" in field && field["taxonomy"] == Str("product_cat")
  }

  // ---------------------------------------------------------------------------------------
  // filter_uncategorized_category

  /** `$args['exclude']` after normalisation: unset → `[]`, an array as is, a scalar wrapped in an array. */
  function PriorExcludes(args: PhpArray): (r: seq<Value>)
    ensures !Isset(args, "exclude") ==> r == []
    ensures Isset(args, "exclude") && args["exclude"].List? ==> r == args["exclude"].items
    ensures Isset(args, "exclude") && !args["exclude"].List? ==> r == [args["exclude"]]
  {
    if !Isset(args, "exclude") then []
    else if args["exclude"].List? then args["exclude"].items
    else [args["exclude"]]
  }

  /**
   * The query filter. `uncategorized` is the id of the `uncategorized` product category, or
   * `None` when `get_term_by` finds no such term.
   */
  function FilterUncategorizedCategory(args: PhpArray, field: PhpArray, uncategorized: Option<int>): (r: PhpArray)
    ensures !(IsProductCatField(field) && uncategorized.Some?) ==> r == args
    ensures IsProductCatField(field) && uncategorized.Some? ==>
      && "exclude" in r && r["exclude"].List?
      && r["exclude"].items == PriorExcludes(args) + [Int(uncategorized.value)]
      && forall k :: k != "exclude" ==> (k in r <==> k in args) && (k in r ==> r[k] == args[k])
  {
    if IsProductCatField(field) && uncategorized.Some? then
      args["exclude" := List(PriorExcludes(args) + [Int(uncategorized.value)])]
    else args
  }

  /** Every exclusion that was already there is kept, in order, ahead of the new one. */
  lemma EarlierExclusionsKept(args: PhpArray, field: PhpArray, id: int)
    requires IsProductCatField(field)
    requires "exclude" in args && args["exclude"].List?
    ensures var r := FilterUncategorizedCategory(args, field, Some(id));
      && |r["exclude"].items| == |args["exclude"].items| + 1
      && r["exclude"].items[..|args["exclude"].items|] == args["exclude"].items
      && r["exclude"].items[|args["exclude"].items|] == Int(id)
  {
    var items := args["exclude"].items;
    assert (items + [Int(id)])[..|items|] == items;
  }

  // ---------------------------------------------------------------------------------------
  // filter_uncategorized_result

  function FilterUncategorizedResult(text: string, termSlug: string, field: PhpArray): (r: string)
    ensures IsProductCatField(field) && termSlug == "uncategorized" ==> r == ""
    ensures !(IsProductCatField(field) && termSlug == "uncategorized") ==> r == text
  {
    if IsProductCatField(field) && termSlug == "uncategorized" then "" else text
  }

  // ---------------------------------------------------------------------------------------
  // filter_field_choices

  /** A PHP array key: an integer or a (non-numeric) string. */
  datatype ChoiceKey = IntKey(i: int) | StrKey(s: string)

  type Choice = (ChoiceKey, string)

  /** `$field['choices']`: not set, set to a non-array value, or an ordered array of choices. */
  datatype Choices = NoChoices | Scalar(v: Value) | Entries(entries: seq<Choice>)

  datatype Field = Field(key: Option<string>, choices: Choices)

  predicate ChoiceKeysUnique(s: seq<Choice>) {
    forall i, j :: 0 <= i < j < |s| ==> s[i].0 != s[j].0
  }

  /** The key is 'uncategorized', or the label lowercases to 'uncategorized'. */
  predicate IsUncategorized(c: Choice) {
    c.0 == StrKey("uncategorized") || Lower(c.1) == "uncategorized"
  }

  /** The choices that survive, in order. */
  function KeptChoices(s: seq<Choice>): (r: seq<Choice>)
    ensures |r| <= |s|
    decreases |s|
  {
    if s == [] then []
    else KeptChoices(s[..|s| - 1]) + (if IsUncategorized(s[|s| - 1]) then [] else [s[|s| - 1]])
  }

  lemma {:induction false} KeptChoicesMembers(s: seq<Choice>)
    ensures forall c :: c in KeptChoices(s) <==> c in s && !IsUncategorized(c)
    decreases |s|
  {
    if s != [] {
      KeptChoicesMembers(s[..|s| - 1]);
      assert s == s[..|s| - 1] + [s[|s| - 1]];
    }
  }

  /** Unsetting the key of the next visited choice removes just that choice. */
  lemma UnsetNextChoice(snap: seq<Choice>, k: nat)
    requires ChoiceKeysUnique(snap) && k < |snap|
    ensures UnsetKey(KeptChoices(snap[..k]) + snap[k..], snap[k].0) == KeptChoices(snap[..k]) + snap[k + 1..]
  {
    var kept := KeptChoices(snap[..k]);
    var c := snap[k];
    var rest := snap[k + 1..];
    assert snap[k..] == [c] + rest;
    KeptChoicesMembers(snap[..k]);
    forall j | 0 <= j < |kept| ensures kept[j].0 != c.0 {
      assert kept[j] in snap[..k];
    }
    forall j | 0 <= j < |rest| ensures rest[j].0 != c.0 {
      assert rest[j] == snap[k + 1 + j];
    }
    UnsetKeyAbsent(kept, c.0);
    UnsetKeyAbsent(rest, c.0);
    UnsetKeyConcat(kept, [c] + rest, c.0);
    UnsetKeyConcat([c], rest, c.0);
    assert UnsetKey([c], c.0) == [];
  }

  /** Dropping the `uncategorized` key first changes nothing the label test would not drop anyway. */
  lemma {:induction false} KeptChoicesIgnoresFirstUnset(s: seq<Choice>)
    ensures KeptChoices(UnsetKey(s, StrKey("uncategorized"))) == KeptChoices(s)
    decreases |s|
  {
    if s != [] {
      var t := s[1..];
      assert s == [s[0]] + t;
      KeptChoicesIgnoresFirstUnset(t);
      KeptChoicesCons(s[0], t);
      if s[0].0 != StrKey("uncategorized") {
        assert UnsetKey(s, StrKey("uncategorized")) == [s[0]] + UnsetKey(t, StrKey("uncategorized"));
        KeptChoicesCons(s[0], UnsetKey(t, StrKey("uncategorized")));
      }
    }
  }

  lemma {:induction false} KeptChoicesCons(c: Choice, t: seq<Choice>)
    ensures KeptChoices([c] + t) == (if IsUncategorized(c) then [] else [c]) + KeptChoices(t)
    decreases |t|
  {
    if t != [] {
      var init := t[..|t| - 1];
      KeptChoicesCons(c, init);
      assert ([c] + t)[..|[c] + t| - 1] == [c] + init;
    } else {
      assert ([c] + t)[..0] == [];
    }
  }

  lemma {:induction false} UnsetChoiceKeepsUnique(s: seq<Choice>, k: ChoiceKey)
    requires ChoiceKeysUnique(s)
    ensures ChoiceKeysUnique(UnsetKey(s, k))
    decreases |s|
  {
    if s != [] {
      UnsetChoiceKeepsUnique(s[1..], k);
      UnsetKeyMembers(s[1..], k);
      if s[0].0 != k {
        var w := UnsetKey(s[1..], k);
        forall j | 0 <= j < |w| ensures w[j].0 != s[0].0 {
          assert w[j] in s[1..];
        }
      }
    }
  }

  /** The `foreach` over the choices, unsetting each "uncategorized" one by its key. */
  method UnsetUncategorizedChoices(snapshot: seq<Choice>) returns (choices: seq<Choice>)
    requires ChoiceKeysUnique(snapshot)
    ensures choices == KeptChoices(snapshot)
  {
    choices := snapshot;
    var i := 0;
    while i < |snapshot|
      invariant 0 <= i <= |snapshot|
      invariant choices == KeptChoices(snapshot[..i]) + snapshot[i..]
    {
      ChoiceLoopStep(snapshot, i);
      if IsUncategorized(snapshot[i]) {
        choices := UnsetKey(choices, snapshot[i].0);
      }
      i := i + 1;
    }
    assert snapshot[..|snapshot|] == snapshot;
  }

  /** One pass of the loop keeps the invariant "kept so far, then the unvisited choices". */
  lemma ChoiceLoopStep(snapshot: seq<Choice>, i: nat)
    requires ChoiceKeysUnique(snapshot) && i < |snapshot|
    ensures IsUncategorized(snapshot[i]) ==>
      UnsetKey(KeptChoices(snapshot[..i]) + snapshot[i..], snapshot[i].0) == KeptChoices(snapshot[..i + 1]) + snapshot[i + 1..]
    ensures !IsUncategorized(snapshot[i]) ==>
      KeptChoices(snapshot[..i]) + snapshot[i..] == KeptChoices(snapshot[..i + 1]) + snapshot[i + 1..]
  {
    assert snapshot[..i + 1][..i] == snapshot[..i];
    if IsUncategorized(snapshot[i]) {
      UnsetNextChoice(snapshot, i);
    } else {
      assert snapshot[i..] == [snapshot[i]] + snapshot[i + 1..];
    }
  }

  /**
   * `filter_field_choices`: on the Publication Type field with array choices, the set
   * `uncategorized` key is unset, then every choice keyed `uncategorized` or labelled
   * `uncategorized` in any case is unset. Other fields, and choices that are not an array,
   * pass through.
   */
  method FilterFieldChoices(field: Field) returns (r: Field)
    requires field.choices.Entries? ==> ChoiceKeysUnique(field.choices.entries)
    ensures !(field.key == Some(PublicationTypeKey) && field.choices.Entries?) ==> r == field
    ensures field.key == Some(PublicationTypeKey) && field.choices.Entries? ==>
      r == field.(choices := Entries(KeptChoices(field.choices.entries)))
  {
    r := field;
    if field.key == Some(PublicationTypeKey) && field.choices.Entries? {
      var entries := field.choices.entries;
      UnsetChoiceKeepsUnique(entries, StrKey("uncategorized"));
      KeptChoicesIgnoresFirstUnset(entries);
      var choices := UnsetUncategorizedChoices(UnsetKey(entries, StrKey("uncategorized")));
      r := field.(choices := Entries(choices));
    }
  }

  /** The surviving choices are exactly the input choices that are not "uncategorized", and a second pass keeps them all. */
  lemma KeptChoicesExact(s: seq<Choice>)
    ensures forall c :: c in KeptChoices(s) <==> c in s && !IsUncategorized(c)
    ensures KeptChoices(KeptChoices(s)) == KeptChoices(s)
  {
    KeptChoicesMembers(s);
    KeptChoicesIdempotent(s);
  }

  lemma {:induction false} KeptChoicesIdempotent(s: seq<Choice>)
    ensures KeptChoices(KeptChoices(s)) == KeptChoices(s)
    decreases |s|
  {
    if s != [] {
      var init := s[..|s| - 1];
      var c := s[|s| - 1];
      KeptChoicesIdempotent(init);
      var k := KeptChoices(init);
      assert s == init + [c];
      if !IsUncategorized(c) {
        assert KeptChoices(s) == k + [c];
        assert (k + [c])[..|k + [c]| - 1] == k;
        assert (k + [c])[|k + [c]| - 1] == c;
        assert KeptChoices(k + [c]) == KeptChoices(k) + [c];
      } else {
        assert KeptChoices(s) == k;
      }
    }
  }
}

/**
 * `acf-conditional-taxonomy-simple.js`, the script the theme actually enqueues on the product
 * edit screen. It attaches a change handler to the select inside the type field and hides the
 * Taxonomy field group whenever the selected option's text mentions "subscription".
 */
module ConditionalTaxonomySimple {
  import opened Php
  import ConditionalTaxonomy

  /** The ACF key of the product type field, and of the Taxonomy field group. */
  const TypeFieldKey := "field_68ac2f304ad26"
  const TaxonomyGroupKey := "group_68e48ee0308e8"

  const Needle := "subscription"

  /**
   * One `select` on the page: the `data-key` of its closest keyed ancestor (`None` when there
   * is no such ancestor, so the attribute reads as `undefined`) and its selected option's text.
   */
  datatype SelectField = SelectField(fieldKey: Option<string>, selectedText: string)

  /** What one run of the change handler does to the Taxonomy group. */
  datatype Effect = Unchanged | Hide | Show

  /** `selectedText.toLowerCase().includes('subscription')` after the text was trimmed. */
  predicate MentionsSubscription(selectedText: string) {
    Contains(Lower(Trim(selectedText, ConditionalTaxonomy.JsSpace)), Needle)
  }

  /**
   * The change handler. `groups` is the number of elements matching the Taxonomy group's
   * `data-key`; with none the handler does nothing.
   */
  function ChangeEffect(selectedText: string, groups: nat): (e: Effect)
    ensures e.Unchanged? <==> groups == 0
    ensures e.Hide? <==> groups > 0 && MentionsSubscription(selectedText)
    ensures e.Show? <==> groups > 0 && !MentionsSubscription(selectedText)
  {
    if groups == 0 then Unchanged
    else if MentionsSubscription(selectedText) then Hide
    else Show
  }

  /** The selects that get the handler: those whose field key is, strictly, the type field's. */
  function Handled(selects: seq<SelectField>): (r: seq<SelectField>)
    ensures |r| <= |selects|
    ensures forall s :: s in r <==> s in selects && s.fieldKey == Some(TypeFieldKey)
  {
    if selects == [] then []
    else
      var rest := Handled(selects[1..]);
      assert forall s :: s in selects <==> s == selects[0] || s in selects[1..];
      if selects[0].fieldKey == Some(TypeFieldKey) then [selects[0]] + rest else rest
  }

  /**
   * The initialisation: every handled select, in page order, triggers `change` once, so its
   * handler runs once with the text selected at load time.
   */
  function InitialEffects(selects: seq<SelectField>, groups: nat): (r: seq<Effect>)
    ensures |r| == |Handled(selects)|
    ensures forall i :: 0 <= i < |r| ==> r[i] == ChangeEffect(Handled(selects)[i].selectedText, groups)
  {
    var h := Handled(selects);
    seq(|h|, i requires 0 <= i < |h| => ChangeEffect(h[i].selectedText, groups))
  }

  /** Whether the group is visible after one effect, and after a run of effects. */
  function Apply(shown: bool, e: Effect): bool {
    match e
    case Unchanged => shown
    case Hide => false
    case Show => true
  }

  function ApplyAll(shown: bool, effects: seq<Effect>): bool
    decreases |effects|
  {
    if effects == [] then shown else ApplyAll(Apply(shown, effects[0]), effects[1..])
  }

  /** When no effect touches the group, its visibility is what it was. */
  lemma {:induction false} ApplyAllUnchanged(shown: bool, effects: seq<Effect>)
    requires forall i :: 0 <= i < |effects| ==> effects[i].Unchanged?
    ensures ApplyAll(shown, effects) == shown
    decreases |effects|
  {
    if effects != [] {
      ApplyAllUnchanged(shown, effects[1..]);
    }
  }

  /** When every effect hides or shows, the last one decides. */
  lemma {:induction false} ApplyAllLastWins(shown: bool, effects: seq<Effect>)
    requires effects != []
    requires forall i :: 0 <= i < |effects| ==> !effects[i].Unchanged?
    ensures ApplyAll(shown, effects) == effects[|effects| - 1].Show?
    decreases |effects|
  {
    if |effects| > 1 {
      ApplyAllLastWins(Apply(shown, effects[0]), effects[1..]);
    }
  }

  /**
   * The state the initialisation leaves: with the group on the page and at least one handled
   * select, the group is hidden exactly when the last handled select's text mentions
   * "subscription"; otherwise the group keeps its visibility.
   */
  lemma InitialVisibility(selects: seq<SelectField>, groups: nat, shown: bool)
    ensures var h := Handled(selects);
      ApplyAll(shown, InitialEffects(selects, groups)) ==
        if groups == 0 || h == [] then shown else !MentionsSubscription(h[|h| - 1].selectedText)
  {
    var h, effects := Handled(selects), InitialEffects(selects, groups);
    if groups == 0 || h == [] {
      ApplyAllUnchanged(shown, effects);
    } else {
      ApplyAllLastWins(shown, effects);
    }
  }

  // ---------------------------------------------------------------------------------------
  // Comparison with the slug-based script

  /** The number of slug characters in a string. */
  function SlugCount(s: string): nat {
    if s == [] then 0 else (if ConditionalTaxonomy.SlugChar(s[0]) then 1 else 0) + SlugCount(s[1..])
  }

  lemma {:induction false} KeepSlugCharsLength(s: string)
    ensures |ConditionalTaxonomy.KeepSlugChars(s)| == SlugCount(s)
  {
    if s != [] {
      KeepSlugCharsLength(s[1..]);
    }
  }

  lemma {:induction false} TrimLeftKeepsCount(s: string)
    ensures SlugCount(TrimLeft(s, ConditionalTaxonomy.JsSpace)) == SlugCount(s)
  {
    if s != [] && ConditionalTaxonomy.JsSpace(s[0]) {
      assert !ConditionalTaxonomy.SlugChar(s[0]);
      TrimLeftKeepsCount(s[1..]);
    }
  }

  /** Dashing white space never loses a slug character. */
  lemma {:induction false} DashSpacesKeepsCount(s: string)
    ensures SlugCount(ConditionalTaxonomy.DashSpaces(s)) >= SlugCount(s)
    decreases |s|
  {
    if s != [] {
      if ConditionalTaxonomy.JsSpace(s[0]) {
        assert !ConditionalTaxonomy.SlugChar(s[0]);
        var rest := TrimLeft(s[1..], ConditionalTaxonomy.JsSpace);
        TrimLeftKeepsCount(s[1..]);
        DashSpacesKeepsCount(rest);
        assert ("-" + ConditionalTaxonomy.DashSpaces(rest))[1..] == ConditionalTaxonomy.DashSpaces(rest);
      } else {
        DashSpacesKeepsCount(s[1..]);
        assert ([s[0]] + ConditionalTaxonomy.DashSpaces(s[1..]))[1..] == ConditionalTaxonomy.DashSpaces(s[1..]);
      }
    }
  }

  lemma {:induction false} SlugCountConcat(a: string, b: string)
    ensures SlugCount(a + b) == SlugCount(a) + SlugCount(b)
  {
    if a == [] {
      assert a + b == b;
    } else {
      assert (a + b)[0] == a[0];
      assert (a + b)[1..] == a[1..] + b;
      SlugCountConcat(a[1..], b);
    }
  }

  lemma {:induction false} SlugCountAll(s: string)
    requires forall i :: 0 <= i < |s| ==> ConditionalTaxonomy.SlugChar(s[i])
    ensures SlugCount(s) == |s|
  {
    if s != [] {
      SlugCountAll(s[1..]);
    }
  }

  /** A slice never has more slug characters than the whole. */
  lemma SlugCountSlice(s: string, j: int, k: int)
    requires 0 <= j <= k <= |s|
    ensures SlugCount(s) >= SlugCount(s[j..k])
  {
    assert s == s[..j] + s[j..k] + s[k..];
    SlugCountConcat(s[..j], s[j..k]);
    SlugCountConcat(s[..j] + s[j..k], s[k..]);
  }

  lemma NeedleSlugCount()
    ensures SlugCount(Needle) == 12
  {
    forall i | 0 <= i < |Needle| ensures ConditionalTaxonomy.SlugChar(Needle[i]) {
    }
    SlugCountAll(Needle);
  }

  /** A string holding "subscription" somewhere has at least twelve slug characters. */
  lemma NeedleCount(s: string, j: int)
    requires OccursAt(s, Needle, j)
    ensures SlugCount(s) >= 12
  {
    SlugCountSlice(s, j, j + |Needle|);
    NeedleSlugCount();
  }

  /**
   * Whenever the enqueued script hides the group, the slug-based script would hide it too,
   * whatever the select's value: a slug built from text that mentions "subscription" is longer
   * than every slug in the show list.
   */
  lemma SimpleHideImpliesSlugHide(selected: Option<string>, selectedText: string, groups: nat)
    requires ChangeEffect(selectedText, groups).Hide?
    ensures !ConditionalTaxonomy.ShouldShow(selected, selectedText)
  {
    MentionedSlugIsLong(selectedText);
    LongSlugNotShown(selected, selectedText);
  }

  /** Text that mentions "subscription" has a slug of at least twelve characters. */
  lemma MentionedSlugIsLong(selectedText: string)
    requires MentionsSubscription(selectedText)
    ensures |ConditionalTaxonomy.TermSlug(selectedText)| >= 12
  {
    var t := Lower(Trim(selectedText, ConditionalTaxonomy.JsSpace));
    ContainsIff(t, Needle);
    var j :| OccursAt(t, Needle, j);
    NeedleCount(t, j);
    var d := ConditionalTaxonomy.DashSpaces(t);
    DashSpacesKeepsCount(t);
    KeepSlugCharsLength(d);
  }

  /** Every slug in the show list is shorter than twelve characters. */
  lemma LongSlugNotShown(selected: Option<string>, optionText: string)
    requires |ConditionalTaxonomy.TermSlug(optionText)| >= 12
    ensures !ConditionalTaxonomy.ShouldShow(selected, optionText)
  {
    LongNotAShowTerm(ConditionalTaxonomy.TermSlug(optionText));
  }

  lemma LongNotAShowTerm(t: string)
    requires |t| >= 12
    ensures t !in ConditionalTaxonomy.ShowForTerms
  {
    var terms := ConditionalTaxonomy.ShowForTerms;
    assert forall i :: 0 <= i < |terms| ==> |terms[i]| < 12;
  }

  /**
   * The converse fails: a product type the show list does not name, such as "reviews", is
   * shown by the enqueued script and hidden by the slug-based one.
   */
  lemma UnlistedTypeShownBySimpleScript()
    ensures ChangeEffect("reviews", 1).Show?
    ensures !ConditionalTaxonomy.ShouldShow(Some("reviews"), "reviews")
  {
    ReviewsNotMentioned();
    ReviewsHiddenBySlug();
  }

  lemma ReviewsHiddenBySlug()
    ensures !ConditionalTaxonomy.ShouldShow(Some("reviews"), "reviews")
  {
    ReviewsSlug();
    ReviewsNotAShowTerm();
  }

  /** No term in the show list has the seven letters of "reviews". */
  lemma ReviewsNotAShowTerm()
    ensures "reviews" !in ConditionalTaxonomy.ShowForTerms
  {
    var terms := ConditionalTaxonomy.ShowForTerms;
    assert forall i :: 0 <= i < |terms| ==> |terms[i]| != 7;
  }

  lemma ReviewsNotMentioned()
    ensures !MentionsSubscription("reviews")
  {
    ShortTextLacksNeedle(Lower(Trim("reviews", ConditionalTaxonomy.JsSpace)));
  }

  /** Text shorter than the needle cannot contain it. */
  lemma ShortTextLacksNeedle(t: string)
    requires |t| < |Needle|
    ensures !Contains(t, Needle)
  {
    ContainsIff(t, Needle);
  }

  lemma ReviewsSlug()
    ensures ConditionalTaxonomy.TermSlug("reviews") == "reviews"
  {
    var t := "reviews";
    forall i | 0 <= i < |t| ensures ConditionalTaxonomy.SlugChar(t[i]) {
    }
    ConditionalTaxonomy.SlugTextIsItsOwnSlug(t);
  }
}

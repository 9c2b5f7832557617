/**
 * `acf-conditional-taxonomy.js`: on the product edit screen, the Taxonomy field group is
 * shown only when the selected product type is one of the listed terms. The selected
 * option's text is turned into a term slug and looked up in the show and hide lists.
 */
module ConditionalTaxonomy {
  import opened Php

  /** The lists the page is given (`showForTerms`, `hideForTerms`). */
  const ShowForTerms: seq<string> := ["articles", "books", "magazines"]
  const HideForTerms: seq<string> := ["subscription-plans"]

  /** JavaScript white space, as `trim()` and the regular expression `\s` both read it. */
  predicate JsSpace(c: char) {
    || c == ' ' || c == '\t' || c == '\n' || c == '\U{000B}' || c == '\U{000C}' || c == '\r'
    || c == '\U{00A0}' || c == '\U{1680}' || ('\U{2000}' <= c <= '\U{200A}')
    || c == '\U{2028}' || c == '\U{2029}' || c == '\U{202F}' || c == '\U{205F}' || c == '\U{3000}'
    || c == '\U{FEFF}'
  }

  predicate SlugChar(c: char) {
    ('a' <= c <= 'z') || ('0' <= c <= '9') || c == '-'
  }

  predicate NoSpace(s: string) {
    forall i :: 0 <= i < |s| ==> !JsSpace(s[i])
  }

  /**
   * `.replace( /\s+/g, '-' )`: every maximal run of white space becomes one hyphen; every
   * other character stays (`DashAroundRun` places the hyphens).
   */
  function DashSpaces(s: string): (r: string)
    ensures NoSpace(r)
    decreases |s|
  {
    if s == [] then []
    else if JsSpace(s[0]) then "-" + DashSpaces(TrimLeft(s[1..], JsSpace))
    else [s[0]] + DashSpaces(s[1..])
  }

  /** Every character other than white space and the hyphen keeps its count. */
  lemma {:induction false} DashSpacesKeepsText(s: string)
    ensures forall c :: !JsSpace(c) && c != '-' ==> multiset(DashSpaces(s))[c] == multiset(s)[c]
    decreases |s|
  {
    if s != [] {
      assert s == [s[0]] + s[1..];
      if JsSpace(s[0]) {
        TrimLeftKeepsText(s[1..], JsSpace);
        DashSpacesKeepsText(TrimLeft(s[1..], JsSpace));
      } else {
        DashSpacesKeepsText(s[1..]);
      }
    }
  }

  /**
   * `.replace( /[^a-z0-9-]/g, '' )`: the slug characters of `s`, every one of them, in their
   * order in `s`.
   */
  function KeepSlugChars(s: string): (r: string)
    ensures |r| <= |s|
    ensures forall i :: 0 <= i < |r| ==> SlugChar(r[i])
    ensures forall c :: multiset(r)[c] == if SlugChar(c) then multiset(s)[c] else 0
    ensures Subsequence(r, s)
  {
    if s == [] then []
    else
      assert s == [s[0]] + s[1..];
      var rest := KeepSlugChars(s[1..]);
      if SlugChar(s[0]) then
        assert ([s[0]] + rest)[1..] == rest;
        [s[0]] + rest
      else
        assert Subsequence(rest, s) by { SubsequenceSkip(rest, s); }
        rest
  }

  /** The term slug of an option's text: trimmed, lowercased, spaces dashed, then filtered. */
  function TermSlug(optionText: string): string {
    KeepSlugChars(DashSpaces(Lower(Trim(optionText, JsSpace))))
  }

  lemma {:induction false} KeepSlugCharsFixes(s: string)
    requires forall i :: 0 <= i < |s| ==> SlugChar(s[i])
    ensures KeepSlugChars(s) == s
  {
    if s != [] {
      KeepSlugCharsFixes(s[1..]);
    }
  }

  lemma {:induction false} DashSpacesFixes(s: string)
    requires forall i :: 0 <= i < |s| ==> !JsSpace(s[i])
    ensures DashSpaces(s) == s
  {
    if s != [] {
      DashSpacesFixes(s[1..]);
    }
  }

  lemma TrimFixes(s: string)
    requires forall i :: 0 <= i < |s| ==> !JsSpace(s[i])
    ensures Trim(s, JsSpace) == s
  {
    if s != [] {
      assert TrimLeft(s, JsSpace) == s;
      assert TrimRight(s, JsSpace) == s;
    }
  }

  lemma SlugCharFixed(c: char)
    requires SlugChar(c)
    ensures !JsSpace(c) && LowerChar(c) == c
  {
  }

  /** Text made only of slug characters is its own slug. */
  lemma SlugTextIsItsOwnSlug(s: string)
    requires forall i :: 0 <= i < |s| ==> SlugChar(s[i])
    ensures TermSlug(s) == s
  {
    SlugTextHasNoSpace(s);
    TrimFixes(s);
    SlugTextIsLower(s);
    DashSpacesFixes(s);
    KeepSlugCharsFixes(s);
  }

  lemma SlugTextHasNoSpace(s: string)
    requires forall i :: 0 <= i < |s| ==> SlugChar(s[i])
    ensures forall i :: 0 <= i < |s| ==> !JsSpace(s[i])
  {
    forall i | 0 <= i < |s| ensures !JsSpace(s[i]) {
      SlugCharFixed(s[i]);
    }
  }

  lemma SlugTextIsLower(s: string)
    requires forall i :: 0 <= i < |s| ==> SlugChar(s[i])
    ensures Lower(s) == s
  {
    forall i | 0 <= i < |s| ensures LowerChar(s[i]) == s[i] {
      SlugCharFixed(s[i]);
    }
  }

  /** A slug is its own slug: the conversion is idempotent. */
  lemma TermSlugIdempotent(text: string)
    ensures TermSlug(TermSlug(text)) == TermSlug(text)
  {
    SlugTextIsItsOwnSlug(TermSlug(text));
  }

  /** The option "Subscription Plans" has the hidden slug; the words are joined by one hyphen. */
  lemma SubscriptionPlansSlug()
    ensures TermSlug("Subscription Plans") == "subscription-plans"
  {
    TrimSubscriptionPlans();
    LowerSubscriptionPlans();
    DashSubscriptionPlans();
    KeepSubscriptionPlans();
  }

  lemma KeepSubscriptionPlans()
    ensures KeepSlugChars("subscription-plans") == "subscription-plans"
  {
    var r := "subscription-plans";
    forall i | 0 <= i < |r| ensures SlugChar(r[i]) {
    }
    KeepSlugCharsFixes(r);
  }

  lemma TrimSubscriptionPlans()
    ensures Trim("Subscription Plans", JsSpace) == "Subscription Plans"
  {
    var t := "Subscription Plans";
    assert t[0] == 'S' && t[|t| - 1] == 's';
    TrimEnds(t);
  }

  lemma LowerSubscriptionPlans()
    ensures Lower("Subscription Plans") == "subscription plans"
  {
    var t, l := "Subscription Plans", "subscription plans";
    forall i | 0 <= i < |t| ensures LowerChar(t[i]) == l[i] {
    }
  }

  lemma DashSubscriptionPlans()
    ensures DashSpaces("subscription plans") == "subscription-plans"
  {
    SubscriptionPlansWords();
    SubscriptionWord();
    PlansWord();
    assert AllOf(" ", JsSpace);
    DashAroundRun("subscription", " ", "plans");
  }

  lemma SubscriptionWord()
    ensures NoSpace("subscription")
  {
    WordIsItsOwnDash("subscription");
  }

  lemma PlansWord()
    ensures DashSpaces("plans") == "plans" && !JsSpace("plans"[0])
  {
    WordIsItsOwnDash("plans");
  }

  lemma SubscriptionPlansWords()
    ensures "subscription plans" == "subscription" + " " + "plans"
    ensures "subscription-plans" == "subscription" + "-" + "plans"
  {
  }

  /** A lower-case word has no white space, so dashing leaves it as it is. */
  lemma WordIsItsOwnDash(w: string)
    requires w != [] && forall i :: 0 <= i < |w| ==> 'a' <= w[i] <= 'z'
    ensures DashSpaces(w) == w && forall i :: 0 <= i < |w| ==> !JsSpace(w[i])
  {
    LettersAreNotSpaces(w);
    DashSpacesFixes(w);
  }

  lemma LettersAreNotSpaces(s: string)
    requires forall i :: 0 <= i < |s| ==> 'a' <= s[i] <= 'z'
    ensures forall i :: 0 <= i < |s| ==> !JsSpace(s[i])
  {
  }

  /** Trimming leaves a string whose first and last characters are not white space. */
  lemma TrimEnds(s: string)
    requires s != [] && !JsSpace(s[0]) && !JsSpace(s[|s| - 1])
    ensures Trim(s, JsSpace) == s
  {
    assert TrimLeft(s, JsSpace) == s;
    assert TrimRight(s, JsSpace) == s;
  }

  /** White space followed by text (or nothing) leaves only the text once the run is dropped. */
  lemma {:induction false} TrimLeftRun(w: string, b: string)
    requires AllOf(w, JsSpace)
    requires b == [] || !JsSpace(b[0])
    ensures TrimLeft(w + b, JsSpace) == b
    decreases |w|
  {
    if w != [] {
      assert (w + b)[1..] == w[1..] + b;
      TrimLeftRun(w[1..], b);
    } else {
      assert w + b == b;
    }
  }

  /** Text without white space passes through unchanged, whatever follows it. */
  lemma {:induction false} DashAfterText(x: string, y: string)
    requires NoSpace(x)
    ensures DashSpaces(x + y) == x + DashSpaces(y)
    decreases |x|
  {
    if x != [] {
      var s := x + y;
      assert s[0] == x[0] && s[1..] == x[1..] + y;
      DashAfterText(x[1..], y);
      assert [x[0]] + (x[1..] + DashSpaces(y)) == x + DashSpaces(y);
    } else {
      assert x + y == y;
    }
  }

  /** A run of white space, at the start or after a word, becomes exactly one hyphen. */
  lemma DashRunFirst(w: string, b: string)
    requires w != [] && AllOf(w, JsSpace)
    requires b == [] || !JsSpace(b[0])
    ensures DashSpaces(w + b) == "-" + DashSpaces(b)
  {
    var s := w + b;
    assert s[0] == w[0] && s[1..] == w[1..] + b;
    TrimLeftRun(w[1..], b);
  }

  /**
   * One hyphen per run: a word `x`, then a run of white space `w`, then text `b` that is empty
   * or starts with a non-space: the word stays, the run becomes one hyphen and the rest is
   * converted on its own.
   */
  lemma DashAroundRun(x: string, w: string, b: string)
    requires NoSpace(x)
    requires w != [] && AllOf(w, JsSpace)
    requires b == [] || !JsSpace(b[0])
    ensures DashSpaces(x + w + b) == x + "-" + DashSpaces(b)
  {
    var t, e := w + b, DashSpaces(b);
    assert x + w + b == x + t;
    assert DashSpaces(x + t) == x + DashSpaces(t) by { DashAfterText(x, t); }
    assert DashSpaces(t) == "-" + e by { DashRunFirst(w, b); }
    assert x + ("-" + e) == x + "-" + e;
  }

  /**
   * `toggleTaxonomyGroup`'s decision. `selected` is the select's value (`None` for null);
   * `optionText` is the selected option's text. With no truthy value the slug is empty and
   * the group is hidden.
   */
  function ShouldShow(selected: Option<string>, optionText: string): (show: bool)
    ensures show <==> selected.Some? && selected.value != "" && TermSlug(optionText) in ShowForTerms
  {
    var slug := if selected.Some? && selected.value != "" then TermSlug(optionText) else "";
    if slug != "" && slug in ShowForTerms then true
    else if slug != "" && slug in HideForTerms then false
    else false
  }

  /** A slug in the hide list and an unknown slug have the same effect: the group is hidden. */
  lemma HiddenUnlessListed(selected: Option<string>, optionText: string)
    requires TermSlug(optionText) in HideForTerms || TermSlug(optionText) !in ShowForTerms
    ensures !ShouldShow(selected, optionText)
  {
    var t := TermSlug(optionText);
    if t in HideForTerms {
      HiddenSlugNotShown(t);
    }
  }

  lemma HiddenSlugNotShown(t: string)
    requires t in HideForTerms
    ensures t !in ShowForTerms
  {
    assert |t| == 18;
  }

  /** The state `initConditionalLogic` leaves: aborted, or set up with the group shown or hidden. */
  datatype InitOutcome = Aborted | Ready(groupShown: bool)

  /**
   * `initConditionalLogic`: it needs both the type field and the group on the page; then it
   * applies the decision once for the initial state.
   */
  function InitConditionalLogic(typeFields: nat, groups: nat, selected: Option<string>, optionText: string): (r: InitOutcome)
    ensures r.Aborted? <==> typeFields == 0 || groups == 0
    ensures r.Ready? ==> r.groupShown == ShouldShow(selected, optionText)
  {
    if typeFields == 0 || groups == 0 then Aborted else Ready(ShouldShow(selected, optionText))
  }
}

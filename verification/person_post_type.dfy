/**
 * `PersonPostType`: the title of a Person post is generated from its First Name and Last
 * Name fields on every ACF save, and the Person edit screens hide the title box and, on the
 * list screen filtered by person type, rename the page heading.
 */
module PersonPostType {
  import opened Php

  const PersonType := "person"

  /**
   * The generated title. With both names set it is "first last"; with one set it is that
   * one; with neither it is empty. "Set" is PHP `! empty()`, so a name of "0" counts as
   * missing.
   */
  function PersonTitle(first: Option<string>, last: Option<string>): (r: string)
    ensures !EmptyOpt(first) ==> IsPrefix(first.value, r)
    ensures !EmptyOpt(last) ==> |last.value| <= |r| && r[|r| - |last.value|..] == last.value
    ensures !EmptyOpt(first) && !EmptyOpt(last) ==>
      |r| == |first.value| + 1 + |last.value| && r[|first.value|] == ' '
    ensures EmptyOpt(first) && !EmptyOpt(last) ==> |r| == |last.value|
    ensures !EmptyOpt(first) && EmptyOpt(last) ==> |r| == |first.value|
    ensures EmptyOpt(first) && EmptyOpt(last) ==> r == ""
  {
    if !EmptyOpt(first) && !EmptyOpt(last) then first.value + " " + last.value
    else if !EmptyOpt(first) then first.value
    else if !EmptyOpt(last) then last.value
    else ""
  }

  /** The title is empty, in the sense of PHP `empty()`, exactly when both names are. */
  lemma TitleEmptyIffNoName(first: Option<string>, last: Option<string>)
    ensures EmptyStr(PersonTitle(first, last)) <==> EmptyOpt(first) && EmptyOpt(last)
  {
    var r := PersonTitle(first, last);
    if !EmptyOpt(first) && !EmptyOpt(last) {
      assert |r| >= 3;
    } else if !EmptyOpt(first) {
      assert r == first.value;
    } else if !EmptyOpt(last) {
      assert r == last.value;
    }
  }

  /** One `wp_update_post` call: the post, its new title and its new slug. */
  datatype PostUpdate = PostUpdate(id: int, title: string, name: string)

  /**
   * What one run of the save callback does: the post update it issues, if any, and whether
   * the callback is registered on `acf/save_post` afterwards.
   */
  datatype SaveEffect = SaveEffect(update: Option<PostUpdate>, hookedAfter: bool)

  /**
   * `generate_person_title_from_name`. The post type and the two ACF field values are
   * inputs; `sanitize` stands for `sanitize_title`; `hooked` says whether the callback is
   * registered when it starts. Off Person posts it returns at once. On a Person post it
   * unhooks itself, so the update cannot re-enter it, and hooks itself again at the end.
   */
  function GenerateTitle(
    postId: int, postType: string, first: Option<string>, last: Option<string>,
    sanitize: string -> string, hooked: bool): (r: SaveEffect)
    ensures postType != PersonType ==> r == SaveEffect(None, hooked)
    ensures postType == PersonType ==> r.hookedAfter
    ensures r.update.Some? <==> postType == PersonType && !(EmptyOpt(first) && EmptyOpt(last))
    ensures r.update.Some? ==>
      var title := PersonTitle(first, last);
      r.update.value == PostUpdate(postId, title, sanitize(title))
  {
    if postType != PersonType then SaveEffect(None, hooked)
    else
      var title := PersonTitle(first, last);
      TitleEmptyIffNoName(first, last);
      SaveEffect(if EmptyStr(title) then None else Some(PostUpdate(postId, title, sanitize(title))), true)
  }

  // ---------------------------------------------------------------------------------------
  // hide_person_title_field

  datatype Screen = Screen(postType: string, base: string)

  /** What the admin head receives: nothing, the style block, or the style block and a heading script. */
  datatype HeadOutput = NoOutput | StyleOnly | StyleAndHeading(heading: string)

  predicate KeyChar(c: char) {
    ('a' <= c <= 'z') || ('0' <= c <= '9') || c == '_' || c == '-'
  }

  /** WordPress `sanitize_key`: lowercase, then drop every character outside `[a-z0-9_-]`. */
  function SanitizeKey(s: string): (r: string)
    ensures |r| <= |s|
    ensures forall i :: 0 <= i < |r| ==> KeyChar(r[i])
    ensures forall c :: multiset(r)[c] == if KeyChar(c) then multiset(Lower(s))[c] else 0
    ensures Subsequence(r, Lower(s))
  {
    if s == [] then []
    else
      var c, l := LowerChar(s[0]), Lower(s);
      LowerCons(s);
      var rest := SanitizeKey(s[1..]);
      if KeyChar(c) then
        assert ([c] + rest)[1..] == rest;
        [c] + rest
      else
        assert Subsequence(rest, l) by { SubsequenceSkip(rest, l); }
        rest
  }

  /** A key that is already sanitised is left as it is. */
  lemma SanitizeKeyFixesKeys(s: string)
    requires forall i :: 0 <= i < |s| ==> KeyChar(s[i])
    ensures SanitizeKey(s) == s
  {
    assert forall i :: 0 <= i < |s| ==> LowerChar(s[i]) == s[i];
    SanitizeKeyLowersKeys(s);
    assert Lower(s) == s;
  }

  /** Sanitising twice is sanitising once. */
  lemma SanitizeKeyIdempotent(s: string)
    ensures SanitizeKey(SanitizeKey(s)) == SanitizeKey(s)
  {
    SanitizeKeyFixesKeys(SanitizeKey(s));
  }

  const HeadingOverrides: map<string, string> :=
    map["contributor" := "Contributors", "general-editor" := "General Editors", "team" := "Team"]

  /**
   * `hide_person_title_field`. `personType` is `$_GET['person-type']` when set. Nothing is
   * emitted off the Person screens; the heading script is added only on the list screen
   * (`base == 'edit'`) and only for a known person type.
   */
  function HidePersonTitleField(screen: Option<Screen>, personType: Option<string>): (r: HeadOutput)
    ensures r.NoOutput? <==> screen.None? || screen.value.postType != PersonType
    ensures r.StyleAndHeading? <==>
      && screen.Some? && screen.value.postType == PersonType && screen.value.base == "edit"
      && personType.Some? && SanitizeKey(personType.value) in HeadingOverrides
    ensures r.StyleAndHeading? ==> r.heading == HeadingOverrides[SanitizeKey(personType.value)]
  {
    if screen.None? || screen.value.postType != PersonType then NoOutput
    else if screen.value.base == "edit" && personType.Some? && SanitizeKey(personType.value) in HeadingOverrides then
      StyleAndHeading(HeadingOverrides[SanitizeKey(personType.value)])
    else StyleOnly
  }

  /** Each of the three person types, written as a key, gets its heading on the list screen. */
  lemma HeadingForEachPersonType(k: string)
    requires k in HeadingOverrides
    ensures HidePersonTitleField(Some(Screen(PersonType, "edit")), Some(k)) == StyleAndHeading(HeadingOverrides[k])
  {
    assert forall i :: 0 <= i < |k| ==> KeyChar(k[i]);
    SanitizeKeyFixesKeys(k);
  }

  /** The query value is lowercased before the lookup, so `Team` finds the `team` heading. */
  lemma HeadingLookupIgnoresCase()
    ensures HidePersonTitleField(Some(Screen(PersonType, "edit")), Some("Team")) == StyleAndHeading("Team")
  {
    TeamKey();
  }

  lemma TeamKey()
    ensures SanitizeKey("Team") == "team"
  {
    var t, k := "Team", "team";
    assert forall i :: 0 <= i < |t| ==> LowerChar(t[i]) == k[i] && KeyChar(k[i]);
    SanitizeKeyLowersKeys(t);
    assert Lower(t) == k;
  }

  /** Text whose lowercase letters are all key characters sanitises to its lowercase form. */
  lemma {:induction false} SanitizeKeyLowersKeys(s: string)
    requires forall i :: 0 <= i < |s| ==> KeyChar(LowerChar(s[i]))
    ensures SanitizeKey(s) == Lower(s)
  {
    if s != [] {
      SanitizeKeyLowersKeys(s[1..]);
      LowerCons(s);
    }
  }
}

/**
 * `functions.php`: the theme's bootstrap. Two pieces of it are logic rather than wiring: the
 * flag that says whether the site runs locally, and the fallback class autoloader used when
 * the Composer autoloader is missing.
 */
module ThemeBootstrap {
  import opened Php

  // ---------------------------------------------------------------------------------------
  // Local environment

  const LocalEnvironments: seq<string> := ["local", "development"]

  /** PHP truthiness of a `strpos` result: false and position 0 are both falsy. */
  predicate Truthy(pos: Option<nat>) {
    pos.Some? && pos.value != 0
  }

  /** `strpos` is truthy exactly when the needle occurs somewhere but not at the very start. */
  lemma StrposTruthy(s: string, needle: string)
    ensures Truthy(IndexOf(s, needle)) <==> (exists j :: OccursAt(s, needle, j)) && !OccursAt(s, needle, 0)
  {
    var r := IndexOf(s, needle);
    if r.Some? {
      assert OccursAt(s, needle, r.value);
    }
  }

  /**
   * `$is_local`: the environment type is strictly one of the local ones, or the home URL
   * holds ".test" or ".local" at a truthy position.
   */
  function IsLocal(environmentType: string, homeUrl: string): (local: bool)
    ensures environmentType in LocalEnvironments ==> local
    ensures local <==> || environmentType in LocalEnvironments
                       || ((exists j :: OccursAt(homeUrl, ".test", j)) && !OccursAt(homeUrl, ".test", 0))
                       || ((exists j :: OccursAt(homeUrl, ".local", j)) && !OccursAt(homeUrl, ".local", 0))
  {
    StrposTruthy(homeUrl, ".test");
    StrposTruthy(homeUrl, ".local");
    environmentType in LocalEnvironments || Truthy(IndexOf(homeUrl, ".test")) || Truthy(IndexOf(homeUrl, ".local"))
  }

  /** For a home URL with a scheme, the position-0 case cannot arise: the test is plain containment. */
  lemma SchemeUrlLocalIffContains(environmentType: string, homeUrl: string)
    requires IsPrefix("http", homeUrl)
    ensures IsLocal(environmentType, homeUrl) <==>
      environmentType in LocalEnvironments || Contains(homeUrl, ".test") || Contains(homeUrl, ".local")
  {
    assert homeUrl[0] == 'h';
    assert !OccursAt(homeUrl, ".test", 0) && !OccursAt(homeUrl, ".local", 0);
    ContainsIff(homeUrl, ".test");
    ContainsIff(homeUrl, ".local");
  }

  /** A bare ".test" home URL on a production site is not local: strpos returns 0, which is falsy. */
  lemma MarkerAtStartIsNotLocal()
    ensures !IsLocal("production", ".test")
  {
    assert IsPrefix(".test", ".test");
    assert IndexOf(".test", ".test") == Some(0);
  }

  // ---------------------------------------------------------------------------------------
  // Fallback autoloader

  /** The theme namespace, `TenUpTheme\`. */
  const Namespace := "TenUpTheme\\"

  /** `strpos` reports position 0 exactly for a prefix. */
  lemma IndexOfZeroIffPrefix(s: string, needle: string)
    ensures IndexOf(s, needle) == Some(0) <==> IsPrefix(needle, s)
  {
  }

  /**
   * The class part of the path: every occurrence of the namespace removed, then every
   * backslash replaced by the directory separator `sep`.
   */
  function RelativePath(className: string, sep: string): (r: string)
    ensures '\\' !in sep ==> '\\' !in r
  {
    var stripped := Replace(className, Namespace, "");
    assert '\\' !in sep ==> '\\' !in Replace(stripped, "\\", sep) by {
      if '\\' !in sep {
        ReplaceCharRemovesAll(stripped, '\\', sep);
      }
    }
    Replace(stripped, "\\", sep)
  }

  /**
   * The file the autoloader would try for `className`, with `dir` for `__DIR__` and `sep` for
   * `DIRECTORY_SEPARATOR`; `None` for a class outside the namespace.
   */
  function AutoloadPath(className: string, dir: string, sep: string): (r: Option<string>)
    ensures r.Some? <==> IsPrefix(Namespace, className)
    ensures r.Some? ==> r.value == dir + "/src/" + RelativePath(className, sep) + ".php"
  {
    IndexOfZeroIffPrefix(className, Namespace);
    if IndexOf(className, Namespace) != Some(0) then None
    else Some(dir + "/src/" + Replace(Replace(className, Namespace, ""), "\\", sep) + ".php")
  }

  /**
   * The registered autoloader: the file it requires, if any. `fileExists` stands for
   * `file_exists`.
   */
  function Autoload(className: string, dir: string, sep: string, fileExists: string -> bool): (required: Option<string>)
    ensures required.Some? <==> IsPrefix(Namespace, className) && fileExists(AutoloadPath(className, dir, sep).value)
    ensures required.Some? ==> required == AutoloadPath(className, dir, sep)
  {
    var path := AutoloadPath(className, dir, sep);
    if path.Some? && fileExists(path.value) then path else None
  }

  /** A namespace occurrence preceded by backslash-free text is the first one. */
  lemma NamespaceFirstAfter(a: string, b: string)
    requires '\\' !in a
    ensures IndexOf(a + Namespace + b, Namespace) == Some(|a|)
  {
    var s := a + Namespace + b;
    assert s[|a|..|a| + |Namespace|] == Namespace;
    assert OccursAt(s, Namespace, |a|);
    assert forall i :: 0 <= i < |Namespace| - 1 ==> Namespace[i] != '\\';
    forall j | 0 <= j < |a| ensures !OccursAt(s, Namespace, j) {
      var k := j + |Namespace| - 1;
      assert s[k] != '\\' by {
        if k < |a| {
          assert s[k] == a[k];
        } else {
          assert s[k] == Namespace[k - |a|];
        }
      }
      assert s[j..j + |Namespace|][|Namespace| - 1] == s[k];
    }
    match IndexOf(s, Namespace)
    case None =>
    case Some(i) =>
      assert !(i < |a|) && !(i > |a|);
  }

  /**
   * The namespace is stripped wherever it occurs, not only at the start: an occurrence after a
   * backslash-free stretch is removed and the scan goes on after it.
   */
  lemma NamespaceStrippedEverywhere(a: string, b: string)
    requires '\\' !in a
    ensures Replace(a + Namespace + b, Namespace, "") == a + Replace(b, Namespace, "")
  {
    var s := a + Namespace + b;
    NamespaceFirstAfter(a, b);
    ReplaceAt(s, Namespace, "");
    assert s[..|a|] + "" == a;
    assert s[|a| + |Namespace|..] == b;
  }

  /** The leading namespace is stripped, and the scan goes on after it. */
  lemma NamespacePrefixStripped(rest: string)
    ensures Replace(Namespace + rest, Namespace, "") == Replace(rest, Namespace, "")
  {
    var s := Namespace + rest;
    assert IsPrefix(Namespace, s);
    assert IndexOf(s, Namespace) == Some(0);
    ReplaceAt(s, Namespace, "");
    assert s[..0] + "" == [];
    assert s[|Namespace|..] == rest;
  }

  /** A class in the namespace maps to `<dir>/src/<rest>.php`, with the rest stripped and separated. */
  lemma NamespacedClassPath(rest: string, dir: string, sep: string)
    ensures AutoloadPath(Namespace + rest, dir, sep) ==
      Some(dir + "/src/" + Replace(Replace(rest, Namespace, ""), "\\", sep) + ".php")
  {
    assert IsPrefix(Namespace, Namespace + rest);
    NamespacePrefixStripped(rest);
  }
}

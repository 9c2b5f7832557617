/**
 * The theme's ACF sync class `ACFSync`: the JSON save and load points, the "needs sync" report
 * shown in the admin (notice and admin-bar node), and the unconditional "sync all" action.
 */
module AcfSync {
  import opened Php
  import opened AcfFieldGroups

  // ---------------------------------------------------------------------------------------
  // Save and load points

  /** `set_acf_json_save_point`: the incoming path is discarded. */
  function SaveJsonPoint(path: string, stylesheetDir: string): (r: string)
    ensures IsPrefix(stylesheetDir, r) && r[|stylesheetDir|..] == "/acf-json"
  {
    stylesheetDir + "/acf-json"
  }

  /** The save point depends on the stylesheet directory alone. */
  lemma SaveJsonPointIgnoresInput(p1: string, p2: string, stylesheetDir: string)
    ensures SaveJsonPoint(p1, stylesheetDir) == SaveJsonPoint(p2, stylesheetDir)
  {
  }

  /**
   * A PHP list of paths: its (key, value) entries in order, and the key the next `[] =`
   * append will use (PHP keeps that counter across `unset`).
   */
  datatype PathList = PathList(entries: seq<(int, string)>, nextIndex: int)

  /** Every key is below the append counter, so an append never overwrites an entry. */
  predicate WellFormed(p: PathList) {
    forall i :: 0 <= i < |p.entries| ==> p.entries[i].0 < p.nextIndex
  }

  /**
   * `set_acf_json_load_point`: the entry at key 0 is dropped and the theme's `acf-json`
   * directory is appended under the next free key; the other entries keep their keys.
   */
  function SetJsonLoadPoint(paths: PathList, stylesheetDir: string): (r: PathList)
    ensures |r.entries| >= 1
    ensures r.entries[|r.entries| - 1] == (paths.nextIndex, SaveJsonPoint("", stylesheetDir))
    ensures forall e :: e in r.entries[..|r.entries| - 1] <==> e in paths.entries && e.0 != 0
    ensures Subsequence(r.entries[..|r.entries| - 1], paths.entries)
    ensures (forall i :: 0 <= i < |paths.entries| ==> paths.entries[i].0 != 0) ==> r.entries[..|r.entries| - 1] == paths.entries
    ensures r.nextIndex == paths.nextIndex + 1
  {
    var kept := UnsetKey(paths.entries, 0);
    assert forall e :: e in kept <==> e in paths.entries && e.0 != 0 by {
      forall e ensures e in kept <==> e in paths.entries && e.0 != 0 {
        UnsetKeyMember(paths.entries, 0, e);
      }
    }
    UnsetKeyKeepsOrder(paths.entries, 0);
    assert (forall i :: 0 <= i < |paths.entries| ==> paths.entries[i].0 != 0) ==> kept == paths.entries by {
      if forall i :: 0 <= i < |paths.entries| ==> paths.entries[i].0 != 0 {
        UnsetKeyAbsent(paths.entries, 0);
      }
    }
    var r := PathList(kept + [(paths.nextIndex, stylesheetDir + "/acf-json")], paths.nextIndex + 1);
    assert r.entries[..|r.entries| - 1] == kept;
    r
  }

  /**
   * On a well-formed list the appended key is new: the theme's path is added next to the
   * kept entries rather than replacing one, and the result is well-formed again.
   */
  lemma LoadPointAppendsFreshKey(paths: PathList, stylesheetDir: string)
    requires WellFormed(paths)
    ensures var r := SetJsonLoadPoint(paths, stylesheetDir);
      && WellFormed(r)
      && forall i :: 0 <= i < |r.entries| - 1 ==> r.entries[i].0 != paths.nextIndex
  {
    var r := SetJsonLoadPoint(paths, stylesheetDir);
    var kept := r.entries[..|r.entries| - 1];
    forall i | 0 <= i < |r.entries| - 1 ensures r.entries[i].0 < paths.nextIndex {
      assert r.entries[i] == kept[i];
      assert kept[i] in paths.entries;
    }
  }

  // ---------------------------------------------------------------------------------------
  // The needs-sync report

  datatype SyncStatus = ImportNeeded | UpdateNeeded

  /** One row of the report: key, title, status and file base name. */
  datatype SyncNeed = SyncNeed(key: string, title: string, status: SyncStatus, file: string)

  /** The report row a file contributes: none for invalid or up-to-date files. */
  function NeedOf(f: JsonFile, groups: map<string, DbGroup>): (r: Option<SyncNeed>)
    ensures r.Some? <==> Decide(f, groups) == ImportNew || Decide(f, groups) == UpdateExisting
    ensures r.Some? ==> r.value == SyncNeed(FileKey(f), TitleOf(f.data.value),
      if FileKey(f) in groups then UpdateNeeded else ImportNeeded, f.name)
  {
    match Decide(f, groups)
    case ImportNew => Some(SyncNeed(FileKey(f), TitleOf(f.data.value), ImportNeeded, f.name))
    case UpdateExisting => Some(SyncNeed(FileKey(f), TitleOf(f.data.value), UpdateNeeded, f.name))
    case _ => None
  }

  /** The rows of the report, in file order. */
  function NeedsSyncList(files: seq<JsonFile>, groups: map<string, DbGroup>): seq<SyncNeed>
    decreases |files|
  {
    if files == [] then []
    else
      var prev := NeedsSyncList(files[..|files| - 1], groups);
      match NeedOf(files[|files| - 1], groups)
      case None => prev
      case Some(n) => prev + [n]
  }

  /** A row is in the report exactly when some file contributes it; there are at most as many rows as files. */
  lemma {:induction false} NeedsSyncListExact(files: seq<JsonFile>, groups: map<string, DbGroup>)
    ensures forall n :: n in NeedsSyncList(files, groups) <==> exists i :: 0 <= i < |files| && NeedOf(files[i], groups) == Some(n)
    ensures |NeedsSyncList(files, groups)| <= |files|
    decreases |files|
  {
    if files != [] {
      var init := files[..|files| - 1];
      NeedsSyncListExact(init, groups);
      forall n ensures n in NeedsSyncList(files, groups) <==> exists i :: 0 <= i < |files| && NeedOf(files[i], groups) == Some(n) {
        if n in NeedsSyncList(init, groups) {
          var i :| 0 <= i < |init| && NeedOf(init[i], groups) == Some(n);
          assert files[i] == init[i];
        }
        if i :| 0 <= i < |files| && NeedOf(files[i], groups) == Some(n) {
          if i < |init| {
            assert files[i] == init[i];
          }
        }
      }
    }
  }

  /**
   * `get_groups_needing_sync`: nothing when ACF is not loaded; otherwise one row for every
   * valid file whose group is missing or older in the database, in file order.
   */
  method GetGroupsNeedingSync(acfAvailable: bool, files: seq<JsonFile>, groups: map<string, DbGroup>)
    returns (needs: seq<SyncNeed>)
    ensures !acfAvailable ==> needs == []
    ensures acfAvailable ==> needs == NeedsSyncList(files, groups)
  {
    if !acfAvailable {
      return [];
    }
    needs := [];
    if files == [] {
      return;
    }
    var i := 0;
    while i < |files|
      invariant 0 <= i <= |files|
      invariant needs == NeedsSyncList(files[..i], groups)
    {
      assert files[..i + 1][..i] == files[..i];
      var f := files[i];
      if ValidFile(f) {
        var key := FileKey(f);
        if key !in groups {
          needs := needs + [SyncNeed(key, TitleOf(f.data.value), ImportNeeded, f.name)];
        } else if JsonNewer(f.data.value, groups[key]) {
          needs := needs + [SyncNeed(key, TitleOf(f.data.value), UpdateNeeded, f.name)];
        }
      }
      i := i + 1;
    }
    assert files[..|files|] == files;
  }

  /** `add_sync_to_admin_bar`: the count shown on the node, or no node at all. */
  function AdminBarNode(canManageOptions: bool, needs: seq<SyncNeed>): (r: Option<nat>)
    ensures r.Some? <==> canManageOptions && |needs| > 0
    ensures r.Some? ==> r.value == |needs|
  {
    if !canManageOptions then None
    else if |needs| > 0 then Some(|needs|)
    else None
  }

  /** The node appears exactly when the user may manage options and some file needs an import or an update. */
  lemma AdminBarShownIffSomeFileNeedsSync(canManageOptions: bool, files: seq<JsonFile>, groups: map<string, DbGroup>)
    ensures AdminBarNode(canManageOptions, NeedsSyncList(files, groups)).Some? <==>
      canManageOptions && exists i :: 0 <= i < |files| && Decide(files[i], groups) in {ImportNew, UpdateExisting}
  {
    NeedsSyncListExact(files, groups);
    var needs := NeedsSyncList(files, groups);
    if i :| 0 <= i < |files| && Decide(files[i], groups) in {ImportNew, UpdateExisting} {
      assert NeedOf(files[i], groups).Some?;
      assert NeedOf(files[i], groups).value in needs;
    }
    if |needs| > 0 {
      assert needs[0] in needs;
      var i :| 0 <= i < |files| && NeedOf(files[i], groups) == Some(needs[0]);
      assert Decide(files[i], groups) in {ImportNew, UpdateExisting};
    }
  }

  // ---------------------------------------------------------------------------------------
  // Sync all

  datatype SyncAllResults = SyncAllResults(imported: nat, updated: nat, errors: nat)

  datatype SyncAllOutcome = SyncAllError(message: string) | SyncAllDone(results: SyncAllResults)

  /**
   * One pass of the `sync_all_field_groups` loop: no timestamp comparison; every valid file
   * is imported, counting as new or existing by whether its key was stored before.
   */
  function SyncAllStep(res: SyncAllResults, groups: map<string, DbGroup>, f: JsonFile, importer: Importer): (r: (SyncAllResults, map<string, DbGroup>))
    ensures !ValidFile(f) ==> r == (res.(errors := res.errors + 1), groups)
    ensures ValidFile(f) && importer(f.data.value).None? ==> r == (res.(errors := res.errors + 1), groups)
    ensures ValidFile(f) && importer(f.data.value).Some? ==>
      && r.1 == AfterImport(groups, f.data.value, importer(f.data.value).value)
      && r.0 == (if FileKey(f) in groups then res.(updated := res.updated + 1) else res.(imported := res.imported + 1))
    ensures r.0.imported + r.0.updated + r.0.errors == res.imported + res.updated + res.errors + 1
  {
    if !ValidFile(f) then (res.(errors := res.errors + 1), groups)
    else
      var g := f.data.value;
      match importer(g)
      case None => (res.(errors := res.errors + 1), groups)
      case Some(id) =>
        var counted := if FileKey(f) in groups then res.(updated := res.updated + 1) else res.(imported := res.imported + 1);
        (counted, AfterImport(groups, g, id))
  }

  function SyncAllFold(files: seq<JsonFile>, groups: map<string, DbGroup>, importer: Importer): (SyncAllResults, map<string, DbGroup>)
    decreases |files|
  {
    if files == [] then (SyncAllResults(0, 0, 0), groups)
    else
      var prev := SyncAllFold(files[..|files| - 1], groups, importer);
      SyncAllStep(prev.0, prev.1, files[|files| - 1], importer)
  }

  /** imported + updated + errors equals the number of files. */
  lemma {:induction false} SyncAllAccountsEveryFile(files: seq<JsonFile>, groups: map<string, DbGroup>, importer: Importer)
    ensures var r := SyncAllFold(files, groups, importer).0;
      r.imported + r.updated + r.errors == |files|
    decreases |files|
  {
    if files != [] {
      SyncAllAccountsEveryFile(files[..|files| - 1], groups, importer);
    }
  }

  /**
   * The stored `_acf_modified` stamps play no part: two databases holding the same keys give
   * the same counters and the same key set afterwards.
   */
  lemma {:induction false} SyncAllIgnoresStamps(files: seq<JsonFile>, g1: map<string, DbGroup>, g2: map<string, DbGroup>, importer: Importer)
    requires g1.Keys == g2.Keys
    ensures SyncAllFold(files, g1, importer).0 == SyncAllFold(files, g2, importer).0
    ensures SyncAllFold(files, g1, importer).1.Keys == SyncAllFold(files, g2, importer).1.Keys
    decreases |files|
  {
    if files != [] {
      SyncAllIgnoresStamps(files[..|files| - 1], g1, g2, importer);
    }
  }

  /**
   * `sync_all_field_groups`: an error result when ACF's importer is not loaded, otherwise the
   * counters of the loop over all files (all zero for no files).
   */
  method SyncAllFieldGroups(store: FieldGroupStore, acfAvailable: bool, files: seq<JsonFile>, importer: Importer)
    returns (out: SyncAllOutcome)
    modifies store
    ensures !acfAvailable ==> out == SyncAllError("ACF not available") && store.groups == old(store.groups)
    ensures acfAvailable ==>
      out.SyncAllDone? && (out.results, store.groups) == SyncAllFold(files, old(store.groups), importer)
  {
    if !acfAvailable {
      return SyncAllError("ACF not available");
    }
    var results := SyncAllResults(0, 0, 0);
    if files == [] {
      return SyncAllDone(results);
    }
    var i := 0;
    while i < |files|
      invariant 0 <= i <= |files|
      invariant (results, store.groups) == SyncAllFold(files[..i], old(store.groups), importer)
    {
      assert files[..i + 1][..i] == files[..i];
      var f := files[i];
      if !ValidFile(f) {
        results := results.(errors := results.errors + 1);
      } else {
        var existing := FileKey(f) in store.groups;
        var ok := store.Import(f.data.value, importer);
        if !ok {
          results := results.(errors := results.errors + 1);
        } else if !existing {
          results := results.(imported := results.imported + 1);
        } else {
          results := results.(updated := results.updated + 1);
        }
      }
      i := i + 1;
    }
    assert files[..|files|] == files;
    out := SyncAllDone(results);
  }
}

/**
 * The stand-alone sync script `acf-sync-now.php`: every `group_*.json` file is checked against
 * the database and imported, updated, skipped, or reported as an error, with counters.
 */
module AcfSyncNow {
  import opened Php
  import opened AcfFieldGroups

  datatype SyncResults = SyncResults(imported: nat, updated: nat, skipped: nat, errors: seq<string>)

  /** `perform_acf_json_sync` returns either `['error' => ...]` or the counters. */
  datatype SyncOutcome = SyncError(message: string) | Synced(results: SyncResults)

  const NoResults := SyncResults(0, 0, 0, [])

  /** How many files the counters and the error list account for. */
  function Accounted(r: SyncResults): nat {
    r.imported + r.updated + r.skipped + |r.errors|
  }

  /**
   * One pass of the loop over files: the results and the stored groups after handling `f`.
   * Exactly one counter or the error list moves, by one.
   */
  function Step(res: SyncResults, groups: map<string, DbGroup>, f: JsonFile, importer: Importer): (r: (SyncResults, map<string, DbGroup>))
    ensures Decide(f, groups) == Invalid ==>
      r == (res.(errors := res.errors + ["Invalid JSON in file: " + f.name]), groups)
    ensures Decide(f, groups) == UpToDate ==> r == (res.(skipped := res.skipped + 1), groups)
    ensures (Decide(f, groups) == ImportNew || Decide(f, groups) == UpdateExisting) && importer(f.data.value).None? ==>
      r == (res.(errors := res.errors + ["Failed to import/update: " + TitleOf(f.data.value)]), groups)
    ensures Decide(f, groups) == ImportNew && importer(f.data.value).Some? ==>
      r == (res.(imported := res.imported + 1), AfterImport(groups, f.data.value, importer(f.data.value).value))
    ensures Decide(f, groups) == UpdateExisting && importer(f.data.value).Some? ==>
      r == (res.(updated := res.updated + 1), AfterImport(groups, f.data.value, importer(f.data.value).value))
    ensures Accounted(r.0) == Accounted(res) + 1
  {
    match Decide(f, groups)
    case Invalid =>
      (res.(errors := res.errors + ["Invalid JSON in file: " + f.name]), groups)
    case UpToDate =>
      (res.(skipped := res.skipped + 1), groups)
    case ImportNew =>
      var g := f.data.value;
      if importer(g).Some? then (res.(imported := res.imported + 1), AfterImport(groups, g, importer(g).value))
      else (res.(errors := res.errors + ["Failed to import/update: " + TitleOf(g)]), groups)
    case UpdateExisting =>
      var g := f.data.value;
      if importer(g).Some? then (res.(updated := res.updated + 1), AfterImport(groups, g, importer(g).value))
      else (res.(errors := res.errors + ["Failed to import/update: " + TitleOf(g)]), groups)
  }

  /** The loop over `files`, in order, from empty counters; each file sees the groups as left by the ones before it. */
  function SyncFold(files: seq<JsonFile>, groups: map<string, DbGroup>, importer: Importer): (SyncResults, map<string, DbGroup>)
    decreases |files|
  {
    if files == [] then (NoResults, groups)
    else
      var prev := SyncFold(files[..|files| - 1], groups, importer);
      Step(prev.0, prev.1, files[|files| - 1], importer)
  }

  /** Every file lands in exactly one of imported, updated, skipped or the error list. */
  lemma {:induction false} SyncFoldAccountsEveryFile(files: seq<JsonFile>, groups: map<string, DbGroup>, importer: Importer)
    ensures Accounted(SyncFold(files, groups, importer).0) == |files|
    decreases |files|
  {
    if files != [] {
      SyncFoldAccountsEveryFile(files[..|files| - 1], groups, importer);
    }
  }

  /** `display_sync_results`: nothing for an error result, else imported + updated + skipped. */
  function TotalProcessed(out: SyncOutcome): (t: Option<nat>)
    ensures t.Some? <==> out.Synced?
    ensures t.Some? ==> t.value + |out.results.errors| == Accounted(out.results)
  {
    match out
    case SyncError(_) => None
    case Synced(r) => Some(r.imported + r.updated + r.skipped)
  }

  /** The printed total is the number of files minus the number of errors. */
  lemma DisplayedTotalIsFilesWithoutErrors(files: seq<JsonFile>, groups: map<string, DbGroup>, importer: Importer)
    ensures var r := SyncFold(files, groups, importer).0;
      TotalProcessed(Synced(r)) == Some(|files| - |r.errors|)
  {
    SyncFoldAccountsEveryFile(files, groups, importer);
  }

  /** Files that are all valid, carry `modified`, import successfully and have pairwise different keys. */
  predicate CleanBatch(files: seq<JsonFile>, importer: Importer) {
    && (forall i :: 0 <= i < |files| ==> ValidFile(files[i]) && files[i].data.value.modified.Some?)
    && (forall i :: 0 <= i < |files| ==> importer(files[i].data.value).Some?)
    && (forall i, j :: 0 <= i < j < |files| ==> FileKey(files[i]) != FileKey(files[j]))
  }

  /** Every file is up to date against the stored groups. */
  predicate AllUpToDate(files: seq<JsonFile>, groups: map<string, DbGroup>) {
    forall i :: 0 <= i < |files| ==> Decide(files[i], groups) == UpToDate
  }

  lemma {:induction false} SyncFoldLeavesBatchUpToDate(files: seq<JsonFile>, groups: map<string, DbGroup>, importer: Importer)
    requires CleanBatch(files, importer)
    ensures AllUpToDate(files, SyncFold(files, groups, importer).1)
    decreases |files|
  {
    if files != [] {
      var init := files[..|files| - 1];
      var last := files[|files| - 1];
      assert CleanBatch(init, importer);
      SyncFoldLeavesBatchUpToDate(init, groups, importer);
      var prev := SyncFold(init, groups, importer).1;
      var after := SyncFold(files, groups, importer).1;
      if Decide(last, prev) != UpToDate {
        // The import stores the file's own stamp under its key; no earlier file shares that key.
        var k := FileKey(last);
        assert after == AfterImport(prev, last.data.value, importer(last.data.value).value);
        assert after[k].modified == last.data.value.modified;
        forall i | 0 <= i < |init| ensures Decide(init[i], after) == UpToDate {
          assert init[i] == files[i];
          assert FileKey(files[i]) != FileKey(files[|files| - 1]);
          assert Decide(init[i], prev) == UpToDate;
        }
        assert Decide(last, after) == UpToDate;
        forall i | 0 <= i < |files| ensures Decide(files[i], after) == UpToDate {
          if i < |files| - 1 {
            assert files[i] == init[i];
          }
        }
      } else {
        forall i | 0 <= i < |files| ensures Decide(files[i], after) == UpToDate {
          if i < |files| - 1 {
            assert files[i] == init[i];
          }
        }
      }
    }
  }

  lemma {:induction false} SyncFoldOverUpToDateSkipsAll(files: seq<JsonFile>, groups: map<string, DbGroup>, importer: Importer)
    requires AllUpToDate(files, groups)
    ensures SyncFold(files, groups, importer) == (SyncResults(0, 0, |files|, []), groups)
    decreases |files|
  {
    if files != [] {
      var init := files[..|files| - 1];
      assert AllUpToDate(init, groups) by {
        forall i | 0 <= i < |init| ensures Decide(init[i], groups) == UpToDate {
          assert init[i] == files[i];
        }
      }
      SyncFoldOverUpToDateSkipsAll(init, groups, importer);
      assert Decide(files[|files| - 1], groups) == UpToDate;
    }
  }

  /**
   * Running the script a second time over a clean batch does nothing: every file is skipped
   * as up to date and the stored groups stay as the first run left them.
   */
  lemma SecondSyncSkipsEverything(files: seq<JsonFile>, groups: map<string, DbGroup>, importer: Importer)
    requires CleanBatch(files, importer)
    ensures var first := SyncFold(files, groups, importer).1;
      SyncFold(files, first, importer) == (SyncResults(0, 0, |files|, []), first)
  {
    SyncFoldLeavesBatchUpToDate(files, groups, importer);
    SyncFoldOverUpToDateSkipsAll(files, SyncFold(files, groups, importer).1, importer);
  }

  /**
   * `perform_acf_json_sync`: a missing directory or an empty file list is an error result and
   * touches nothing; otherwise every file is handled in order.
   */
  method PerformJsonSync(store: FieldGroupStore, dirExists: bool, jsonPath: string, files: seq<JsonFile>, importer: Importer)
    returns (out: SyncOutcome)
    modifies store
    ensures !dirExists ==>
      out == SyncError("ACF JSON directory not found at: " + jsonPath) && store.groups == old(store.groups)
    ensures dirExists && files == [] ==>
      out == SyncError("No ACF JSON files found in: " + jsonPath) && store.groups == old(store.groups)
    ensures dirExists && files != [] ==>
      out.Synced? && (out.results, store.groups) == SyncFold(files, old(store.groups), importer)
  {
    if !dirExists {
      return SyncError("ACF JSON directory not found at: " + jsonPath);
    }
    if files == [] {
      return SyncError("No ACF JSON files found in: " + jsonPath);
    }
    var results := NoResults;
    var i := 0;
    while i < |files|
      invariant 0 <= i <= |files|
      invariant (results, store.groups) == SyncFold(files[..i], old(store.groups), importer)
    {
      var f := files[i];
      assert files[..i + 1][..i] == files[..i];
      if !ValidFile(f) {
        results := results.(errors := results.errors + ["Invalid JSON in file: " + f.name]);
      } else {
        var g := f.data.value;
        var key := g.key.value;
        var existing := key in store.groups;
        if existing && !JsonNewer(g, store.groups[key]) {
          results := results.(skipped := results.skipped + 1);
        } else {
          var ok := store.Import(g, importer);
          if !ok {
            results := results.(errors := results.errors + ["Failed to import/update: " + TitleOf(g)]);
          } else if !existing {
            results := results.(imported := results.imported + 1);
          } else {
            results := results.(updated := results.updated + 1);
          }
        }
      }
      i := i + 1;
    }
    assert files[..|files|] == files;
    out := Synced(results);
  }
}

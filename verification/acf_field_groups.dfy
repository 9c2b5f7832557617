/**
 * ACF field groups as the two sync flows see them: the decoded `group_*.json` files of the
 * theme's `acf-json` directory, and the field groups stored in the database, looked up by key.
 *
 * `acf_get_field_group` is a lookup in `FieldGroupStore.groups`; `acf_import_field_group` is
 * an `Importer` (the post ID it wrote, or failure), followed by the `_acf_modified` write.
 */
module AcfFieldGroups {
  import opened Php

  /** The parts of a decoded field-group JSON document the flows read; `None` is absent or null. */
  datatype JsonGroup = JsonGroup(key: Option<string>, title: Option<string>, modified: Option<int>)

  /**
   * One `group_*.json` file: its base name and its decoded content. `None` stands for
   * everything `! $json_data` rejects: unreadable, invalid JSON, or an empty document.
   */
  datatype JsonFile = JsonFile(name: string, data: Option<JsonGroup>)

  /** A stored field group: its post ID and its `_acf_modified` meta (`None` when missing). */
  datatype DbGroup = DbGroup(id: int, modified: Option<int>)

  /** `acf_import_field_group`: the ID of the post it created or updated, or `None` on failure. */
  type Importer = JsonGroup -> Option<int>

  /** The file decoded to a non-empty document with a `key` set. */
  predicate ValidFile(f: JsonFile) {
    f.data.Some? && f.data.value.key.Some?
  }

  function FileKey(f: JsonFile): string
    requires ValidFile(f)
  {
    f.data.value.key.value
  }

  /** `$json_data['title'] ?? 'Unknown'`. */
  function TitleOf(g: JsonGroup): string {
    if g.title.Some? then g.title.value else "Unknown"
  }

  /** `$json_data['modified'] ?? 0`. */
  function JsonModified(g: JsonGroup): int {
    if g.modified.Some? then g.modified.value else 0
  }

  /**
   * `$json_modified > $db_modified`. A missing meta is PHP's `''`, which any integer exceeds
   * under PHP 8 comparison, so the JSON then counts as newer.
   */
  predicate JsonNewer(g: JsonGroup, db: DbGroup) {
    db.modified.None? || JsonModified(g) > db.modified.value
  }

  /** What a file calls for, judged against the stored groups. */
  datatype Decision = Invalid | ImportNew | UpdateExisting | UpToDate

  /**
   * The per-file decision shared by `perform_acf_json_sync` and `get_groups_needing_sync`:
   * invalid files are set aside, unknown keys are imported, known keys are updated only when
   * the JSON is newer.
   */
  function Decide(f: JsonFile, groups: map<string, DbGroup>): (d: Decision)
    ensures d == Invalid <==> !ValidFile(f)
    ensures d == ImportNew <==> ValidFile(f) && FileKey(f) !in groups
    ensures d == UpdateExisting <==>
      ValidFile(f) && FileKey(f) in groups && JsonNewer(f.data.value, groups[FileKey(f)])
    ensures d == UpToDate <==>
      ValidFile(f) && FileKey(f) in groups && !JsonNewer(f.data.value, groups[FileKey(f)])
  {
    if !ValidFile(f) then Invalid
    else if FileKey(f) !in groups then ImportNew
    else if JsonNewer(f.data.value, groups[FileKey(f)]) then UpdateExisting
    else UpToDate
  }

  /**
   * The stored groups after a successful import of `g` as post `id`: the group is present
   * under its key, and its `_acf_modified` is the JSON's when the JSON has one, else it
   * keeps what was stored before.
   */
  function AfterImport(groups: map<string, DbGroup>, g: JsonGroup, id: int): (r: map<string, DbGroup>)
    requires g.key.Some?
    ensures r.Keys == groups.Keys + {g.key.value}
    ensures r[g.key.value].id == id
    ensures g.modified.Some? ==> r[g.key.value].modified == g.modified
    ensures g.modified.None? && g.key.value in groups ==> r[g.key.value].modified == groups[g.key.value].modified
    ensures forall k :: k in groups && k != g.key.value ==> r[k] == groups[k]
  {
    var k := g.key.value;
    var stamp := if g.modified.Some? then g.modified
                 else if k in groups then groups[k].modified
                 else None;
    groups[k := DbGroup(id, stamp)]
  }

  /** The field groups stored in the database, by key. */
  class FieldGroupStore {
    var groups: map<string, DbGroup>

    constructor (initial: map<string, DbGroup>)
      ensures groups == initial
    {
      groups := initial;
    }

    /**
     * `acf_import_field_group`, then the `_acf_modified` update when the JSON carries
     * `modified`; a failed import writes nothing.
     */
    method Import(g: JsonGroup, importer: Importer) returns (ok: bool)
      requires g.key.Some?
      modifies this
      ensures ok <==> importer(g).Some?
      ensures groups == (if ok then AfterImport(old(groups), g, importer(g).value) else old(groups))
    {
      match importer(g)
      case None =>
        ok := false;
      case Some(id) =>
        groups := AfterImport(groups, g, id);
        ok := true;
    }
  }
}

/**
 * The maintenance script `acf-cleanup-duplicates.php`: field-group posts that share an ACF key
 * are grouped, the one with the earliest `post_date` is kept and the others are deleted.
 */
module AcfCleanupDuplicates {
  import opened Php

  /** What `acf_get_field_group` returns for a post: its key (when set) and its title. */
  datatype AcfRecord = AcfRecord(key: Option<string>, title: string)

  /** A field-group post from `get_posts`, with its ACF record (if any) and its `_acf_modified` meta. */
  datatype Post = Post(id: int, postTitle: string, postStatus: string, postDate: string,
                       record: Option<AcfRecord>, modifiedMeta: string)

  /** The row the script collects for each keyed post. */
  datatype Row = Row(id: int, postTitle: string, postStatus: string, postDate: string,
                     key: string, title: string, modified: string)

  /** The keep/delete split for one duplicated key. */
  datatype Duplicate = Duplicate(key: string, keep: Row, delete: seq<Row>)

  // ---------------------------------------------------------------------------------------
  // strcmp

  /** The sign of `strcmp`: byte-wise lexicographic comparison, a proper prefix first. */
  function StrCmp(a: string, b: string): (r: int)
    ensures -1 <= r <= 1
    ensures r == 0 <==> a == b
  {
    if a == [] && b == [] then 0
    else if a == [] then -1
    else if b == [] then 1
    else if a[0] < b[0] then -1
    else if a[0] > b[0] then 1
    else
      var r := StrCmp(a[1..], b[1..]);
      assert r == 0 ==> a == [a[0]] + a[1..] == [b[0]] + b[1..] == b;
      r
  }

  lemma {:induction false} StrCmpAntisymmetric(a: string, b: string)
    ensures StrCmp(a, b) == -StrCmp(b, a)
    decreases |a|
  {
    if a != [] && b != [] && a[0] == b[0] {
      StrCmpAntisymmetric(a[1..], b[1..]);
    }
  }

  lemma {:induction false} StrCmpTransitive(a: string, b: string, c: string)
    requires StrCmp(a, b) <= 0 && StrCmp(b, c) <= 0
    ensures StrCmp(a, c) <= 0
    decreases |a|
  {
    if a != [] && b != [] && c != [] && a[0] == b[0] && b[0] == c[0] {
      StrCmpTransitive(a[1..], b[1..], c[1..]);
    }
  }

  // ---------------------------------------------------------------------------------------
  // The stable sort by post date (PHP 8 `usort` is stable)

  predicate DateLe(a: Row, b: Row) {
    StrCmp(a.postDate, b.postDate) <= 0
  }

  predicate SortedByDate(s: seq<Row>) {
    forall i, j :: 0 <= i < j < |s| ==> DateLe(s[i], s[j])
  }

  /** Insert `x` before the first element it does not come after. */
  function InsertByDate(x: Row, s: seq<Row>): (r: seq<Row>)
    ensures multiset(r) == multiset(s) + multiset{x}
    ensures |r| == |s| + 1
    ensures forall y :: y in r <==> y == x || y in s
  {
    if s == [] then [x]
    else if DateLe(x, s[0]) then [x] + s
    else
      assert s == [s[0]] + s[1..];
      [s[0]] + InsertByDate(x, s[1..])
  }

  function SortByDate(s: seq<Row>): (r: seq<Row>)
    ensures multiset(r) == multiset(s)
    ensures |r| == |s|
  {
    if s == [] then []
    else
      assert s == [s[0]] + s[1..];
      InsertByDate(s[0], SortByDate(s[1..]))
  }

  /** The head of a sorted sequence comes before or with every element of it. */
  lemma HeadFirst(s: seq<Row>, y: Row)
    requires SortedByDate(s) && s != [] && y in s
    ensures DateLe(s[0], y)
  {
    var j :| 0 <= j < |s| && s[j] == y;
    if j == 0 {
      assert StrCmp(y.postDate, y.postDate) == 0;
    }
  }

  lemma {:induction false} InsertByDateSorted(x: Row, s: seq<Row>)
    requires SortedByDate(s)
    ensures SortedByDate(InsertByDate(x, s))
    decreases |s|
  {
    if s == [] {
    } else if DateLe(x, s[0]) {
      var r := [x] + s;
      assert InsertByDate(x, s) == r;
      forall i, j | 0 <= i < j < |r| ensures DateLe(r[i], r[j]) {
        if i == 0 {
          HeadFirst(s, r[j]);
          StrCmpTransitive(x.postDate, s[0].postDate, r[j].postDate);
        } else {
          assert r[i] == s[i - 1] && r[j] == s[j - 1];
        }
      }
    } else {
      var tail := s[1..];
      assert SortedByDate(tail) by {
        forall i, j | 0 <= i < j < |tail| ensures DateLe(tail[i], tail[j]) {
          assert tail[i] == s[i + 1] && tail[j] == s[j + 1];
        }
      }
      InsertByDateSorted(x, tail);
      var rt := InsertByDate(x, tail);
      var r := [s[0]] + rt;
      assert InsertByDate(x, s) == r;
      StrCmpAntisymmetric(x.postDate, s[0].postDate);
      forall i, j | 0 <= i < j < |r| ensures DateLe(r[i], r[j]) {
        if i == 0 {
          assert r[j] == rt[j - 1];
          assert r[j] in rt;
          if r[j] != x {
            assert r[j] in s;
            HeadFirst(s, r[j]);
          }
        } else {
          assert r[i] == rt[i - 1] && r[j] == rt[j - 1];
        }
      }
    }
  }

  lemma {:induction false} SortByDateSorted(s: seq<Row>)
    ensures SortedByDate(SortByDate(s))
    decreases |s|
  {
    if s != [] {
      SortByDateSorted(s[1..]);
      InsertByDateSorted(s[0], SortByDate(s[1..]));
    }
  }

  /** The rows dated `d`, in order. */
  function DatedOn(s: seq<Row>, d: string): seq<Row> {
    if s == [] then []
    else (if s[0].postDate == d then [s[0]] else []) + DatedOn(s[1..], d)
  }

  lemma DatedOnCons(a: Row, t: seq<Row>, d: string)
    ensures DatedOn([a] + t, d) == (if a.postDate == d then [a] else []) + DatedOn(t, d)
  {
    assert ([a] + t)[1..] == t;
  }

  /** One step of the stability proof: `x` moves past a head row of another date. */
  lemma InsertPastHead(x: Row, h: Row, rest: seq<Row>, t: seq<Row>, d: string)
    requires h.postDate != x.postDate
    requires DatedOn(rest, d) == (if x.postDate == d then [x] else []) + DatedOn(t, d)
    ensures DatedOn([h] + rest, d) == (if x.postDate == d then [x] else []) + DatedOn([h] + t, d)
  {
    DatedOnCons(h, rest, d);
    DatedOnCons(h, t, d);
  }

  lemma {:induction false} InsertByDateStable(x: Row, s: seq<Row>, d: string)
    ensures DatedOn(InsertByDate(x, s), d) == (if x.postDate == d then [x] else []) + DatedOn(s, d)
    decreases |s|
  {
    if s == [] {
      DatedOnCons(x, [], d);
    } else if DateLe(x, s[0]) {
      assert InsertByDate(x, s) == [x] + s;
      DatedOnCons(x, s, d);
    } else {
      assert InsertByDate(x, s) == [s[0]] + InsertByDate(x, s[1..]);
      assert s[0].postDate != x.postDate by {
        assert StrCmp(x.postDate, x.postDate) == 0;
      }
      InsertByDateStable(x, s[1..], d);
      InsertPastHead(x, s[0], InsertByDate(x, s[1..]), s[1..], d);
      assert [s[0]] + s[1..] == s;
    }
  }

  /** Stability: rows with the same date leave the sort in the order they came in. */
  lemma {:induction false} SortByDateStable(s: seq<Row>, d: string)
    ensures DatedOn(SortByDate(s), d) == DatedOn(s, d)
    decreases |s|
  {
    if s != [] {
      SortByDateStable(s[1..], d);
      InsertByDateStable(s[0], SortByDate(s[1..]), d);
    }
  }

  // ---------------------------------------------------------------------------------------
  // Buckets by key, in query order

  /** `acf_get_field_group` found a record and the record has a key. */
  predicate HasKey(p: Post) {
    p.record.Some? && p.record.value.key.Some?
  }

  function KeyOf(p: Post): string
    requires HasKey(p)
  {
    p.record.value.key.value
  }

  function RowOf(p: Post): (r: Row)
    requires HasKey(p)
    ensures r.id == p.id && r.postDate == p.postDate && r.key == KeyOf(p)
  {
    Row(p.id, p.postTitle, p.postStatus, p.postDate, KeyOf(p), p.record.value.title, p.modifiedMeta)
  }

  /** The rows collected under key `k`, in the order of the posts. */
  function Bucket(posts: seq<Post>, k: string): seq<Row>
    decreases |posts|
  {
    if posts == [] then []
    else
      var last := posts[|posts| - 1];
      Bucket(posts[..|posts| - 1], k) + (if HasKey(last) && KeyOf(last) == k then [RowOf(last)] else [])
  }

  /** The keys in the order they were first met (the iteration order of `$groups_by_key`). */
  function KeyOrder(posts: seq<Post>): seq<string>
    decreases |posts|
  {
    if posts == [] then []
    else
      var prev := KeyOrder(posts[..|posts| - 1]);
      var last := posts[|posts| - 1];
      if HasKey(last) && KeyOf(last) !in prev then prev + [KeyOf(last)] else prev
  }

  /** A row is in a bucket exactly when it comes from a keyed post with that key; posts without a key are ignored. */
  lemma {:induction false} BucketExact(posts: seq<Post>, k: string)
    ensures forall r :: r in Bucket(posts, k) <==>
      exists i :: 0 <= i < |posts| && HasKey(posts[i]) && KeyOf(posts[i]) == k && RowOf(posts[i]) == r
    decreases |posts|
  {
    if posts != [] {
      var init := posts[..|posts| - 1];
      BucketExact(init, k);
      forall r ensures r in Bucket(posts, k) <==>
        exists i :: 0 <= i < |posts| && HasKey(posts[i]) && KeyOf(posts[i]) == k && RowOf(posts[i]) == r
      {
        if r in Bucket(init, k) {
          var i :| 0 <= i < |init| && HasKey(init[i]) && KeyOf(init[i]) == k && RowOf(init[i]) == r;
          assert posts[i] == init[i];
        }
        if i :| 0 <= i < |posts| && HasKey(posts[i]) && KeyOf(posts[i]) == k && RowOf(posts[i]) == r {
          if i < |init| {
            assert posts[i] == init[i];
          }
        }
      }
    }
  }

  /** A key is listed exactly when its bucket is non-empty, and no key is listed twice. */
  lemma {:induction false} KeyOrderExact(posts: seq<Post>)
    ensures forall k :: k in KeyOrder(posts) <==> Bucket(posts, k) != []
    ensures forall i, j :: 0 <= i < j < |KeyOrder(posts)| ==> KeyOrder(posts)[i] != KeyOrder(posts)[j]
    decreases |posts|
  {
    if posts != [] {
      KeyOrderExact(posts[..|posts| - 1]);
    }
  }

  // ---------------------------------------------------------------------------------------
  // The duplicates

  /** The duplicate entries for `keys`, in order: only keys whose bucket holds more than one row. */
  function DuplicatesOf(keys: seq<string>, posts: seq<Post>): seq<Duplicate>
    decreases |keys|
  {
    if keys == [] then []
    else
      var prev := DuplicatesOf(keys[..|keys| - 1], posts);
      var k := keys[|keys| - 1];
      if |Bucket(posts, k)| > 1 then prev + [EntryFor(k, posts)] else prev
  }

  /** What `identify_duplicate_field_groups` returns for the queried posts. */
  function Duplicates(posts: seq<Post>): seq<Duplicate> {
    DuplicatesOf(KeyOrder(posts), posts)
  }

  /** The entry a key contributes, when its bucket holds more than one row. */
  function EntryFor(k: string, posts: seq<Post>): (d: Duplicate)
    requires |Bucket(posts, k)| > 1
    ensures d.key == k
    ensures [d.keep] + d.delete == SortByDate(Bucket(posts, k))
  {
    var sorted := SortByDate(Bucket(posts, k));
    assert [sorted[0]] + sorted[1..] == sorted;
    Duplicate(k, sorted[0], sorted[1..])
  }

  lemma {:induction false} DuplicatesOfSound(keys: seq<string>, posts: seq<Post>)
    ensures forall d :: d in DuplicatesOf(keys, posts) ==>
      d.key in keys && |Bucket(posts, d.key)| > 1 && d == EntryFor(d.key, posts)
    decreases |keys|
  {
    if keys != [] {
      var init := keys[..|keys| - 1];
      var k := keys[|keys| - 1];
      DuplicatesOfSound(init, posts);
      forall d | d in DuplicatesOf(keys, posts)
        ensures d.key in keys && |Bucket(posts, d.key)| > 1 && d == EntryFor(d.key, posts)
      {
        if d !in DuplicatesOf(init, posts) {
          assert |Bucket(posts, k)| > 1 && d == EntryFor(k, posts);
        } else {
          assert d.key in init;
        }
      }
    }
  }

  lemma {:induction false} DuplicatesOfComplete(keys: seq<string>, posts: seq<Post>)
    ensures forall k :: k in keys && |Bucket(posts, k)| > 1 ==> EntryFor(k, posts) in DuplicatesOf(keys, posts)
    decreases |keys|
  {
    if keys != [] {
      var init := keys[..|keys| - 1];
      var last := keys[|keys| - 1];
      DuplicatesOfComplete(init, posts);
      var prev := DuplicatesOf(init, posts);
      var all := DuplicatesOf(keys, posts);
      assert forall d :: d in prev ==> d in all;
      forall k | k in keys && |Bucket(posts, k)| > 1 ensures EntryFor(k, posts) in all {
        if k == last {
          assert all == prev + [EntryFor(k, posts)];
        } else {
          assert k in init by {
            var i :| 0 <= i < |keys| && keys[i] == k;
            assert i < |keys| - 1;
            assert init[i] == k;
          }
        }
      }
    }
  }

  /**
   * The result has an entry for key `k` exactly when more than one keyed post carries `k`;
   * each entry keeps a row with the earliest post date and deletes the others, and keep and
   * delete together are exactly the bucket.
   */
  lemma DuplicatesSplitEachBucket(posts: seq<Post>)
    ensures forall k :: (exists d :: d in Duplicates(posts) && d.key == k) <==> |Bucket(posts, k)| > 1
    ensures forall d :: d in Duplicates(posts) ==>
      && multiset([d.keep] + d.delete) == multiset(Bucket(posts, d.key))
      && |d.delete| == |Bucket(posts, d.key)| - 1
      && (forall r :: r in Bucket(posts, d.key) ==> StrCmp(d.keep.postDate, r.postDate) <= 0)
      && SortedByDate(d.delete)
  {
    KeyOrderExact(posts);
    DuplicatesOfSound(KeyOrder(posts), posts);
    DuplicatesOfComplete(KeyOrder(posts), posts);
    forall k | |Bucket(posts, k)| > 1 ensures exists d :: d in Duplicates(posts) && d.key == k {
      assert Bucket(posts, k) != [];
      assert EntryFor(k, posts) in Duplicates(posts);
    }
    forall d | d in Duplicates(posts)
      ensures multiset([d.keep] + d.delete) == multiset(Bucket(posts, d.key))
      ensures |d.delete| == |Bucket(posts, d.key)| - 1
      ensures forall r :: r in Bucket(posts, d.key) ==> StrCmp(d.keep.postDate, r.postDate) <= 0
      ensures SortedByDate(d.delete)
    {
      EntrySplitsBucket(d.key, posts);
    }
  }

  /** The entry of a duplicated key keeps an earliest row and deletes the rest of its bucket, in date order. */
  lemma EntrySplitsBucket(k: string, posts: seq<Post>)
    requires |Bucket(posts, k)| > 1
    ensures var d := EntryFor(k, posts);
      && multiset([d.keep] + d.delete) == multiset(Bucket(posts, k))
      && |d.delete| == |Bucket(posts, k)| - 1
      && (forall r :: r in Bucket(posts, k) ==> StrCmp(d.keep.postDate, r.postDate) <= 0)
      && SortedByDate(d.delete)
  {
    var d := EntryFor(k, posts);
    var sorted := SortByDate(Bucket(posts, k));
    assert sorted == [d.keep] + d.delete;
    assert |sorted| == |Bucket(posts, k)| by {
      assert multiset(sorted) == multiset(Bucket(posts, k));
    }
    SortByDateSorted(Bucket(posts, k));
    SortedHeadIsEarliest(sorted, Bucket(posts, k));
    SortedTail(sorted);
  }

  /** The head of a sorted permutation of `b` is dated no later than any row of `b`. */
  lemma SortedHeadIsEarliest(sorted: seq<Row>, b: seq<Row>)
    requires SortedByDate(sorted) && sorted != [] && multiset(sorted) == multiset(b)
    ensures forall r :: r in b ==> StrCmp(sorted[0].postDate, r.postDate) <= 0
  {
    forall r | r in b ensures StrCmp(sorted[0].postDate, r.postDate) <= 0 {
      assert r in multiset(sorted);
      var j :| 0 <= j < |sorted| && sorted[j] == r;
      if j > 0 {
        assert DateLe(sorted[0], sorted[j]);
      }
    }
  }

  /** What follows the head of a sorted sequence is sorted. */
  lemma SortedTail(sorted: seq<Row>)
    requires SortedByDate(sorted) && sorted != []
    ensures SortedByDate(sorted[1..])
  {
    forall i, j | 0 <= i < j < |sorted[1..]| ensures DateLe(sorted[1..][i], sorted[1..][j]) {
      assert sorted[1..][i] == sorted[i + 1] && sorted[1..][j] == sorted[j + 1];
    }
  }

  /**
   * `identify_duplicate_field_groups`: the first loop buckets the keyed posts by key, the
   * second sorts each bucket with more than one row and splits off the oldest.
   */
  method IdentifyDuplicateFieldGroups(posts: seq<Post>) returns (dups: seq<Duplicate>)
    ensures dups == Duplicates(posts)
  {
    if posts == [] {
      return [];
    }
    var byKey, order := GroupByKey(posts);
    dups := [];
    var j := 0;
    while j < |order|
      invariant 0 <= j <= |order|
      invariant dups == DuplicatesOf(order[..j], posts)
    {
      assert order[..j + 1][..j] == order[..j];
      var key := order[j];
      var groups := byKey[key];
      if |groups| > 1 {
        var sorted := SortByDate(groups);
        dups := dups + [Duplicate(key, sorted[0], sorted[1..])];
      }
      j := j + 1;
    }
    assert order[..|order|] == order;
  }

  /**
   * The first loop of `identify_duplicate_field_groups`: the rows of the keyed posts, bucketed
   * by key in query order, and the keys in the order they were first met.
   */
  method GroupByKey(posts: seq<Post>) returns (byKey: map<string, seq<Row>>, order: seq<string>)
    ensures order == KeyOrder(posts)
    ensures forall k :: k in byKey <==> k in order
    ensures forall k :: k in byKey ==> byKey[k] == Bucket(posts, k)
  {
    byKey := map[];
    order := [];
    var i := 0;
    while i < |posts|
      invariant 0 <= i <= |posts|
      invariant order == KeyOrder(posts[..i])
      invariant forall k :: k in byKey <==> k in order
      invariant forall k :: k in byKey ==> byKey[k] == Bucket(posts[..i], k)
      invariant forall k :: k !in byKey ==> Bucket(posts[..i], k) == []
    {
      BucketStep(posts, i);
      var p := posts[i];
      if HasKey(p) {
        var key := KeyOf(p);
        if key !in byKey {
          byKey := byKey[key := []];
          order := order + [key];
        }
        byKey := byKey[key := byKey[key] + [RowOf(p)]];
      }
      i := i + 1;
    }
    assert posts[..|posts|] == posts;
  }

  /** Extending the posts by one changes only the bucket of that post's key, by one row at the end. */
  lemma BucketStep(posts: seq<Post>, i: int)
    requires 0 <= i < |posts|
    ensures forall k ::
              Bucket(posts[..i + 1], k) ==
              Bucket(posts[..i], k) + (if HasKey(posts[i]) && KeyOf(posts[i]) == k then [RowOf(posts[i])] else [])
    ensures KeyOrder(posts[..i + 1]) ==
      KeyOrder(posts[..i]) + (if HasKey(posts[i]) && KeyOf(posts[i]) !in KeyOrder(posts[..i]) then [KeyOf(posts[i])] else [])
  {
    assert posts[..i + 1][..i] == posts[..i];
  }

  // ---------------------------------------------------------------------------------------
  // The cleanup

  /** The sum of the `delete` list sizes. */
  function TotalToDelete(dups: seq<Duplicate>): nat
    decreases |dups|
  {
    if dups == [] then 0 else TotalToDelete(dups[..|dups| - 1]) + |dups[|dups| - 1].delete|
  }

  function RowIds(rows: seq<Row>): (ids: seq<int>)
    ensures |ids| == |rows|
    ensures forall i :: 0 <= i < |rows| ==> ids[i] == rows[i].id
  {
    seq(|rows|, i requires 0 <= i < |rows| => rows[i].id)
  }

  /** The IDs of every `delete` entry, duplicate by duplicate. */
  function DeleteIds(dups: seq<Duplicate>): seq<int>
    decreases |dups|
  {
    if dups == [] then [] else DeleteIds(dups[..|dups| - 1]) + RowIds(dups[|dups| - 1].delete)
  }

  lemma {:induction false} DeleteIdsCount(dups: seq<Duplicate>)
    ensures |DeleteIds(dups)| == TotalToDelete(dups)
    decreases |dups|
  {
    if dups != [] {
      DeleteIdsCount(dups[..|dups| - 1]);
    }
  }

  /**
   * `display_cleanup_results` without its HTML: the total announced, and the posts passed to
   * `wp_delete_post` in order with the count of deletions. Without `confirm` nothing is
   * deleted; with it every `delete` entry is deleted once and the count equals the total.
   */
  method DisplayCleanupResults(dups: seq<Duplicate>, confirm: bool)
    returns (totalToDelete: nat, deletedIds: seq<int>, deletedCount: nat)
    ensures totalToDelete == TotalToDelete(dups)
    ensures !confirm ==> deletedIds == [] && deletedCount == 0
    ensures confirm ==> deletedIds == DeleteIds(dups) && deletedCount == totalToDelete
  {
    deletedIds := [];
    deletedCount := 0;
    if dups == [] {
      return 0, [], 0;
    }
    totalToDelete := CountToDelete(dups);
    if confirm {
      deletedIds, deletedCount := DeleteEach(dups);
      DeleteIdsCount(dups);
    }
  }

  /** The counting loop: the sizes of the `delete` lists, summed. */
  method CountToDelete(dups: seq<Duplicate>) returns (total: nat)
    ensures total == TotalToDelete(dups)
  {
    total := 0;
    var j := 0;
    while j < |dups|
      invariant 0 <= j <= |dups|
      invariant total == TotalToDelete(dups[..j])
    {
      assert dups[..j + 1][..j] == dups[..j];
      total := total + |dups[j].delete|;
      j := j + 1;
    }
    assert dups[..|dups|] == dups;
  }

  /** The deleting loops: every `delete` entry in order, one `wp_delete_post` each. */
  method DeleteEach(dups: seq<Duplicate>) returns (deletedIds: seq<int>, deletedCount: nat)
    ensures deletedIds == DeleteIds(dups) && deletedCount == |deletedIds|
  {
    deletedIds := [];
    deletedCount := 0;
    var j := 0;
    while j < |dups|
      invariant 0 <= j <= |dups|
      invariant deletedIds == DeleteIds(dups[..j])
      invariant deletedCount == |deletedIds|
    {
      assert dups[..j + 1][..j] == dups[..j];
      var m := 0;
      var group := dups[j].delete;
      while m < |group|
        invariant 0 <= m <= |group|
        invariant deletedIds == DeleteIds(dups[..j]) + RowIds(group[..m])
        invariant deletedCount == |deletedIds|
      {
        assert RowIds(group[..m + 1]) == RowIds(group[..m]) + [group[m].id];
        deletedIds := deletedIds + [group[m].id];
        deletedCount := deletedCount + 1;
        m := m + 1;
      }
      assert group[..|group|] == group;
      j := j + 1;
    }
    assert dups[..|dups|] == dups;
  }
}

/**
 * The small part of PHP's (and JavaScript's) runtime that the theme's logic leans on:
 * an optional value, `empty()`, `strpos`/`stripos`, `strtolower`, `trim`, `str_replace`,
 * `explode`/`implode`, `intval`, and `isset`/`unset` on associative arrays.
 */
module Php {

  datatype Option<+T> = None | Some(value: T)

  /** A PHP `mixed` value as it appears in the theme's filter arguments. */
  datatype Value = Null | Bool(b: bool) | Int(i: int) | Str(s: string) | List(items: seq<Value>)

  /** A PHP associative array with string keys (key order is not modelled). */
  type PhpArray = map<string, Value>

  // ---------------------------------------------------------------------------------------
  // empty()

  /** PHP `empty()` on a string: the empty string and "0" are both empty. */
  predicate EmptyStr(s: string) {
    s == "" || s == "0"
  }

  /** PHP `empty()` on an optional string (null, "", "0"). */
  predicate EmptyOpt(s: Option<string>) {
    s.None? || EmptyStr(s.value)
  }

  // ---------------------------------------------------------------------------------------
  // strpos, stripos, strtolower

  predicate IsPrefix(p: string, s: string) {
    |p| <= |s| && s[..|p|] == p
  }

  /** Does `needle` occur in `s` starting at position `j`? */
  predicate OccursAt(s: string, needle: string, j: int) {
    0 <= j && j + |needle| <= |s| && s[j..j + |needle|] == needle
  }

  /** `strpos($s, $needle)`: the position of the first occurrence, or false (None). */
  function IndexOf(s: string, needle: string): (r: Option<nat>)
    ensures r.Some? ==> OccursAt(s, needle, r.value)
    ensures r.Some? ==> forall j :: 0 <= j < r.value ==> !OccursAt(s, needle, j)
    ensures r.None? ==> forall j :: !OccursAt(s, needle, j)
    decreases |s|
  {
    if IsPrefix(needle, s) then
      Some(0)
    else if s == [] then
      None
    else
      var rest := IndexOf(s[1..], needle);
      assert forall j :: 0 <= j ==> (OccursAt(s, needle, j + 1) <==> OccursAt(s[1..], needle, j)) by {
        forall j | 0 <= j ensures OccursAt(s, needle, j + 1) <==> OccursAt(s[1..], needle, j) {
          if j + 1 + |needle| <= |s| {
            var a, b := s[j + 1..j + 1 + |needle|], s[1..][j..j + |needle|];
            assert |a| == |b|;
            assert forall k :: 0 <= k < |a| ==> a[k] == s[j + 1 + k] == b[k];
            assert a == b;
          }
        }
      }
      assert !OccursAt(s, needle, 0);
      match rest
      case None =>
        assert forall j :: !OccursAt(s, needle, j) by {
          forall j ensures !OccursAt(s, needle, j) {
            if j > 0 { assert !OccursAt(s[1..], needle, j - 1); }
          }
        }
        None
      case Some(i) =>
        assert forall j :: 0 <= j < i + 1 ==> !OccursAt(s, needle, j) by {
          forall j | 0 <= j < i + 1 ensures !OccursAt(s, needle, j) {
            if j > 0 { assert !OccursAt(s[1..], needle, j - 1); }
          }
        }
        Some(i + 1)
  }

  /** `strpos($s, $needle) !== false`. */
  predicate Contains(s: string, needle: string) {
    IndexOf(s, needle).Some?
  }

  lemma ContainsIff(s: string, needle: string)
    ensures Contains(s, needle) <==> exists j :: OccursAt(s, needle, j)
  {
    if Contains(s, needle) {
      assert OccursAt(s, needle, IndexOf(s, needle).value);
    }
  }

  /** `strtolower` on one byte: ASCII letters only (PHP 8 is locale-insensitive). */
  function LowerChar(c: char): char {
    if 'A' <= c <= 'Z' then (c as int + 32) as char else c
  }

  /** `strtolower`: every ASCII capital becomes its small letter; every other character stays. */
  function Lower(s: string): (r: string)
    ensures |r| == |s|
    ensures forall i :: 0 <= i < |r| ==> !('A' <= r[i] <= 'Z')
    ensures forall i :: 0 <= i < |s| && 'A' <= s[i] <= 'Z' ==> r[i] as int == s[i] as int + 32
    ensures forall i :: 0 <= i < |s| && !('A' <= s[i] <= 'Z') ==> r[i] == s[i]
    ensures forall i :: 0 <= i < |s| ==> r[i] == LowerChar(s[i])
  {
    seq(|s|, i requires 0 <= i < |s| => LowerChar(s[i]))
  }

  /** Lower-casing works character by character. */
  lemma LowerCons(s: string)
    requires s != []
    ensures Lower(s) == [LowerChar(s[0])] + Lower(s[1..])
  {
    var l, t := Lower(s), [LowerChar(s[0])] + Lower(s[1..]);
    forall i | 0 <= i < |s| ensures l[i] == t[i] {
      if i > 0 {
        assert t[i] == Lower(s[1..])[i - 1];
      }
    }
  }

  /** Lower-casing twice is lower-casing once. */
  lemma LowerIdempotent(s: string)
    ensures Lower(Lower(s)) == Lower(s)
  {
    var l := Lower(s);
    assert forall i :: 0 <= i < |l| ==> Lower(l)[i] == l[i];
  }

  /** `stripos($s, $needle) !== false`. */
  predicate ContainsCI(s: string, needle: string) {
    Contains(Lower(s), Lower(needle))
  }

  // ---------------------------------------------------------------------------------------
  // trim

  /** The characters PHP's `trim()` strips by default: " \t\n\r\0\x0B". */
  predicate PhpSpace(c: char) {
    c == ' ' || c == '\t' || c == '\n' || c == '\r' || c == '\0' || c == '\U{000B}'
  }

  /** Every character of `s` is one `ws` accepts. */
  predicate AllOf(s: string, ws: char -> bool) {
    forall i :: 0 <= i < |s| ==> ws(s[i])
  }

  function TrimLeft(s: string, ws: char -> bool): (r: string)
    ensures |r| <= |s| && r == s[|s| - |r|..]
    ensures AllOf(s[..|s| - |r|], ws)
    ensures r != [] ==> !ws(r[0])
  {
    if s != [] && ws(s[0]) then TrimLeft(s[1..], ws) else s
  }

  /** Only white space is dropped: every other character keeps its count. */
  lemma {:induction false} TrimLeftKeepsText(s: string, ws: char -> bool)
    ensures forall c :: !ws(c) ==> multiset(TrimLeft(s, ws))[c] == multiset(s)[c]
    decreases |s|
  {
    if s != [] && ws(s[0]) {
      assert s == [s[0]] + s[1..];
      TrimLeftKeepsText(s[1..], ws);
    }
  }

  function TrimRight(s: string, ws: char -> bool): (r: string)
    ensures |r| <= |s| && r == s[..|r|]
    ensures AllOf(s[|r|..], ws)
    ensures r != [] ==> !ws(r[|r| - 1])
  {
    if s != [] && ws(s[|s| - 1]) then TrimRight(s[..|s| - 1], ws) else s
  }

  /**
   * `r` is the slice of `s` starting at `i`, and everything cut off before and after it is
   * white space.
   */
  predicate TrimmedAt(s: string, r: string, i: int, ws: char -> bool) {
    0 <= i && i + |r| <= |s| && r == s[i..i + |r|] &&
    AllOf(s[..i], ws) && AllOf(s[i + |r|..], ws)
  }

  /** Strip the characters `ws` accepts from both ends. */
  function Trim(s: string, ws: char -> bool): (r: string)
    ensures |r| <= |s|
    ensures exists i :: TrimmedAt(s, r, i, ws)
    ensures r != [] ==> !ws(r[0]) && !ws(r[|r| - 1])
  {
    var l := TrimLeft(s, ws);
    var r := TrimRight(l, ws);
    assert r != [] ==> r[0] == l[0];
    TrimBothEnds(s, l, r, ws);
    r
  }

  lemma TrimBothEnds(s: string, l: string, r: string, ws: char -> bool)
    requires |l| <= |s| && l == s[|s| - |l|..] && AllOf(s[..|s| - |l|], ws)
    requires |r| <= |l| && r == l[..|r|] && AllOf(l[|r|..], ws)
    ensures TrimmedAt(s, r, |s| - |l|, ws)
  {
    var i := |s| - |l|;
    assert s[i + |r|..] == l[|r|..];
  }

  /** `r` is `s` with some of its elements deleted: the rest keep their order. */
  predicate Subsequence<T(==)>(r: seq<T>, s: seq<T>)
    decreases |s|
  {
    if r == [] then true
    else if s == [] then false
    else (r[0] == s[0] && Subsequence(r[1..], s[1..])) || Subsequence(r, s[1..])
  }

  /** Deleting the first element of `s` as well keeps a subsequence a subsequence. */
  lemma SubsequenceSkip<T>(r: seq<T>, s: seq<T>)
    requires s != [] && Subsequence(r, s[1..])
    ensures Subsequence(r, s)
  {
  }

  // ---------------------------------------------------------------------------------------
  // str_replace, explode, implode

  /**
   * `str_replace($from, $to, $s)`: one left-to-right pass replacing non-overlapping
   * occurrences; an empty search string leaves the subject unchanged.
   */
  function Replace(s: string, from: string, to: string): string
    decreases |s|
  {
    if from == [] then s
    else
      match IndexOf(s, from)
      case None => s
      case Some(i) => s[..i] + to + Replace(s[i + |from|..], from, to)
  }

  /** Where `strpos` finds the search string, `str_replace` keeps what precedes it and goes on after it. */
  lemma {:induction false} ReplaceAt(s: string, from: string, to: string)
    requires from != [] && IndexOf(s, from).Some?
    ensures Replace(s, from, to) == s[..IndexOf(s, from).value] + to + Replace(s[IndexOf(s, from).value + |from|..], from, to)
  {
  }

  /** Replacing a single character leaves no occurrence of it, when the replacement does not contain it. */
  lemma {:induction false} ReplaceCharRemovesAll(s: string, c: char, to: string)
    requires c !in to
    ensures c !in Replace(s, [c], to)
    decreases |s|
  {
    match IndexOf(s, [c])
    case None =>
      forall k | 0 <= k < |s| ensures s[k] != c {
        assert !OccursAt(s, [c], k);
        assert s[k..k + 1] == [s[k]];
      }
    case Some(i) =>
      forall k | 0 <= k < i ensures s[k] != c {
        assert !OccursAt(s, [c], k);
        assert s[k..k + 1] == [s[k]];
      }
      ReplaceCharRemovesAll(s[i + 1..], c, to);
  }

  /** `explode($sep, $s)` for a non-empty separator. */
  function Explode(s: string, sep: string): (parts: seq<string>)
    requires sep != []
    ensures |parts| >= 1
    decreases |s|
  {
    match IndexOf(s, sep)
    case None => [s]
    case Some(i) => [s[..i]] + Explode(s[i + |sep|..], sep)
  }

  /** `implode($sep, $parts)`. */
  function Join(parts: seq<string>, sep: string): string {
    if parts == [] then ""
    else if |parts| == 1 then parts[0]
    else parts[0] + sep + Join(parts[1..], sep)
  }

  /** Splitting and re-joining on the same separator gives back the input. */
  lemma {:induction false} JoinExplode(s: string, sep: string)
    requires sep != []
    ensures Join(Explode(s, sep), sep) == s
    decreases |s|
  {
    match IndexOf(s, sep)
    case None =>
    case Some(i) =>
      var rest := Explode(s[i + |sep|..], sep);
      JoinExplode(s[i + |sep|..], sep);
      assert Explode(s, sep) == [s[..i]] + rest;
      assert ([s[..i]] + rest)[1..] == rest;
      assert s[i..i + |sep|] == sep;
      assert s == s[..i] + sep + s[i + |sep|..];
  }

  /** No piece of `parts` contains `sep`. */
  predicate AllFree(parts: seq<string>, sep: string) {
    forall p :: p in parts ==> !Contains(p, sep)
  }

  /** No piece produced by `explode` contains the separator. */
  lemma {:induction false} ExplodePartsFree(s: string, sep: string)
    requires sep != []
    ensures AllFree(Explode(s, sep), sep)
    decreases |s|
  {
    if IndexOf(s, sep).Some? {
      var rest := s[IndexOf(s, sep).value + |sep|..];
      ExplodePartsFree(rest, sep);
      HeadBeforeFirstFree(s, sep);
      FreeCons(s[..IndexOf(s, sep).value], Explode(rest, sep), sep);
    }
  }

  lemma FreeCons(head: string, parts: seq<string>, sep: string)
    requires !Contains(head, sep) && AllFree(parts, sep)
    ensures AllFree([head] + parts, sep)
  {
    forall p | p in [head] + parts ensures !Contains(p, sep) {
      if p != head {
        assert p in parts;
      }
    }
  }

  /** What precedes the first occurrence holds no occurrence. */
  lemma HeadBeforeFirstFree(s: string, sep: string)
    requires sep != [] && IndexOf(s, sep).Some?
    ensures !Contains(s[..IndexOf(s, sep).value], sep)
  {
    var head := s[..IndexOf(s, sep).value];
    forall j | OccursAt(head, sep, j) ensures false {
      assert head[j..j + |sep|] == s[j..j + |sep|];
      assert OccursAt(s, sep, j);
    }
    ContainsIff(head, sep);
  }

  /** A one-character needle occurs exactly when the character does. */
  lemma ContainsChar(s: string, c: char)
    ensures Contains(s, [c]) <==> c in s
  {
    ContainsIff(s, [c]);
    if c in s {
      var j :| 0 <= j < |s| && s[j] == c;
      assert s[j..j + 1] == [c];
      assert OccursAt(s, [c], j);
    }
    if Contains(s, [c]) {
      var j :| OccursAt(s, [c], j);
      assert s[j] == s[j..j + 1][0] == c;
    }
  }

  /** Joining pieces free of a one-character separator and splitting again gives the pieces back. */
  lemma {:induction false} ExplodeJoin(parts: seq<string>, c: char)
    requires |parts| >= 1
    requires forall k :: 0 <= k < |parts| ==> c !in parts[k]
    ensures Explode(Join(parts, [c]), [c]) == parts
    decreases |parts|
  {
    var p := parts[0];
    ContainsChar(p, c);
    if |parts| == 1 {
      ContainsIff(p, [c]);
    } else {
      var rest := Join(parts[1..], [c]);
      var s := p + [c] + rest;
      assert Join(parts, [c]) == s;
      assert OccursAt(s, [c], |p|) by { assert s[|p|..|p| + 1] == [c]; }
      forall j | 0 <= j < |p| ensures !OccursAt(s, [c], j) {
        assert s[j..j + 1] == [p[j]];
      }
      assert IndexOf(s, [c]) == Some(|p|);
      assert s[..|p|] == p;
      assert s[|p| + 1..] == rest;
      ExplodeJoin(parts[1..], c);
    }
  }

  // ---------------------------------------------------------------------------------------
  // intval

  predicate IsDigit(c: char) {
    '0' <= c <= '9'
  }

  /** The value of the longest run of decimal digits at the start of `s`, read left to right. */
  function DigitsValue(s: string, acc: nat): nat
    decreases |s|
  {
    if s != [] && IsDigit(s[0]) then DigitsValue(s[1..], acc * 10 + (s[0] as int - '0' as int))
    else acc
  }

  /** White space `intval` skips before the number: " \t\n\r\v\f". */
  predicate IntvalSpace(c: char) {
    c == ' ' || c == '\t' || c == '\n' || c == '\r' || c == '\U{000B}' || c == '\U{000C}'
  }

  /** `intval($s)` for a string: leading white space, an optional sign, then digits. */
  function IntVal(s: string): int {
    var t := TrimLeft(s, IntvalSpace);
    if t != [] && t[0] == '-' then -(DigitsValue(t[1..], 0) as int)
    else if t != [] && t[0] == '+' then DigitsValue(t[1..], 0)
    else DigitsValue(t, 0)
  }

  // ---------------------------------------------------------------------------------------
  // isset / unset on associative arrays

  /** `isset($a[$k])`: the key is present and not bound to null. */
  predicate Isset(a: PhpArray, k: string) {
    k in a && a[k] != Null
  }

  /** `if ( isset( $a[$k] ) ) unset( $a[$k] );` for each key of `ks` in turn. */
  function UnsetEach(a: PhpArray, ks: seq<string>): (r: PhpArray)
    ensures forall k :: k in r <==> k in a && !(k in ks && Isset(a, k))
    ensures forall k :: k in r ==> r[k] == a[k]
  {
    if ks == [] then a
    else
      var a' := if Isset(a, ks[0]) then a - {ks[0]} else a;
      UnsetEach(a', ks[1..])
  }

  /** Removing the set keys a second time changes nothing. */
  lemma UnsetEachIdempotent(a: PhpArray, ks: seq<string>)
    ensures UnsetEach(UnsetEach(a, ks), ks) == UnsetEach(a, ks)
  {
    var once := UnsetEach(a, ks);
    var twice := UnsetEach(once, ks);
    assert twice.Keys == once.Keys;
  }

  // ---------------------------------------------------------------------------------------
  // unset on an ordered array

  /**
   * `unset( $a[$k] )` on an array read as its ordered (key, value) entries: the entries with
   * key `k` go and the others stay, in order.
   */
  function UnsetKey<K(==), V>(s: seq<(K, V)>, k: K): (r: seq<(K, V)>)
    ensures |r| <= |s|
    decreases |s|
  {
    if s == [] then []
    else if s[0].0 == k then UnsetKey(s[1..], k)
    else [s[0]] + UnsetKey(s[1..], k)
  }

  /** `unset` keeps exactly the entries with another key. */
  lemma {:induction false} UnsetKeyMembers<K, V>(s: seq<(K, V)>, k: K)
    ensures forall e :: e in UnsetKey(s, k) <==> e in s && e.0 != k
    decreases |s|
  {
    if s != [] {
      UnsetKeyMembers(s[1..], k);
      assert s == [s[0]] + s[1..];
    }
  }

  /** `UnsetKeyMembers` for one entry. */
  lemma UnsetKeyMember<K, V>(s: seq<(K, V)>, k: K, e: (K, V))
    ensures e in UnsetKey(s, k) <==> e in s && e.0 != k
  {
    UnsetKeyMembers(s, k);
  }

  /** The kept entries keep their order. */
  lemma {:induction false} UnsetKeyKeepsOrder<K, V>(s: seq<(K, V)>, k: K)
    ensures Subsequence(UnsetKey(s, k), s)
    decreases |s|
  {
    if s != [] {
      var rest := UnsetKey(s[1..], k);
      UnsetKeyKeepsOrder(s[1..], k);
      if s[0].0 == k {
        SubsequenceSkip(rest, s);
      } else {
        assert ([s[0]] + rest)[1..] == rest;
      }
    }
  }

  /** Unsetting a key the array does not hold changes nothing. */
  lemma {:induction false} UnsetKeyAbsent<K, V>(s: seq<(K, V)>, k: K)
    requires forall i :: 0 <= i < |s| ==> s[i].0 != k
    ensures UnsetKey(s, k) == s
    decreases |s|
  {
    if s != [] {
      UnsetKeyAbsent(s[1..], k);
      assert s == [s[0]] + s[1..];
    }
  }

  lemma {:induction false} UnsetKeyConcat<K, V>(a: seq<(K, V)>, b: seq<(K, V)>, k: K)
    ensures UnsetKey(a + b, k) == UnsetKey(a, k) + UnsetKey(b, k)
    decreases |a|
  {
    if a == [] {
      assert a + b == b;
    } else {
      assert (a + b)[1..] == a[1..] + b;
      UnsetKeyConcat(a[1..], b, k);
    }
  }
}

/**
 * `DashboardDocumentation`: the dashboard gets a "User Documentation" widget placed first in
 * the normal column, and a small markdown converter turns header lines into HTML headings
 * and blank-line-separated chunks into paragraphs.
 */
module DashboardDocumentation {
  import opened Php

  const DocWidget := "user_documentation_widget"

  // ---------------------------------------------------------------------------------------
  // Ordered string-keyed PHP arrays

  /** A PHP array with string keys, in insertion order. */
  type Boxes = seq<(string, Value)>

  predicate KeysUnique(b: Boxes) {
    forall i, j :: 0 <= i < j < |b| ==> b[i].0 != b[j].0
  }

  predicate HasKey(b: Boxes, k: string) {
    exists i :: 0 <= i < |b| && b[i].0 == k
  }

  /** The position of key `k`. */
  function KeyIndex(b: Boxes, k: string): (r: Option<nat>)
    ensures r.Some? ==> r.value < |b| && b[r.value].0 == k
    ensures r.Some? ==> forall j :: 0 <= j < r.value ==> b[j].0 != k
    ensures r.None? ==> !HasKey(b, k)
  {
    if b == [] then None
    else if b[0].0 == k then Some(0)
    else
      match KeyIndex(b[1..], k)
      case None => None
      case Some(i) => Some(i + 1)
  }

  /** Where the key first occurs, `KeyIndex` finds it. */
  lemma KeyIndexAt(b: Boxes, k: string, m: nat)
    requires m < |b| && b[m].0 == k
    requires forall j :: 0 <= j < m ==> b[j].0 != k
    ensures KeyIndex(b, k) == Some(m)
  {
    assert HasKey(b, k);
  }

  /** `$b[$k]`, which reads as null when the key is missing. */
  function Get(b: Boxes, k: string): Value {
    match KeyIndex(b, k)
    case Some(i) => b[i].1
    case None => Null
  }

  /** `$b[$k] = $v`: an existing key keeps its place, a new key goes last. */
  function SetKey(b: Boxes, k: string, v: Value): (r: Boxes)
    ensures |r| <= |b| + 1
  {
    match KeyIndex(b, k)
    case Some(i) => b[i := (k, v)]
    case None => b + [(k, v)]
  }

  /** `array_merge( $a, $b )` for string keys: each entry of `$b` in turn is written into the result. */
  function ArrayMerge(a: Boxes, b: Boxes): Boxes
    decreases |b|
  {
    if b == [] then a
    else
      var last := b[|b| - 1];
      SetKey(ArrayMerge(a, b[..|b| - 1]), last.0, last.1)
  }

  /** The entries whose key is not `k`, in order. */
  function Without(b: Boxes, k: string): (r: Boxes)
    ensures |r| <= |b|
  {
    if b == [] then [] else (if b[0].0 == k then [] else [b[0]]) + Without(b[1..], k)
  }

  lemma {:induction false} WithoutAbsent(b: Boxes, k: string)
    requires !HasKey(b, k)
    ensures Without(b, k) == b
    decreases |b|
  {
    if b != [] {
      assert !HasKey(b[1..], k) by {
        forall i | 0 <= i < |b[1..]| ensures b[1..][i].0 != k {
          assert b[1..][i] == b[i + 1];
        }
      }
      WithoutAbsent(b[1..], k);
    }
  }

  lemma {:induction false} WithoutConcat(x: Boxes, y: Boxes, k: string)
    ensures Without(x + y, k) == Without(x, k) + Without(y, k)
    decreases |x|
  {
    if x != [] {
      var h := if x[0].0 == k then [] else [x[0]];
      assert (x + y)[0] == x[0];
      assert (x + y)[1..] == x[1..] + y;
      WithoutConcat(x[1..], y, k);
      calc {
        Without(x + y, k);
        h + Without(x[1..] + y, k);
        h + (Without(x[1..], k) + Without(y, k));
        (h + Without(x[1..], k)) + Without(y, k);
        Without(x, k) + Without(y, k);
      }
    } else {
      assert x + y == y;
    }
  }

  /** Merging in two parts is merging the whole. */
  lemma {:induction false} ArrayMergeConcat(a: Boxes, x: Boxes, y: Boxes)
    ensures ArrayMerge(a, x + y) == ArrayMerge(ArrayMerge(a, x), y)
    decreases |y|
  {
    if y == [] {
      assert x + y == x;
    } else {
      assert (x + y)[..|x + y| - 1] == x + y[..|y| - 1];
      ArrayMergeConcat(a, x, y[..|y| - 1]);
    }
  }

  /** Merging entries whose keys are all new appends them. */
  lemma {:induction false} ArrayMergeFresh(a: Boxes, b: Boxes)
    requires KeysUnique(b)
    requires forall j :: 0 <= j < |b| ==> !HasKey(a, b[j].0)
    ensures ArrayMerge(a, b) == a + b
    decreases |b|
  {
    if b != [] {
      var init := b[..|b| - 1];
      var last := b[|b| - 1];
      ArrayMergeFresh(a, init);
      assert !HasKey(a + init, last.0) by {
        forall i | 0 <= i < |a + init| ensures (a + init)[i].0 != last.0 {
          if i >= |a| {
            assert (a + init)[i] == b[i - |a|];
          }
        }
      }
      assert a + init + [last] == a + b;
    }
  }

  /**
   * `add_documentation_widget`'s reordering: `array_merge` of the widget alone with the
   * whole column. The widget ends up first and every other box follows in its old order.
   */
  function MoveToFront(boxes: Boxes): (r: Boxes) {
    ArrayMerge([(DocWidget, Get(boxes, DocWidget))], boxes)
  }

  lemma MoveToFrontPromise(boxes: Boxes)
    requires KeysUnique(boxes)
    ensures MoveToFront(boxes) == [(DocWidget, Get(boxes, DocWidget))] + Without(boxes, DocWidget)
    ensures HasKey(boxes, DocWidget) ==> |MoveToFront(boxes)| == |boxes|
    ensures HasKey(boxes, DocWidget) ==> multiset(MoveToFront(boxes)) == multiset(boxes)
  {
    match KeyIndex(boxes, DocWidget)
    case None => MoveToFrontAbsent(boxes);
    case Some(m) => MoveToFrontPresent(boxes, m);
  }

  lemma MoveToFrontAbsent(boxes: Boxes)
    requires KeysUnique(boxes) && !HasKey(boxes, DocWidget)
    ensures MoveToFront(boxes) == [(DocWidget, Null)] + boxes
    ensures Without(boxes, DocWidget) == boxes && Get(boxes, DocWidget) == Null
  {
    var d := [(DocWidget, Null)];
    forall j | 0 <= j < |boxes| ensures !HasKey(d, boxes[j].0) {
      assert boxes[j].0 != DocWidget;
    }
    ArrayMergeFresh(d, boxes);
    WithoutAbsent(boxes, DocWidget);
  }

  lemma MoveToFrontPresent(boxes: Boxes, m: nat)
    requires KeysUnique(boxes) && KeyIndex(boxes, DocWidget) == Some(m)
    ensures MoveToFront(boxes) == [(DocWidget, Get(boxes, DocWidget))] + Without(boxes, DocWidget)
    ensures |MoveToFront(boxes)| == |boxes|
    ensures multiset(MoveToFront(boxes)) == multiset(boxes)
  {
    var p, q := boxes[..m], boxes[m + 1..];
    var v := Get(boxes, DocWidget);
    SplitAtWidget(boxes, m);
    MoveToFrontOfSplit(boxes, p, v, q);
    FrontSwap((DocWidget, v), p, q);
  }

  lemma MoveToFrontOfSplit(boxes: Boxes, p: Boxes, v: Value, q: Boxes)
    requires boxes == p + [(DocWidget, v)] + q && v == Get(boxes, DocWidget)
    requires KeysUnique(p + q) && !HasKey(p, DocWidget) && !HasKey(q, DocWidget)
    ensures MoveToFront(boxes) == [(DocWidget, v)] + (p + q)
    ensures Without(boxes, DocWidget) == p + q
  {
    MoveToFrontSplit(p, v, q);
    assert [(DocWidget, v)] + p + q == [(DocWidget, v)] + (p + q);
  }

  /** Moving one entry to the front keeps the length and the entries. */
  lemma FrontSwap<T>(e: T, p: seq<T>, q: seq<T>)
    ensures |[e] + (p + q)| == |p + [e] + q|
    ensures multiset([e] + (p + q)) == multiset(p + [e] + q)
  {
    calc {
      multiset([e] + (p + q));
      multiset([e]) + multiset(p) + multiset(q);
      multiset(p) + multiset([e]) + multiset(q);
      multiset(p + [e] + q);
    }
  }

  /** Cutting the column at the widget's position. */
  lemma SplitAtWidget(boxes: Boxes, m: nat)
    requires KeysUnique(boxes) && KeyIndex(boxes, DocWidget) == Some(m)
    ensures var p, e, q := boxes[..m], boxes[m], boxes[m + 1..];
      && boxes == p + [e] + q && e == (DocWidget, Get(boxes, DocWidget))
      && KeysUnique(p + q) && !HasKey(p, DocWidget) && !HasKey(q, DocWidget)
  {
    var p, e, q := boxes[..m], boxes[m], boxes[m + 1..];
    assert boxes == p + [e] + q;
    AfterWidgetLacksIt(boxes, m, q);
    AroundWidgetUnique(boxes, m, p, q);
  }

  lemma AfterWidgetLacksIt(boxes: Boxes, m: nat, q: Boxes)
    requires KeysUnique(boxes) && m < |boxes| && boxes[m].0 == DocWidget && q == boxes[m + 1..]
    ensures !HasKey(q, DocWidget)
  {
    forall i | 0 <= i < |q| ensures q[i].0 != DocWidget {
      assert q[i] == boxes[m + 1 + i];
    }
  }

  lemma AroundWidgetUnique(boxes: Boxes, m: nat, p: Boxes, q: Boxes)
    requires KeysUnique(boxes) && m < |boxes| && p == boxes[..m] && q == boxes[m + 1..]
    ensures KeysUnique(p + q)
  {
    forall i, j | 0 <= i < j < |p + q| ensures (p + q)[i].0 != (p + q)[j].0 {
      var i', j' := if i < |p| then i else i + 1, if j < |p| then j else j + 1;
      assert (p + q)[i] == boxes[i'] && (p + q)[j] == boxes[j'];
    }
  }

  /** The column split around the widget: `p`, then the widget, then `q`. */
  lemma MoveToFrontSplit(p: Boxes, v: Value, q: Boxes)
    requires KeysUnique(p + q) && !HasKey(p, DocWidget) && !HasKey(q, DocWidget)
    ensures ArrayMerge([(DocWidget, v)], p + [(DocWidget, v)] + q) == [(DocWidget, v)] + p + q
    ensures Without(p + [(DocWidget, v)] + q, DocWidget) == p + q
  {
    var d, e := [(DocWidget, v)], (DocWidget, v);
    UniqueParts(p, q);
    MergeUpToWidget(p, v);
    forall j | 0 <= j < |q| ensures !HasKey(d + p, q[j].0) {
      forall i | 0 <= i < |d + p| ensures (d + p)[i].0 != q[j].0 {
        if i >= 1 {
          assert (d + p)[i] == (p + q)[i - 1] && q[j] == (p + q)[|p| + j];
        }
      }
    }
    ArrayMergeFresh(d + p, q);
    ArrayMergeConcat(d, p + [e], q);
    WithoutAround(p, e, q);
  }

  lemma UniqueParts(p: Boxes, q: Boxes)
    requires KeysUnique(p + q)
    ensures KeysUnique(p) && KeysUnique(q)
  {
    forall i, j | 0 <= i < j < |p| ensures p[i].0 != p[j].0 {
      assert p[i] == (p + q)[i] && p[j] == (p + q)[j];
    }
    forall i, j | 0 <= i < j < |q| ensures q[i].0 != q[j].0 {
      assert q[i] == (p + q)[|p| + i] && q[j] == (p + q)[|p| + j];
    }
  }

  /** Merging the boxes before the widget, then the widget itself, leaves the widget first. */
  lemma MergeUpToWidget(p: Boxes, v: Value)
    requires KeysUnique(p) && !HasKey(p, DocWidget)
    ensures ArrayMerge([(DocWidget, v)], p + [(DocWidget, v)]) == [(DocWidget, v)] + p
  {
    var d, e := [(DocWidget, v)], (DocWidget, v);
    forall j | 0 <= j < |p| ensures !HasKey(d, p[j].0) {
    }
    ArrayMergeFresh(d, p);
    ArrayMergeConcat(d, p, [e]);
    assert [e][..0] == [];
    assert ArrayMerge(d, p + [e]) == SetKey(d + p, DocWidget, v);
    KeyIndexAt(d + p, DocWidget, 0);
    assert (d + p)[0 := e] == d + p;
  }

  lemma WithoutAround(p: Boxes, e: (string, Value), q: Boxes)
    requires e.0 == DocWidget && !HasKey(p, DocWidget) && !HasKey(q, DocWidget)
    ensures Without(p + [e] + q, DocWidget) == p + q
  {
    WithoutConcat(p + [e], q, DocWidget);
    WithoutConcat(p, [e], DocWidget);
    WithoutAbsent(p, DocWidget);
    WithoutAbsent(q, DocWidget);
    WithoutWidgetAlone(e);
    assert Without(p + [e], DocWidget) == p;
  }

  lemma WithoutWidgetAlone(e: (string, Value))
    requires e.0 == DocWidget
    ensures Without([e], DocWidget) == []
  {
    assert Without([e], DocWidget) == [] + Without([], DocWidget);
  }

  lemma SetKeyKeepsOthers(b: Boxes, v: Value)
    requires KeysUnique(b)
    ensures KeysUnique(SetKey(b, DocWidget, v))
    ensures Get(SetKey(b, DocWidget, v), DocWidget) == v
    ensures Without(SetKey(b, DocWidget, v), DocWidget) == Without(b, DocWidget)
  {
    match KeyIndex(b, DocWidget)
    case None => SetKeyAppends(b, v);
    case Some(m) =>
      SetKeyOverwritesKeys(b, v, m);
      SetKeyOverwritesWithout(b, v, m);
  }

  /** A new key goes last: the keys stay unique and only the new entry is dropped again. */
  lemma SetKeyAppends(b: Boxes, v: Value)
    requires KeysUnique(b) && !HasKey(b, DocWidget)
    ensures KeysUnique(b + [(DocWidget, v)])
    ensures Get(b + [(DocWidget, v)], DocWidget) == v
    ensures Without(b + [(DocWidget, v)], DocWidget) == Without(b, DocWidget)
  {
    WithoutConcat(b, [(DocWidget, v)], DocWidget);
    assert Without([(DocWidget, v)], DocWidget) == [];
    KeyIndexAt(b + [(DocWidget, v)], DocWidget, |b|);
  }

  /** Overwriting in place keeps every key where it was. */
  lemma SetKeyOverwritesKeys(b: Boxes, v: Value, m: nat)
    requires KeysUnique(b) && m < |b| && b[m].0 == DocWidget
    requires forall j :: 0 <= j < m ==> b[j].0 != DocWidget
    ensures KeysUnique(b[m := (DocWidget, v)])
    ensures Get(b[m := (DocWidget, v)], DocWidget) == v
  {
    KeyIndexAt(b[m := (DocWidget, v)], DocWidget, m);
  }

  /** The overwritten entry is the one `Without` drops, before and after. */
  lemma SetKeyOverwritesWithout(b: Boxes, v: Value, m: nat)
    requires m < |b| && b[m].0 == DocWidget
    ensures Without(b[m := (DocWidget, v)], DocWidget) == Without(b, DocWidget)
  {
    var p, q := b[..m], b[m + 1..];
    assert b == p + [b[m]] + q;
    assert b[m := (DocWidget, v)] == p + [(DocWidget, v)] + q;
    WithoutConcat(p + [b[m]], q, DocWidget);
    WithoutConcat(p, [b[m]], DocWidget);
    WithoutConcat(p + [(DocWidget, v)], q, DocWidget);
    WithoutConcat(p, [(DocWidget, v)], DocWidget);
    assert Without([b[m]], DocWidget) == [] == Without([(DocWidget, v)], DocWidget);
  }

  /**
   * `add_documentation_widget`: `wp_add_dashboard_widget` writes the widget into the
   * normal column, then the column is reordered.
   */
  function AddDocumentationWidget(column: Boxes, widget: Value): Boxes {
    MoveToFront(SetKey(column, DocWidget, widget))
  }

  /** The new widget comes first, and every other box of the column follows, none lost, in its old order. */
  lemma DocumentationWidgetFirst(column: Boxes, widget: Value)
    requires KeysUnique(column)
    ensures AddDocumentationWidget(column, widget) == [(DocWidget, widget)] + Without(column, DocWidget)
  {
    SetKeyKeepsOthers(column, widget);
    MoveToFrontPromise(SetKey(column, DocWidget, widget));
  }

  // ---------------------------------------------------------------------------------------
  // parse_markdown: headers

  /** A line `<marker> x` with non-empty `x` becomes `<tag>x</tag>`; any other line stays. */
  function HeaderLine(line: string, marker: string, tag: string): string {
    var lead := marker + " ";
    if IsPrefix(lead, line) && |line| > |lead| then "<" + tag + ">" + line[|lead|..] + "</" + tag + ">"
    else line
  }

  /** One multi-line `preg_replace( '/^<marker> (.+)$/m', '<tag>$1</tag>', $content )`. */
  function HeaderPass(content: string, marker: string, tag: string): string {
    var lines := Explode(content, "\n");
    Join(seq(|lines|, i requires 0 <= i < |lines| => HeaderLine(lines[i], marker, tag)), "\n")
  }

  /** The three header passes, `###` first. */
  function ConvertHeaders(content: string): string {
    HeaderPass(HeaderPass(HeaderPass(content, "###", "h3"), "##", "h2"), "#", "h1")
  }

  /** What the three passes do to one line. */
  function HeadingOf(line: string): string {
    HeaderLine(HeaderLine(HeaderLine(line, "###", "h3"), "##", "h2"), "#", "h1")
  }

  lemma HeaderLineNoNewline(line: string, marker: string, tag: string)
    requires '\n' !in line && '\n' !in tag
    ensures '\n' !in HeaderLine(line, marker, tag)
  {
    var lead := marker + " ";
    if IsPrefix(lead, line) && |line| > |lead| {
      var h := "<" + tag + ">" + line[|lead|..] + "</" + tag + ">";
      forall i | 0 <= i < |h| ensures h[i] != '\n' {
        if 1 + |tag| + 1 <= i < 1 + |tag| + 1 + |line| - |lead| {
          assert h[i] == line[i - (|tag| + 2) + |lead|];
        }
      }
    }
  }

  /** A header pass maps the lines one by one and keeps their number. */
  lemma HeaderPassLines(content: string, marker: string, tag: string)
    requires '\n' !in tag
    ensures var lines := Explode(content, "\n");
      var out := Explode(HeaderPass(content, marker, tag), "\n");
      |out| == |lines| && forall i :: 0 <= i < |lines| ==> out[i] == HeaderLine(lines[i], marker, tag)
  {
    var lines := Explode(content, "\n");
    ExplodePartsFree(content, "\n");
    var mapped := seq(|lines|, i requires 0 <= i < |lines| => HeaderLine(lines[i], marker, tag));
    forall k | 0 <= k < |mapped| ensures '\n' !in mapped[k] {
      assert lines[k] in lines;
      ContainsChar(lines[k], '\n');
      HeaderLineNoNewline(lines[k], marker, tag);
    }
    ExplodeJoin(mapped, '\n');
  }

  /**
   * The three header passes act line by line: `### x`, `## x` and `# x` (with `x` non-empty)
   * become h3, h2 and h1 headings of `x`, and every other line is left as it was.
   */
  lemma ConvertHeadersPerLine(content: string)
    ensures var lines := Explode(content, "\n");
      var out := Explode(ConvertHeaders(content), "\n");
      |out| == |lines| && forall i :: 0 <= i < |lines| ==> out[i] == HeadingOf(lines[i])
  {
    var c1 := HeaderPass(content, "###", "h3");
    var c2 := HeaderPass(c1, "##", "h2");
    HeaderPassLines(content, "###", "h3");
    HeaderPassLines(c1, "##", "h2");
    HeaderPassLines(c2, "#", "h1");
  }

  /** A `### x` line is an h3 heading and is not turned into a lower-level one by the later passes. */
  lemma ThreeHashesMakeAnH3(x: string)
    requires x != []
    ensures HeadingOf("### " + x) == "<h3>" + x + "</h3>"
  {
    var line := "### " + x;
    assert "###" + " " == "### ";
    assert IsPrefix("### ", line);
    assert line[4..] == x;
    var h := "<h3>" + x + "</h3>";
    assert HeaderLine(line, "###", "h3") == h;
    assert h[0] == '<';
    assert ("##" + " ")[0] == '#' && ("#" + " ")[0] == '#';
    assert HeaderLine(h, "##", "h2") == h;
    assert HeaderLine(h, "#", "h1") == h;
  }

  // ---------------------------------------------------------------------------------------
  // parse_markdown: paragraphs

  /** `preg_match( '/^<(h[1-6]|ul|ol|div)/', $p )`. */
  predicate IsHtmlBlock(p: string) {
    && |p| >= 3 && p[0] == '<'
    && ((p[1] == 'h' && '1' <= p[2] <= '6') || p[1..3] == "ul" || p[1..3] == "ol" || (|p| >= 4 && p[1..4] == "div"))
  }

  /** One chunk's output: nothing when the trimmed chunk is empty (or "0"), the chunk itself for an HTML block, a paragraph otherwise. */
  function Block(chunk: string): string {
    var t := Trim(chunk, PhpSpace);
    if EmptyStr(t) then ""
    else if IsHtmlBlock(t) then t + "\n"
    else "<p>" + t + "</p>\n"
  }

  /** `f` of each piece, concatenated in order. */
  function ConcatMap(xs: seq<string>, f: string -> string): string
    decreases |xs|
  {
    if xs == [] then "" else ConcatMap(xs[..|xs| - 1], f) + f(xs[|xs| - 1])
  }

  lemma ConcatMapStep(xs: seq<string>, f: string -> string, i: nat)
    requires i < |xs|
    ensures ConcatMap(xs[..i + 1], f) == ConcatMap(xs[..i], f) + f(xs[i])
  {
    assert xs[..i + 1][..i] == xs[..i];
  }

  lemma {:induction false} ConcatMapConcat(x: seq<string>, y: seq<string>, f: string -> string)
    ensures ConcatMap(x + y, f) == ConcatMap(x, f) + ConcatMap(y, f)
    decreases |y|
  {
    if y == [] {
      assert x + y == x;
    } else {
      var y' := y[..|y| - 1];
      assert (x + y)[..|x + y| - 1] == x + y';
      ConcatMapConcat(x, y', f);
    }
  }

  /** The chunks' outputs, concatenated in order. */
  function Blocks(chunks: seq<string>): string {
    ConcatMap(chunks, Block)
  }

  /** One turn of the paragraph loop: a chunk that trims to "" or "0" is skipped, an HTML block is kept, other text is wrapped. */
  method WrapChunk(chunk: string) returns (out: string)
    ensures out == Block(chunk)
  {
    var paragraph := Trim(chunk, PhpSpace);
    if EmptyStr(paragraph) {
      return "";
    }
    if IsHtmlBlock(paragraph) {
      out := paragraph + "\n";
    } else {
      out := "<p>" + paragraph + "</p>\n";
    }
  }

  /** The paragraph loop of `parse_markdown`, over the chunks between blank lines. */
  method WrapParagraphs(content: string) returns (html: string)
    ensures html == Blocks(Explode(content, "\n\n"))
  {
    var chunks := Explode(content, "\n\n");
    html := WrapChunks(chunks);
  }

  /** The loop itself: each chunk's output, appended in order. */
  method WrapChunks(chunks: seq<string>) returns (html: string)
    ensures html == Blocks(chunks)
  {
    html := "";
    var i := 0;
    while i < |chunks|
      invariant 0 <= i <= |chunks|
      invariant html == Blocks(chunks[..i])
    {
      ConcatMapStep(chunks, Block, i);
      var out := WrapChunk(chunks[i]);
      html := html + out;
      i := i + 1;
    }
    assert chunks[..|chunks|] == chunks;
  }

  /** The output of a document is the outputs of its parts, one after the other. */
  lemma BlocksConcat(x: seq<string>, y: seq<string>)
    ensures Blocks(x + y) == Blocks(x) + Blocks(y)
  {
    ConcatMapConcat(x, y, Block);
  }

  /**
   * A chunk contributes nothing exactly when it trims to "" or "0"; otherwise it contributes
   * its trimmed text, wrapped in a paragraph unless it is an HTML block, and a newline.
   */
  lemma BlockShape(chunk: string)
    ensures var t := Trim(chunk, PhpSpace); var b := Block(chunk);
      && (b == "" <==> EmptyStr(t))
      && (b != "" ==> b[|b| - 1] == '\n')
      && (b != "" && IsHtmlBlock(t) ==> b[..|b| - 1] == t)
      && (b != "" && !IsHtmlBlock(t) ==> b[..3] == "<p>" && b[3..|b| - 5] == t && b[|b| - 5..] == "</p>\n")
  {
  }
}

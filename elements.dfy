/** Document elements, their metadata, and how the text of a group of
    elements is rendered as one chunk. */
module Elements {
  import opened Wrappers

  /** The element variants the chunker distinguishes. `CompositeElement` and
      `TableChunk` are only produced by chunking. */
  datatype Kind =
    | Title | Text | NarrativeText | ListItem | Table | CheckBox
    | CompositeElement | TableChunk

  /** One regex match inside an element's text: `text` sits at `[start, end)`. */
  datatype RegexMatch = RegexMatch(text: string, start: int, end: int)

  /** Geometry is carried along opaquely; no arithmetic is ever done on it. */
  datatype CoordinateSystem = CoordinateSystem(width: real, height: real)
  datatype Coordinates = Coordinates(points: seq<(real, real)>, system: CoordinateSystem)

  /** The sparse metadata record. An empty list or map stands for an unset field. */
  datatype Metadata = Metadata(
    pageNumber: Option<int>,
    section: Option<string>,
    emphasizedTextContents: seq<string>,
    regexMetadata: map<string, seq<RegexMatch>>,
    detectionClassProb: Option<real>,
    coordinates: Option<Coordinates>)

  datatype Element = Element(kind: Kind, text: string, metadata: Metadata)

  const NoMetadata: Metadata := Metadata(None, None, [], map[], None, None)

  /** The blank line placed between the texts of consecutive elements of a chunk. */
  const Separator: string := "\n\n"

  /** Tables (and pieces of tables) are never grouped with other elements. */
  predicate IsTable(e: Element) {
    e.kind == Table || e.kind == TableChunk
  }

  /** Two texts joined for a chunk: a separator only between two non-empty texts. */
  function JoinTwo(x: string, y: string): string {
    if y == "" then x else if x == "" then y else x + Separator + y
  }

  /** The text of a group of elements as one chunk: the non-empty texts, in
      order, joined by `Separator`. */
  function Render(es: seq<Element>): string
    decreases |es|
  {
    if es == [] then "" else JoinTwo(Render(es[..|es| - 1]), es[|es| - 1].text)
  }

  /** Two groups that agree element by element on kind, text, section and
      page: everything rendering and pre-chunking look at. */
  predicate SameLayout(a: seq<Element>, b: seq<Element>) {
    && |a| == |b|
    && forall i | 0 <= i < |a| ::
         && a[i].kind == b[i].kind && a[i].text == b[i].text
         && a[i].metadata.section == b[i].metadata.section
         && a[i].metadata.pageNumber == b[i].metadata.pageNumber
  }

  /** Rendering looks only at the texts. */
  lemma {:induction false} SameLayoutRender(a: seq<Element>, b: seq<Element>)
    requires SameLayout(a, b)
    ensures Render(a) == Render(b)
    decreases |a|
  {
    if a != [] {
      var n := |a| - 1;
      assert SameLayout(a[..n], b[..n]);
      SameLayoutRender(a[..n], b[..n]);
      assert a[n].text == b[n].text;
    }
  }

  /** Where the text of `es[i]` starts inside `Render(es)`. */
  function Offset(es: seq<Element>, i: nat): nat
    requires i < |es|
  {
    var pre := Render(es[..i]);
    if pre == "" || es[i].text == "" then |pre| else |pre| + |Separator|
  }

  /** An independent account of the length taken by a group of elements once a
      further non-empty text follows it: every non-empty text plus one separator. */
  function SpanBefore(es: seq<Element>): nat
    decreases |es|
  {
    if es == [] then 0
    else
      var t := es[|es| - 1].text;
      SpanBefore(es[..|es| - 1]) + (if t == "" then 0 else |t| + |Separator|)
  }

  /** The rendered text of the first `i + 1` elements ends with the text of
      element `i`, placed at `Offset(es, i)`. */
  lemma RenderStep(es: seq<Element>, i: nat)
    requires i < |es|
    ensures |Render(es[..i + 1])| == Offset(es, i) + |es[i].text|
    ensures Render(es[..i + 1])[..Offset(es, i)] == Render(es[..i])
               + (if Offset(es, i) == |Render(es[..i])| then "" else Separator)
    ensures Render(es[..i + 1])[Offset(es, i)..] == es[i].text
  {
    assert es[..i + 1][..i] == es[..i];
    assert es[..i + 1][i] == es[i];
  }

  /** Rendering a longer prefix only appends text. */
  lemma {:induction false} RenderPrefix(es: seq<Element>, j: nat, k: nat)
    requires j <= k <= |es|
    ensures |Render(es[..j])| <= |Render(es[..k])|
    ensures Render(es[..k])[..|Render(es[..j])|] == Render(es[..j])
  {
    if j < k {
      RenderPrefix(es, j, k - 1);
      var p, q, r := Render(es[..j]), Render(es[..k - 1]), Render(es[..k]);
      assert es[..k][..k - 1] == es[..k - 1];
      assert r == JoinTwo(q, es[k - 1].text);
      JoinTwoExtends(q, es[k - 1].text);
      assert r[..|p|] == r[..|q|][..|p|];
    }
  }

  /** The offset of a non-empty element is the span of everything before it:
      the preceding non-empty texts plus one separator after each. */
  lemma {:induction false} OffsetIsSpanBefore(es: seq<Element>, i: nat)
    requires i < |es| && es[i].text != ""
    ensures Offset(es, i) == SpanBefore(es[..i])
  {
    RenderSpan(es[..i]);
  }

  /** The rendered text of a group followed by a separator spans `SpanBefore`. */
  lemma {:induction false} RenderSpan(es: seq<Element>)
    ensures Render(es) == "" ==> SpanBefore(es) == 0
    ensures Render(es) != "" ==> SpanBefore(es) == |Render(es)| + |Separator|
    decreases |es|
  {
    if es != [] {
      RenderSpan(es[..|es| - 1]);
    }
  }

  /** Joining more text only appends to the first text. */
  lemma JoinTwoExtends(x: string, y: string)
    ensures |x| <= |JoinTwo(x, y)| && JoinTwo(x, y)[..|x|] == x
  {
    if y != "" && x != "" {
      assert (x + Separator + y)[..|x|] == x;
    }
  }

  lemma JoinTwoAssoc(x: string, y: string, z: string)
    ensures JoinTwo(JoinTwo(x, y), z) == JoinTwo(x, JoinTwo(y, z))
  {
    if x != "" && y != "" && z != "" {
      assert (x + Separator + y) + Separator + z == x + Separator + (y + Separator + z);
    }
  }

  /** Rendering two groups one after the other is rendering each and joining
      the two texts with a separator when both are non-empty. */
  lemma {:induction false} RenderConcat(a: seq<Element>, b: seq<Element>)
    ensures Render(a + b) ==
      if Render(a) == "" then Render(b)
      else if Render(b) == "" then Render(a)
      else Render(a) + Separator + Render(b)
    decreases |b|
  {
    if b != [] {
      var n := |b| - 1;
      var t := b[n].text;
      assert (a + b)[..|a + b| - 1] == a + b[..n];
      assert (a + b)[|a + b| - 1] == b[n];
      assert Render(a + b) == JoinTwo(Render(a + b[..n]), t);
      assert Render(b) == JoinTwo(Render(b[..n]), t);
      RenderConcat(a, b[..n]);
      assert Render(a + b[..n]) == JoinTwo(Render(a), Render(b[..n]));
      JoinTwoAssoc(Render(a), Render(b[..n]), t);
    } else {
      assert a + b == a;
    }
  }

  /** So the combined text never needs more room than both texts plus a separator. */
  lemma RenderConcatLength(a: seq<Element>, b: seq<Element>)
    ensures |Render(a + b)| <= |Render(a)| + |Separator| + |Render(b)|
  {
    RenderConcat(a, b);
  }

  /** A single element renders as its own text. */
  lemma RenderSingle(e: Element)
    ensures Render([e]) == e.text
  {
    assert [e][..0] == [];
  }
}

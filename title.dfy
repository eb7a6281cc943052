/** Chunking by title: options, pre-chunks, combining, then rendering each
    pre-chunk into chunks no longer than the hard maximum. */
module ByTitle {
  import opened Wrappers
  import opened Elements
  import opened ChunkingOptions
  import opened PreChunking
  import opened Combining
  import opened Splitting
  import opened Consolidation

  /** One chunk of kind `kind` per piece of text, all sharing `md`. */
  function Pieces(kind: Kind, texts: seq<string>, md: Metadata): seq<Element> {
    seq(|texts|, i requires 0 <= i < |texts| => Element(kind, texts[i], md))
  }

  /** The chunks one pre-chunk becomes. A table that fits stays one Table;
      a larger one becomes TableChunk pieces. A text pre-chunk becomes one
      CompositeElement per piece of its rendered text, each carrying the
      consolidated metadata. */
  function PreChunkChunks(pc: PreChunk, opts: Options): seq<Element>
    requires opts.hardMax > 0
  {
    match pc
    case TablePreChunk(t) =>
      if |t.text| <= opts.hardMax then [Element(Table, t.text, t.metadata)]
      else Pieces(TableChunk, Split(t.text, opts.hardMax), t.metadata)
    case TextPreChunk(es) =>
      Pieces(CompositeElement, Split(Render(es), opts.hardMax), Consolidate(es))
  }

  /** The chunks of a pre-chunk sequence, in order. */
  function ChunksOf(pcs: seq<PreChunk>, opts: Options): seq<Element>
    requires opts.hardMax > 0
    decreases |pcs|
  {
    if pcs == [] then [] else ChunksOf(pcs[..|pcs| - 1], opts) + PreChunkChunks(pcs[|pcs| - 1], opts)
  }

  /** The whole pipeline on validated options. */
  function Chunks(elements: seq<Element>, opts: Options): seq<Element>
    requires opts.hardMax > 0
  {
    ChunksOf(Combine(PreChunks(elements, opts), opts), opts)
  }

  lemma PreChunkChunksBounded(pc: PreChunk, opts: Options)
    requires opts.hardMax > 0
    ensures forall c | c in PreChunkChunks(pc, opts) :: |c.text| <= opts.hardMax
  {
    match pc
    case TablePreChunk(t) =>
      SplitProperties(t.text, opts.hardMax);
    case TextPreChunk(es) =>
      SplitProperties(Render(es), opts.hardMax);
  }

  /** A pre-chunk that becomes exactly one chunk: a table within the hard
      maximum, or a text pre-chunk with non-empty text within it. */
  predicate FitsOneChunk(pc: PreChunk, opts: Options) {
    match pc
    case TablePreChunk(t) => |t.text| <= opts.hardMax
    case TextPreChunk(es) => Render(es) != "" && |Render(es)| <= opts.hardMax
  }

  /** That one chunk: the table as is, or the whole rendered text with the merged metadata. */
  function FittingChunk(pc: PreChunk): Element {
    match pc
    case TablePreChunk(t) => Element(Table, t.text, t.metadata)
    case TextPreChunk(es) => Element(CompositeElement, Render(es), Consolidate(es))
  }

  lemma PreChunkChunksFitting(pc: PreChunk, opts: Options)
    requires opts.hardMax > 0 && FitsOneChunk(pc, opts)
    ensures PreChunkChunks(pc, opts) == [FittingChunk(pc)]
  {
    if pc.TextPreChunk? {
      SplitProperties(Render(pc.elements), opts.hardMax);
    }
  }

  /** One fitting chunk appended after the chunks of the earlier pre-chunks. */
  lemma FittingSnoc(prev: seq<Element>, pcs: seq<PreChunk>)
    requires |pcs| == |prev| + 1
    requires forall i | 0 <= i < |prev| :: prev[i] == FittingChunk(pcs[..|prev|][i])
    ensures forall i | 0 <= i < |pcs| :: (prev + [FittingChunk(pcs[|prev|])])[i] == FittingChunk(pcs[i])
  {
    var all := prev + [FittingChunk(pcs[|prev|])];
    forall i | 0 <= i < |pcs| ensures all[i] == FittingChunk(pcs[i]) {
      if i < |prev| {
        assert all[i] == prev[i];
        assert pcs[..|prev|][i] == pcs[i];
      }
    }
  }

  /** A text pre-chunk yields no chunk exactly when its text is empty, or is
      longer than the hard maximum and holds no character but spaces: its
      elements, and their metadata, do not reach the output. */
  lemma NoChunkWithoutText(es: seq<Element>, opts: Options)
    requires opts.hardMax > 0
    ensures PreChunkChunks(TextPreChunk(es), opts) == [] <==>
      Render(es) == "" || (|Render(es)| > opts.hardMax && DropEmpty(Words(Render(es))) == [])
  {
    var s := Render(es);
    var ws := DropEmpty(Words(s));
    if s != "" && |s| > opts.hardMax && ws != [] {
      PackNonEmpty(ws[1..], ws[0], opts.hardMax);
    }
  }

  /** Pre-chunks that each fit become one chunk each, in order. */
  lemma {:induction false} ChunksOfFitting(pcs: seq<PreChunk>, opts: Options)
    requires opts.hardMax > 0 && forall pc | pc in pcs :: FitsOneChunk(pc, opts)
    ensures |ChunksOf(pcs, opts)| == |pcs|
    ensures forall i | 0 <= i < |pcs| :: ChunksOf(pcs, opts)[i] == FittingChunk(pcs[i])
    decreases |pcs|
  {
    if pcs != [] {
      var n := |pcs| - 1;
      forall pc | pc in pcs[..n] ensures FitsOneChunk(pc, opts) { assert pc in pcs; }
      ChunksOfFitting(pcs[..n], opts);
      assert pcs[n] in pcs;
      PreChunkChunksFitting(pcs[n], opts);
      var prev := ChunksOf(pcs[..n], opts);
      assert ChunksOf(pcs, opts) == prev + [FittingChunk(pcs[n])];
      FittingSnoc(prev, pcs);
    }
  }

  /** Input that pre-chunks into one text pre-chunk that fits becomes exactly
      one CompositeElement: combining has nothing to merge it with. */
  lemma LonePreChunkIsOneChunk(es: seq<Element>, opts: Options)
    requires opts.hardMax > 0 && PreChunks(es, opts) == [TextPreChunk(es)]
    requires Render(es) != "" && |Render(es)| <= opts.hardMax
    ensures Chunks(es, opts) == [Element(CompositeElement, Render(es), Consolidate(es))]
  {
    var pc := TextPreChunk(es);
    assert es != [];
    assert [pc] == [pc] + [];
    CombineFromStep(pc, [], [], opts);
    assert Combine([pc], opts) == [pc];
    ChunksOfFitting([pc], opts);
  }

  /** Size bound: no chunk is longer than the hard maximum. */
  lemma {:induction false} ChunksOfBounded(pcs: seq<PreChunk>, opts: Options)
    requires opts.hardMax > 0
    ensures forall c | c in ChunksOf(pcs, opts) :: |c.text| <= opts.hardMax
    decreases |pcs|
  {
    if pcs != [] {
      ChunksOfBounded(pcs[..|pcs| - 1], opts);
      PreChunkChunksBounded(pcs[|pcs| - 1], opts);
    }
  }

  /** Order preservation and table isolation: the pre-chunks the chunks are
      rendered from hold exactly the input elements in input order, every
      table alone in its own pre-chunk. */
  lemma ChunkingPreservesOrder(elements: seq<Element>, opts: Options)
    ensures Flatten(Combine(PreChunks(elements, opts), opts)) == elements
    ensures WellFormed(Combine(PreChunks(elements, opts), opts))
  {
    PreChunksFromPreserveOrder(elements, [], opts);
    CombineFromPreservesOrder(PreChunks(elements, opts), [], opts);
    PreChunksFromWellFormed(elements, [], opts);
    CombineFromWellFormed(PreChunks(elements, opts), [], opts);
  }

  /** Only a pre-chunk made of one element can be longer than the hard
      maximum, so text is split mid-element only when a single element is
      itself too long. */
  lemma OnlyLoneElementsAreSplit(elements: seq<Element>, opts: Options, pc: PreChunk)
    requires Valid(opts)
    requires pc in Combine(PreChunks(elements, opts), opts) && pc.TextPreChunk?
    requires |Render(pc.elements)| > opts.hardMax
    ensures |pc.elements| == 1
  {
    var pcs := PreChunks(elements, opts);
    CombineFromBounded(pcs, [], pcs, opts);
    assert FitsOrUnchanged(pc, pcs, opts);
    PreChunksFromCoherent(elements, [], opts);
    PreChunksFromWellFormed(elements, [], opts);
    assert pc in pcs;
    assert WellFormedPreChunk(pc);
    if |pc.elements| >= 2 {
      CoherentFitsSoftMax(pc.elements, opts);
    }
  }

  /** A text pre-chunk that fits becomes exactly one chunk holding its whole
      rendered text, and every merged regex match, sliced out of that chunk's
      text, gives the text it matched. */
  lemma FittingTextChunk(es: seq<Element>, opts: Options)
    requires opts.hardMax > 0
    requires Render(es) != "" && |Render(es)| <= opts.hardMax
    requires forall i | 0 <= i < |es| :: ValidElementMatches(es[i])
    ensures var cs := PreChunkChunks(TextPreChunk(es), opts);
            && cs == [Element(CompositeElement, Render(es), Consolidate(es))]
            && forall k | k in cs[0].metadata.regexMetadata ::
                 ValidMatches(cs[0].metadata.regexMetadata[k], cs[0].text)
  {
    SplitProperties(Render(es), opts.hardMax);
    ConsolidatedRegexValid(es);
  }

  /** With combining switched off, every pre-chunk is rendered on its own. */
  lemma CombineZeroRendersPreChunks(elements: seq<Element>, opts: Options)
    requires opts.hardMax > 0 && opts.combineMax == 0
    ensures Chunks(elements, opts) == ChunksOf(PreChunks(elements, opts), opts)
  {
    var pcs := PreChunks(elements, opts);
    PreChunksFromWellFormed(elements, [], opts);
    CombineFromDisabled(pcs, [], opts);
    assert Close([]) + pcs == pcs;
    assert Combine(pcs, opts) == pcs;
  }

  /** Renders one pre-chunk: a fitting table as is, anything else through the splitter. */
  method RenderPreChunk(pc: PreChunk, opts: Options) returns (cs: seq<Element>)
    requires opts.hardMax > 0
    ensures cs == PreChunkChunks(pc, opts)
    ensures forall c | c in cs :: |c.text| <= opts.hardMax
  {
    PreChunkChunksBounded(pc, opts);
    if pc.TablePreChunk? {
      var t := pc.table;
      if |t.text| <= opts.hardMax {
        cs := [Element(Table, t.text, t.metadata)];
      } else {
        var pieces := SplitText(t.text, opts.hardMax);
        cs := Pieces(TableChunk, pieces, t.metadata);
      }
    } else {
      var pieces := SplitText(Render(pc.elements), opts.hardMax);
      cs := Pieces(CompositeElement, pieces, Consolidate(pc.elements));
    }
  }

  /** `chunk_by_title`: validate the options, pre-chunk, combine, then render
      every pre-chunk into chunks of at most the hard maximum. */
  method ChunkByTitle(elements: seq<Element>, args: ChunkingArgs) returns (r: Result<seq<Element>>)
    ensures New(args).Err? ==> r == Err(New(args).error)
    ensures New(args).Ok? ==> r == Ok(Chunks(elements, New(args).value))
    ensures r.Ok? ==> forall c | c in r.value :: |c.text| <= HardMax(args)
  {
    var made := New(args);
    if made.Err? {
      return Err(made.error);
    }
    var opts := made.value;
    var preChunks := IterPreChunks(elements, opts);
    var combined := CombinePreChunks(preChunks, opts);
    var chunks := RenderAll(combined, opts);
    r := Ok(chunks);
  }

  /** The final loop of `chunk_by_title`: each combined pre-chunk rendered
      into its chunks, in order, none above the hard maximum. */
  method RenderAll(combined: seq<PreChunk>, opts: Options) returns (chunks: seq<Element>)
    requires opts.hardMax > 0
    ensures chunks == ChunksOf(combined, opts)
    ensures forall c | c in chunks :: |c.text| <= opts.hardMax
  {
    chunks := [];
    for i := 0 to |combined|
      invariant chunks == ChunksOf(combined[..i], opts)
    {
      var cs := RenderPreChunk(combined[i], opts);
      assert combined[..i + 1][..i] == combined[..i];
      chunks := chunks + cs;
    }
    assert combined[..|combined|] == combined;
    ChunksOfBounded(combined, opts);
  }
}

/** Pre-chunking: one forward pass over the elements with one open
    accumulator, closing it at semantic boundaries and when the next element
    would not fit under the soft maximum. */
module PreChunking {
  import opened Wrappers
  import opened Elements
  import opened ChunkingOptions

  /** A text pre-chunk owns a run of non-table elements; a table pre-chunk owns one table. */
  datatype PreChunk = TextPreChunk(elements: seq<Element>) | TablePreChunk(table: Element)

  function ElementsOf(pc: PreChunk): seq<Element> {
    match pc
    case TextPreChunk(es) => es
    case TablePreChunk(t) => [t]
  }

  /** The elements of a pre-chunk sequence, in order. */
  function Flatten(pcs: seq<PreChunk>): seq<Element>
    decreases |pcs|
  {
    if pcs == [] then [] else ElementsOf(pcs[0]) + Flatten(pcs[1..])
  }

  lemma {:induction false} FlattenConcat(a: seq<PreChunk>, b: seq<PreChunk>)
    ensures Flatten(a + b) == Flatten(a) + Flatten(b)
    decreases |a|
  {
    if a == [] {
      assert a + b == b;
    } else {
      assert (a + b)[1..] == a[1..] + b;
      FlattenConcat(a[1..], b);
    }
  }

  predicate NoTables(es: seq<Element>) {
    forall e | e in es :: !IsTable(e)
  }

  /** The shape every pre-chunk has: a text pre-chunk is non-empty and holds no
      table, a table pre-chunk holds a table. */
  predicate WellFormedPreChunk(pc: PreChunk) {
    match pc
    case TextPreChunk(es) => es != [] && NoTables(es)
    case TablePreChunk(t) => IsTable(t)
  }

  predicate WellFormed(pcs: seq<PreChunk>) {
    forall pc | pc in pcs :: WellFormedPreChunk(pc)
  }

  /** `e` begins a new semantic unit relative to the open accumulator: it is a
      Title, it is in another section, or it is on another page while
      sections may not span pages. Regex metadata plays no part. */
  predicate StartsNewSemanticUnit(open: seq<Element>, e: Element, opts: Options)
    requires open != []
  {
    || e.kind == Title
    || e.metadata.section != open[0].metadata.section
    || (!opts.multipageSections && e.metadata.pageNumber != open[0].metadata.pageNumber)
  }

  /** The size test: the text so far, a separator and `e`'s text stay within the soft maximum. */
  predicate WillFit(open: seq<Element>, e: Element, opts: Options) {
    |Render(open)| + |Separator| + |e.text| <= opts.softMax
  }

  /** `e` joins the open accumulator rather than starting a new one. */
  predicate Continues(open: seq<Element>, e: Element, opts: Options)
    requires open != []
  {
    !StartsNewSemanticUnit(open, e, opts) && WillFit(open, e, opts)
  }

  /** Closing the accumulator emits it when it holds anything. */
  function Close(open: seq<Element>): seq<PreChunk> {
    if open == [] then [] else [TextPreChunk(open)]
  }

  /** The pre-chunks produced for the remaining elements `rest`, given the
      open accumulator `open`. */
  function PreChunksFrom(rest: seq<Element>, open: seq<Element>, opts: Options): seq<PreChunk>
    decreases |rest|
  {
    if rest == [] then Close(open)
    else
      var e := rest[0];
      if IsTable(e) then
        Close(open) + [TablePreChunk(e)] + PreChunksFrom(rest[1..], [], opts)
      else if open != [] && !Continues(open, e, opts) then
        [TextPreChunk(open)] + PreChunksFrom(rest[1..], [e], opts)
      else
        PreChunksFrom(rest[1..], open + [e], opts)
  }

  /** The pre-chunk sequence of a whole element sequence. */
  function PreChunks(elements: seq<Element>, opts: Options): seq<PreChunk> {
    PreChunksFrom(elements, [], opts)
  }

  /** Every element after the first joined its pre-chunk legitimately: no
      semantic boundary, and the size test passed at the time it was added. */
  predicate Coherent(es: seq<Element>, opts: Options) {
    forall k | 0 < k < |es| :: Continues(es[..k], es[k], opts)
  }

  predicate AllCoherent(pcs: seq<PreChunk>, opts: Options) {
    forall pc | pc in pcs && pc.TextPreChunk? :: Coherent(pc.elements, opts)
  }

  /** Two adjacent text pre-chunks are apart only because the second one's
      first element could not continue the first one. */
  predicate BreaksForced(pcs: seq<PreChunk>, opts: Options) {
    forall i | 0 <= i < |pcs| - 1 ::
      (pcs[i].TextPreChunk? && pcs[i + 1].TextPreChunk?
       && pcs[i].elements != [] && pcs[i + 1].elements != [])
      ==> !Continues(pcs[i].elements, pcs[i + 1].elements[0], opts)
  }

  /** Nothing is lost, duplicated or reordered: the pre-chunks hold exactly
      the accumulated elements followed by the remaining ones. */
  lemma {:induction false} PreChunksFromPreserveOrder(rest: seq<Element>, open: seq<Element>, opts: Options)
    ensures Flatten(PreChunksFrom(rest, open, opts)) == open + rest
    decreases |rest|
  {
    if rest == [] {
      assert Flatten(Close(open)) == open + rest by { FlattenClose(open); }
    } else {
      var e, tail := rest[0], rest[1..];
      assert rest == [e] + tail;
      assert open + rest == open + [e] + tail;
      PreChunksFromStep(e, tail, open, opts);
      if IsTable(e) {
        PreChunksFromPreserveOrder(tail, [], opts);
        FlattenConcat(Close(open) + [TablePreChunk(e)], PreChunksFrom(tail, [], opts));
        FlattenConcat(Close(open), [TablePreChunk(e)]);
        FlattenClose(open);
        FlattenSingle(TablePreChunk(e));
      } else if open != [] && !Continues(open, e, opts) {
        PreChunksFromPreserveOrder(tail, [e], opts);
        FlattenConcat([TextPreChunk(open)], PreChunksFrom(tail, [e], opts));
        FlattenSingle(TextPreChunk(open));
      } else {
        PreChunksFromPreserveOrder(tail, open + [e], opts);
      }
    }
  }

  lemma FlattenSingle(pc: PreChunk)
    ensures Flatten([pc]) == ElementsOf(pc)
  {
    assert [pc][1..] == [];
  }

  lemma FlattenClose(open: seq<Element>)
    ensures Flatten(Close(open)) == open
  {
    if open != [] {
      FlattenSingle(TextPreChunk(open));
    }
  }

  /** Tables are always alone and text pre-chunks never empty. */
  lemma {:induction false} PreChunksFromWellFormed(rest: seq<Element>, open: seq<Element>, opts: Options)
    requires NoTables(open)
    ensures WellFormed(PreChunksFrom(rest, open, opts))
    decreases |rest|
  {
    if rest != [] {
      var e := rest[0];
      if IsTable(e) {
        PreChunksFromWellFormed(rest[1..], [], opts);
      } else if open != [] && !Continues(open, e, opts) {
        PreChunksFromWellFormed(rest[1..], [e], opts);
      } else {
        PreChunksFromWellFormed(rest[1..], open + [e], opts);
      }
    }
  }

  /** No text pre-chunk spans a Title, a section change, a page change when
      sections may not span pages, or a failed size test. */
  lemma {:induction false} PreChunksFromCoherent(rest: seq<Element>, open: seq<Element>, opts: Options)
    requires Coherent(open, opts)
    ensures AllCoherent(PreChunksFrom(rest, open, opts), opts)
    decreases |rest|
  {
    if rest != [] {
      var e := rest[0];
      if IsTable(e) {
        PreChunksFromCoherent(rest[1..], [], opts);
      } else if open != [] && !Continues(open, e, opts) {
        PreChunksFromCoherent(rest[1..], [e], opts);
      } else {
        var grown := open + [e];
        forall k | 0 < k < |grown| ensures Continues(grown[..k], grown[k], opts) {
          assert grown[..k] == open[..k] || k == |open|;
          if k == |open| {
            assert grown[..k] == open;
          }
        }
        PreChunksFromCoherent(rest[1..], grown, opts);
      }
    }
  }

  /** The first pre-chunk produced from a non-empty accumulator is a text
      pre-chunk that starts with the accumulator's first element. */
  lemma {:induction false} PreChunksFromFirst(rest: seq<Element>, open: seq<Element>, opts: Options)
    requires open != []
    ensures PreChunksFrom(rest, open, opts) != []
    ensures PreChunksFrom(rest, open, opts)[0].TextPreChunk?
    ensures PreChunksFrom(rest, open, opts)[0].elements != []
    ensures PreChunksFrom(rest, open, opts)[0].elements[0] == open[0]
    decreases |rest|
  {
    if rest != [] {
      var e := rest[0];
      if !IsTable(e) && !(open != [] && !Continues(open, e, opts)) {
        PreChunksFromFirst(rest[1..], open + [e], opts);
      }
    }
  }

  lemma BreaksForcedConcat(a: seq<PreChunk>, b: seq<PreChunk>, opts: Options)
    requires BreaksForced(a, opts) && BreaksForced(b, opts)
    requires a != [] && b != [] && a[|a| - 1].TextPreChunk? && b[0].TextPreChunk?
             && a[|a| - 1].elements != [] && b[0].elements != []
             ==> !Continues(a[|a| - 1].elements, b[0].elements[0], opts)
    ensures BreaksForced(a + b, opts)
  {
    var ab := a + b;
    forall i | 0 <= i < |ab| - 1
      ensures (ab[i].TextPreChunk? && ab[i + 1].TextPreChunk?
               && ab[i].elements != [] && ab[i + 1].elements != [])
              ==> !Continues(ab[i].elements, ab[i + 1].elements[0], opts)
    {
      if i < |a| - 1 {
        assert ab[i] == a[i] && ab[i + 1] == a[i + 1];
      } else if i >= |a| {
        assert ab[i] == b[i - |a|] && ab[i + 1] == b[i - |a| + 1];
      }
    }
  }

  /** Every break between two text pre-chunks has a reason: a semantic
      boundary or a failed size test. With coherence this makes the grouping
      maximal. */
  lemma {:induction false} PreChunksFromBreaksForced(rest: seq<Element>, open: seq<Element>, opts: Options)
    ensures BreaksForced(PreChunksFrom(rest, open, opts), opts)
    decreases |rest|
  {
    if rest != [] {
      var e := rest[0];
      if IsTable(e) {
        PreChunksFromBreaksForced(rest[1..], [], opts);
        var tail := PreChunksFrom(rest[1..], [], opts);
        BreaksForcedConcat(Close(open), [TablePreChunk(e)], opts);
        BreaksForcedConcat(Close(open) + [TablePreChunk(e)], tail, opts);
      } else if open != [] && !Continues(open, e, opts) {
        PreChunksFromBreaksForced(rest[1..], [e], opts);
        PreChunksFromFirst(rest[1..], [e], opts);
        BreaksForcedConcat([TextPreChunk(open)], PreChunksFrom(rest[1..], [e], opts), opts);
      } else {
        PreChunksFromBreaksForced(rest[1..], open + [e], opts);
      }
    }
  }

  /** A pre-chunk of two or more elements passed the size test when its last
      element was added, so its text fits the soft maximum; only a lone
      element can be longer. */
  lemma CoherentFitsSoftMax(es: seq<Element>, opts: Options)
    requires Coherent(es, opts) && |es| >= 2
    ensures |Render(es)| <= opts.softMax
  {
    var k := |es| - 1;
    assert WillFit(es[..k], es[k], opts);
    assert Render(es) == JoinTwo(Render(es[..k]), es[k].text);
  }

  /** Pre-chunking looks only at kinds, texts, sections and pages: a run
      stays coherent whatever its emphasis and regex metadata. */
  lemma SameLayoutCoherent(a: seq<Element>, b: seq<Element>, opts: Options)
    requires SameLayout(a, b) && NoTables(a) && Coherent(a, opts)
    ensures NoTables(b) && Coherent(b, opts)
  {
    forall e | e in b ensures !IsTable(e) {
      var i :| 0 <= i < |b| && b[i] == e;
      assert a[i] in a;
    }
    forall k | 0 < k < |b| ensures Continues(b[..k], b[k], opts) {
      assert Continues(a[..k], a[k], opts);
      assert SameLayout(a[..k], b[..k]);
      SameLayoutRender(a[..k], b[..k]);
      assert a[..k][0] == a[0] && b[..k][0] == b[0];
    }
  }

  /** Within a pre-chunk there is no Title after the first element, every
      element shares the first one's section, and, when sections may not
      span pages, its page. */
  lemma CoherentIsUniform(es: seq<Element>, opts: Options, k: nat)
    requires Coherent(es, opts) && 0 < k < |es|
    ensures es[k].kind != Title
    ensures es[k].metadata.section == es[0].metadata.section
    ensures !opts.multipageSections ==> es[k].metadata.pageNumber == es[0].metadata.pageNumber
  {
    assert Continues(es[..k], es[k], opts);
    assert es[..k][0] == es[0];
  }

  /** The open accumulator takes in each of `xs` in turn: none is a table
      and each continues the accumulator grown by the ones before it. */
  predicate AcceptsAll(open: seq<Element>, xs: seq<Element>, opts: Options)
    requires open != []
    decreases |xs|
  {
    xs == [] || (!IsTable(xs[0]) && Continues(open, xs[0], opts) && AcceptsAll(open + [xs[0]], xs[1..], opts))
  }

  /** A coherent run without tables is accepted element by element by its own first part. */
  lemma {:induction false} CoherentAcceptsAll(run: seq<Element>, j: nat, opts: Options)
    requires 0 < j <= |run| && NoTables(run) && Coherent(run, opts)
    ensures AcceptsAll(run[..j], run[j..], opts)
    decreases |run| - j
  {
    if j < |run| {
      assert run[j] in run;
      assert Continues(run[..j], run[j], opts);
      assert run[..j] + [run[j]] == run[..j + 1];
      assert run[j..][1..] == run[j + 1..];
      CoherentAcceptsAll(run, j + 1, opts);
    }
  }

  /** An accumulator followed by the end of the input, a table or an element
      that cannot continue it is closed as one pre-chunk. */
  lemma RunClosedAtBoundary(run: seq<Element>, rest: seq<Element>, opts: Options)
    requires run != []
    requires rest == [] || IsTable(rest[0]) || !Continues(run, rest[0], opts)
    ensures PreChunksFrom(rest, run, opts) == [TextPreChunk(run)] + PreChunksFrom(rest, [], opts)
  {
    if rest != [] {
      var r := rest[0];
      assert rest == [r] + rest[1..];
      PreChunksFromStep(r, rest[1..], run, opts);
      PreChunksFromStep(r, rest[1..], [], opts);
      assert [] + [r] == [r];
    }
  }

  /** The converse of the boundary lemmas: elements the open accumulator
      accepts one by one, followed by the end of the input, a table or an
      element that cannot continue them, are emitted as exactly one pre-chunk. */
  lemma {:induction false} RunIsOnePreChunk(open: seq<Element>, xs: seq<Element>, rest: seq<Element>, opts: Options)
    requires open != [] && AcceptsAll(open, xs, opts)
    requires rest == [] || IsTable(rest[0]) || !Continues(open + xs, rest[0], opts)
    ensures PreChunksFrom(xs + rest, open, opts) == [TextPreChunk(open + xs)] + PreChunksFrom(rest, [], opts)
    decreases |xs|
  {
    if xs == [] {
      assert xs + rest == rest;
      assert open + xs == open;
      RunClosedAtBoundary(open, rest, opts);
    } else {
      var e := xs[0];
      assert xs + rest == [e] + (xs[1..] + rest);
      assert open + xs == (open + [e]) + xs[1..];
      PreChunksFromStep(e, xs[1..] + rest, open, opts);
      RunIsOnePreChunk(open + [e], xs[1..], rest, opts);
    }
  }

  /** So the pre-chunks of a coherent run followed by a boundary are that run
      as one pre-chunk, then the pre-chunks of what follows. */
  lemma CoherentRunThenRest(run: seq<Element>, rest: seq<Element>, opts: Options)
    requires run != [] && NoTables(run) && Coherent(run, opts)
    requires rest == [] || IsTable(rest[0]) || !Continues(run, rest[0], opts)
    ensures PreChunks(run + rest, opts) == [TextPreChunk(run)] + PreChunks(rest, opts)
  {
    assert !IsTable(run[0]) by { assert run[0] in run; }
    assert run + rest == [run[0]] + (run[1..] + rest);
    assert [] + [run[0]] == run[..1];
    assert run[..1] + run[1..] == run;
    PreChunksFromStep(run[0], run[1..] + rest, [], opts);
    CoherentAcceptsAll(run, 1, opts);
    RunIsOnePreChunk(run[..1], run[1..], rest, opts);
  }

  /** A table at the head of the input is a pre-chunk of its own. */
  lemma TableThenRest(t: Element, rest: seq<Element>, opts: Options)
    requires IsTable(t)
    ensures PreChunks([t] + rest, opts) == [TablePreChunk(t)] + PreChunks(rest, opts)
  {
    assert ([t] + rest)[1..] == rest;
  }

  /** One step of the pre-chunker, unfolded for an element at the head. */
  lemma PreChunksFromStep(e: Element, tail: seq<Element>, open: seq<Element>, opts: Options)
    ensures IsTable(e) ==>
      PreChunksFrom([e] + tail, open, opts) == Close(open) + [TablePreChunk(e)] + PreChunksFrom(tail, [], opts)
    ensures !IsTable(e) && open != [] && !Continues(open, e, opts) ==>
      PreChunksFrom([e] + tail, open, opts) == [TextPreChunk(open)] + PreChunksFrom(tail, [e], opts)
    ensures !IsTable(e) && (open == [] || Continues(open, e, opts)) ==>
      PreChunksFrom([e] + tail, open, opts) == PreChunksFrom(tail, open + [e], opts)
  {
    assert ([e] + tail)[0] == e;
    assert ([e] + tail)[1..] == tail;
  }

  /** What the pre-chunker promises about its whole output. */
  lemma PreChunksProperties(elements: seq<Element>, opts: Options)
    ensures Flatten(PreChunks(elements, opts)) == elements
    ensures WellFormed(PreChunks(elements, opts))
    ensures AllCoherent(PreChunks(elements, opts), opts)
    ensures BreaksForced(PreChunks(elements, opts), opts)
  {
    PreChunksFromPreserveOrder(elements, [], opts);
    PreChunksFromWellFormed(elements, [], opts);
    PreChunksFromCoherent(elements, [], opts);
    PreChunksFromBreaksForced(elements, [], opts);
  }

  /** The generator's handling of one element: what it emits and the
      accumulator it leaves open. */
  method PreChunkOne(e: Element, open: seq<Element>, opts: Options) returns (emitted: seq<PreChunk>, next: seq<Element>)
    ensures forall tail :: PreChunksFrom([e] + tail, open, opts) == emitted + PreChunksFrom(tail, next, opts)
  {
    if IsTable(e) {
      emitted, next := Close(open) + [TablePreChunk(e)], [];
    } else if open != [] && !Continues(open, e, opts) {
      emitted, next := [TextPreChunk(open)], [e];
    } else {
      emitted, next := [], open + [e];
    }
    forall tail ensures PreChunksFrom([e] + tail, open, opts) == emitted + PreChunksFrom(tail, next, opts) {
      PreChunksFromStep(e, tail, open, opts);
      assert [] + PreChunksFrom(tail, next, opts) == PreChunksFrom(tail, next, opts);
    }
  }

  /** The pre-chunker's one-shot generator, run to exhaustion: a loop
      with one open accumulator, flushed at boundaries and at the end. */
  method IterPreChunks(elements: seq<Element>, opts: Options) returns (preChunks: seq<PreChunk>)
    ensures preChunks == PreChunks(elements, opts)
    ensures Flatten(preChunks) == elements
    ensures WellFormed(preChunks)
    ensures AllCoherent(preChunks, opts)
    ensures BreaksForced(preChunks, opts)
  {
    preChunks := [];
    var open: seq<Element> := [];
    for i := 0 to |elements|
      invariant preChunks + PreChunksFrom(elements[i..], open, opts) == PreChunks(elements, opts)
    {
      assert elements[i..] == [elements[i]] + elements[i + 1..];
      var emitted, next := PreChunkOne(elements[i], open, opts);
      preChunks, open := preChunks + emitted, next;
    }
    assert elements[|elements|..] == [];
    preChunks := preChunks + Close(open);
    PreChunksProperties(elements, opts);
  }
}

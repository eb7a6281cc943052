/** Combining: a second forward pass that merges adjacent small text
    pre-chunks while their combined text stays within the combine maximum.
    Table pre-chunks are passed through and never merged. */
module Combining {
  import opened Elements
  import opened ChunkingOptions
  import opened PreChunking

  /** The size test for merging `next` into the open accumulator `acc`. */
  predicate CanCombine(acc: seq<Element>, next: seq<Element>, opts: Options) {
    |Render(acc)| + |Separator| + |Render(next)| <= opts.combineMax
  }

  /** The combined pre-chunks produced for `rest`, given the open accumulator `acc`. */
  function CombineFrom(rest: seq<PreChunk>, acc: seq<Element>, opts: Options): seq<PreChunk>
    decreases |rest|
  {
    if rest == [] then Close(acc)
    else
      match rest[0]
      case TablePreChunk(_) =>
        Close(acc) + [rest[0]] + CombineFrom(rest[1..], [], opts)
      case TextPreChunk(es) =>
        if acc != [] && CanCombine(acc, es, opts) then CombineFrom(rest[1..], acc + es, opts)
        else Close(acc) + CombineFrom(rest[1..], es, opts)
  }

  function Combine(pcs: seq<PreChunk>, opts: Options): seq<PreChunk> {
    CombineFrom(pcs, [], opts)
  }

  /** Closing the accumulator before more pre-chunks keeps its elements first. */
  lemma FlattenCloseThen(acc: seq<Element>, more: seq<PreChunk>)
    ensures Flatten(Close(acc) + more) == acc + Flatten(more)
  {
    FlattenConcat(Close(acc), more);
    FlattenClose(acc);
  }

  /** The same for a table emitted right after the accumulator. */
  lemma FlattenCloseTableThen(acc: seq<Element>, pc: PreChunk, more: seq<PreChunk>)
    ensures Flatten(Close(acc) + [pc] + more) == acc + (ElementsOf(pc) + Flatten(more))
  {
    assert Close(acc) + [pc] + more == Close(acc) + ([pc] + more);
    FlattenCloseThen(acc, [pc] + more);
    FlattenConcat([pc], more);
    FlattenSingle(pc);
  }

  /** One table step of the combining pass keeps the elements in order. */
  lemma PreservesOrderTableStep(pc: PreChunk, tail: seq<PreChunk>, acc: seq<Element>, opts: Options)
    requires pc.TablePreChunk?
    requires Flatten(CombineFrom(tail, [], opts)) == [] + Flatten(tail)
    ensures Flatten(CombineFrom([pc] + tail, acc, opts)) == acc + Flatten([pc] + tail)
  {
    CombineFromStep(pc, tail, acc, opts);
    FlattenCloseTableThen(acc, pc, CombineFrom(tail, [], opts));
    FlattenConcat([pc], tail);
    FlattenSingle(pc);
    assert [] + Flatten(tail) == Flatten(tail);
  }

  /** A text pre-chunk merged into the accumulator keeps the elements in order. */
  lemma PreservesOrderMergeStep(out: seq<PreChunk>, pc: PreChunk, tail: seq<PreChunk>, acc: seq<Element>)
    requires pc.TextPreChunk?
    requires Flatten(out) == acc + pc.elements + Flatten(tail)
    ensures Flatten(out) == acc + Flatten([pc] + tail)
  {
    FlattenConcat([pc], tail);
    FlattenSingle(pc);
    assert acc + pc.elements + Flatten(tail) == acc + (pc.elements + Flatten(tail));
  }

  /** A text pre-chunk that opens a new accumulator keeps the elements in order. */
  lemma PreservesOrderOpenStep(pc: PreChunk, tail: seq<PreChunk>, acc: seq<Element>, opts: Options)
    requires pc.TextPreChunk? && !(acc != [] && CanCombine(acc, pc.elements, opts))
    requires Flatten(CombineFrom(tail, pc.elements, opts)) == pc.elements + Flatten(tail)
    ensures Flatten(CombineFrom([pc] + tail, acc, opts)) == acc + Flatten([pc] + tail)
  {
    FlattenConcat([pc], tail);
    FlattenSingle(pc);
    CombineFromStep(pc, tail, acc, opts);
    FlattenCloseThen(acc, CombineFrom(tail, pc.elements, opts));
  }

  /** Combining never drops, duplicates or reorders an element. */
  lemma {:induction false} CombineFromPreservesOrder(rest: seq<PreChunk>, acc: seq<Element>, opts: Options)
    ensures Flatten(CombineFrom(rest, acc, opts)) == acc + Flatten(rest)
    decreases |rest|
  {
    if rest == [] {
      FlattenClose(acc);
      assert acc + [] == acc;
    } else {
      var pc, tail := rest[0], rest[1..];
      assert rest == [pc] + tail;
      if pc.TablePreChunk? {
        CombineFromPreservesOrder(tail, [], opts);
        PreservesOrderTableStep(pc, tail, acc, opts);
      } else {
        if acc != [] && CanCombine(acc, pc.elements, opts) {
          CombineFromStep(pc, tail, acc, opts);
          CombineFromPreservesOrder(tail, acc + pc.elements, opts);
          PreservesOrderMergeStep(CombineFrom(tail, acc + pc.elements, opts), pc, tail, acc);
        } else {
          CombineFromPreservesOrder(tail, pc.elements, opts);
          PreservesOrderOpenStep(pc, tail, acc, opts);
        }
      }
    }
  }

  /** Combining keeps tables alone: well-formed input gives well-formed output. */
  lemma {:induction false} CombineFromWellFormed(rest: seq<PreChunk>, acc: seq<Element>, opts: Options)
    requires WellFormed(rest) && NoTables(acc)
    ensures WellFormed(CombineFrom(rest, acc, opts))
    decreases |rest|
  {
    if rest != [] {
      assert rest[0] in rest;
      match rest[0]
      case TablePreChunk(_) =>
        CombineFromWellFormed(rest[1..], [], opts);
      case TextPreChunk(es) =>
        if acc != [] && CanCombine(acc, es, opts) {
          CombineFromWellFormed(rest[1..], acc + es, opts);
        } else {
          CombineFromWellFormed(rest[1..], es, opts);
        }
    }
  }

  /** A text pre-chunk coming out of the combiner is either one that came in
      unchanged or a merge whose text fits the combine maximum. */
  predicate FitsOrUnchanged(pc: PreChunk, input: seq<PreChunk>, opts: Options) {
    pc.TextPreChunk? ==> pc in input || |Render(pc.elements)| <= opts.combineMax
  }

  lemma {:induction false} CombineFromBounded(rest: seq<PreChunk>, acc: seq<Element>, input: seq<PreChunk>, opts: Options)
    requires forall pc | pc in rest :: pc in input
    requires acc == [] || TextPreChunk(acc) in input || |Render(acc)| <= opts.combineMax
    ensures forall pc | pc in CombineFrom(rest, acc, opts) :: FitsOrUnchanged(pc, input, opts)
    decreases |rest|
  {
    if rest != [] {
      assert rest[0] in rest;
      forall pc | pc in rest[1..] ensures pc in input {
        assert pc in rest;
      }
      match rest[0]
      case TablePreChunk(_) =>
        CombineFromBounded(rest[1..], [], input, opts);
      case TextPreChunk(es) =>
        if acc != [] && CanCombine(acc, es, opts) {
          RenderConcatLength(acc, es);
          CombineFromBounded(rest[1..], acc + es, input, opts);
        } else {
          CombineFromBounded(rest[1..], es, input, opts);
        }
    }
  }

  /** A combine maximum of 0 switches combining off: the pre-chunks come out as they went in. */
  lemma {:induction false} CombineFromDisabled(rest: seq<PreChunk>, acc: seq<Element>, opts: Options)
    requires opts.combineMax == 0 && WellFormed(rest)
    ensures CombineFrom(rest, acc, opts) == Close(acc) + rest
    decreases |rest|
  {
    if rest != [] {
      assert rest[0] in rest;
      assert rest == [rest[0]] + rest[1..];
      match rest[0]
      case TablePreChunk(_) =>
        CombineFromDisabled(rest[1..], [], opts);
      case TextPreChunk(es) =>
        CombineFromDisabled(rest[1..], es, opts);
    }
  }

  /** One step of the combining pass, as the loop takes it. */
  lemma CombineFromStep(pc: PreChunk, tail: seq<PreChunk>, acc: seq<Element>, opts: Options)
    ensures pc.TablePreChunk? ==>
      CombineFrom([pc] + tail, acc, opts) == Close(acc) + [pc] + CombineFrom(tail, [], opts)
    ensures pc.TextPreChunk? && acc != [] && CanCombine(acc, pc.elements, opts) ==>
      CombineFrom([pc] + tail, acc, opts) == CombineFrom(tail, acc + pc.elements, opts)
    ensures pc.TextPreChunk? && !(acc != [] && CanCombine(acc, pc.elements, opts)) ==>
      CombineFrom([pc] + tail, acc, opts) == Close(acc) + CombineFrom(tail, pc.elements, opts)
  {
    assert ([pc] + tail)[0] == pc && ([pc] + tail)[1..] == tail;
  }

  /** The accumulator `acc` takes in each of `pcs` in turn: each is a text
      pre-chunk whose text fits the combine maximum together with everything
      taken in before it. */
  predicate CombinesAll(acc: seq<Element>, pcs: seq<PreChunk>, opts: Options)
    decreases |pcs|
  {
    pcs == [] || (pcs[0].TextPreChunk? && CanCombine(acc, pcs[0].elements, opts)
                  && CombinesAll(acc + pcs[0].elements, pcs[1..], opts))
  }

  /** The open accumulator is emitted on its own when the end of input, a
      table or a pre-chunk it cannot take in comes next. */
  lemma AccClosedAtBoundary(acc: seq<Element>, rest: seq<PreChunk>, opts: Options)
    requires acc != []
    requires rest == [] || rest[0].TablePreChunk? || !CanCombine(acc, rest[0].elements, opts)
    ensures CombineFrom(rest, acc, opts) == [TextPreChunk(acc)] + CombineFrom(rest, [], opts)
  {
    if rest != [] {
      assert rest == [rest[0]] + rest[1..];
      CombineFromStep(rest[0], rest[1..], acc, opts);
      CombineFromStep(rest[0], rest[1..], [], opts);
    }
  }

  /** Merging does happen: a run of text pre-chunks that the accumulator can
      take in one after another, followed by a boundary, comes out as one
      merged pre-chunk. */
  lemma {:induction false} CombinedRunIsOne(acc: seq<Element>, pcs: seq<PreChunk>, rest: seq<PreChunk>, opts: Options)
    requires acc != [] && CombinesAll(acc, pcs, opts)
    requires rest == [] || rest[0].TablePreChunk? || !CanCombine(acc + Flatten(pcs), rest[0].elements, opts)
    ensures CombineFrom(pcs + rest, acc, opts) == [TextPreChunk(acc + Flatten(pcs))] + CombineFrom(rest, [], opts)
    decreases |pcs|
  {
    if pcs == [] {
      assert pcs + rest == rest;
      assert acc + Flatten(pcs) == acc;
      AccClosedAtBoundary(acc, rest, opts);
    } else {
      var es := pcs[0].elements;
      assert pcs + rest == [pcs[0]] + (pcs[1..] + rest);
      assert acc + Flatten(pcs) == (acc + es) + Flatten(pcs[1..]);
      CombineFromStep(pcs[0], pcs[1..] + rest, acc, opts);
      CombinedRunIsOne(acc + es, pcs[1..], rest, opts);
    }
  }

  /** Two adjacent text pre-chunks of the output were kept apart because an
      input text pre-chunk that opens the second could not join the first. */
  predicate MergeRefused(left: seq<Element>, right: seq<Element>, input: seq<PreChunk>, opts: Options) {
    exists q | q in input && q.TextPreChunk? :: q.elements <= right && !CanCombine(left, q.elements, opts)
  }

  /** Combining is maximal: every break between two text pre-chunks of the
      output was forced by the combine maximum. */
  predicate CombineBreaksForced(out: seq<PreChunk>, input: seq<PreChunk>, opts: Options) {
    forall i | 0 <= i < |out| - 1 ::
      out[i].TextPreChunk? && out[i + 1].TextPreChunk? ==> MergeRefused(out[i].elements, out[i + 1].elements, input, opts)
  }

  /** A non-empty accumulator opens the output, as a text pre-chunk starting with it. */
  lemma {:induction false} CombineFromFirst(rest: seq<PreChunk>, acc: seq<Element>, opts: Options)
    requires acc != []
    ensures CombineFrom(rest, acc, opts) != []
    ensures CombineFrom(rest, acc, opts)[0].TextPreChunk?
    ensures acc <= CombineFrom(rest, acc, opts)[0].elements
    decreases |rest|
  {
    if rest != [] {
      assert rest == [rest[0]] + rest[1..];
      CombineFromStep(rest[0], rest[1..], acc, opts);
      if rest[0].TextPreChunk? && CanCombine(acc, rest[0].elements, opts) {
        CombineFromFirst(rest[1..], acc + rest[0].elements, opts);
      }
    }
  }

  lemma CombineBreaksForcedConcat(a: seq<PreChunk>, b: seq<PreChunk>, input: seq<PreChunk>, opts: Options)
    requires CombineBreaksForced(a, input, opts) && CombineBreaksForced(b, input, opts)
    requires a != [] && b != [] && a[|a| - 1].TextPreChunk? && b[0].TextPreChunk? ==>
      MergeRefused(a[|a| - 1].elements, b[0].elements, input, opts)
    ensures CombineBreaksForced(a + b, input, opts)
  {
    var ab := a + b;
    forall i | 0 <= i < |ab| - 1 && ab[i].TextPreChunk? && ab[i + 1].TextPreChunk?
      ensures MergeRefused(ab[i].elements, ab[i + 1].elements, input, opts)
    {
      if i + 1 < |a| {
        assert ab[i] == a[i] && ab[i + 1] == a[i + 1];
      } else if i >= |a| {
        assert ab[i] == b[i - |a|] && ab[i + 1] == b[i - |a| + 1];
      } else {
        assert ab[i] == a[|a| - 1] && ab[i + 1] == b[0];
      }
    }
  }

  /** Every break the combiner leaves between two text pre-chunks is forced. */
  lemma {:induction false} CombineFromBreaksForced(rest: seq<PreChunk>, acc: seq<Element>, input: seq<PreChunk>, opts: Options)
    requires WellFormed(rest) && forall pc | pc in rest :: pc in input
    ensures CombineBreaksForced(CombineFrom(rest, acc, opts), input, opts)
    decreases |rest|
  {
    if rest != [] {
      var pc, tail := rest[0], rest[1..];
      assert rest == [pc] + tail;
      assert pc in rest;
      forall q | q in tail ensures q in input && WellFormedPreChunk(q) { assert q in rest; }
      CombineFromStep(pc, tail, acc, opts);
      match pc
      case TablePreChunk(_) =>
        CombineFromBreaksForced(tail, [], input, opts);
        CombineBreaksForcedConcat(Close(acc) + [pc], CombineFrom(tail, [], opts), input, opts);
      case TextPreChunk(es) =>
        if acc != [] && CanCombine(acc, es, opts) {
          CombineFromBreaksForced(tail, acc + es, input, opts);
        } else {
          var b := CombineFrom(tail, es, opts);
          CombineFromBreaksForced(tail, es, input, opts);
          CombineFromFirst(tail, es, opts);
          if acc != [] {
            assert MergeRefused(acc, b[0].elements, input, opts) by {
              assert pc in input && es <= b[0].elements && !CanCombine(acc, es, opts);
            }
          }
          CombineBreaksForcedConcat(Close(acc), b, input, opts);
        }
    }
  }

  /** What combining promises about the whole pre-chunk sequence. */
  lemma CombineProperties(preChunks: seq<PreChunk>, opts: Options)
    ensures Flatten(Combine(preChunks, opts)) == Flatten(preChunks)
    ensures WellFormed(preChunks) ==> WellFormed(Combine(preChunks, opts))
    ensures forall pc | pc in Combine(preChunks, opts) :: FitsOrUnchanged(pc, preChunks, opts)
    ensures opts.combineMax == 0 && WellFormed(preChunks) ==> Combine(preChunks, opts) == preChunks
    ensures WellFormed(preChunks) ==> CombineBreaksForced(Combine(preChunks, opts), preChunks, opts)
  {
    CombineFromPreservesOrder(preChunks, [], opts);
    assert [] + Flatten(preChunks) == Flatten(preChunks);
    if WellFormed(preChunks) {
      CombineFromWellFormed(preChunks, [], opts);
      CombineFromBreaksForced(preChunks, [], preChunks, opts);
    }
    CombineFromBounded(preChunks, [], preChunks, opts);
    if opts.combineMax == 0 && WellFormed(preChunks) {
      CombineFromDisabled(preChunks, [], opts);
      assert Close([]) + preChunks == preChunks;
    }
  }

  /** One pre-chunk of the combining pass: a table flushes the accumulator and
      is emitted; a text pre-chunk joins the accumulator when both fit the
      combine maximum together, otherwise the accumulator is flushed and the
      pre-chunk starts a new one. */
  method CombineOne(pc: PreChunk, acc: seq<Element>, opts: Options) returns (emitted: seq<PreChunk>, next: seq<Element>)
    ensures forall tail :: CombineFrom([pc] + tail, acc, opts) == emitted + CombineFrom(tail, next, opts)
  {
    if pc.TablePreChunk? {
      emitted, next := Close(acc) + [pc], [];
    } else if acc != [] && CanCombine(acc, pc.elements, opts) {
      emitted, next := [], acc + pc.elements;
    } else {
      emitted, next := Close(acc), pc.elements;
    }
    forall tail ensures CombineFrom([pc] + tail, acc, opts) == emitted + CombineFrom(tail, next, opts) {
      CombineFromStep(pc, tail, acc, opts);
      assert [] + CombineFrom(tail, next, opts) == CombineFrom(tail, next, opts);
    }
  }

  /** The combining pass: one accumulator, flushed before a table,
      before a pre-chunk that would not fit, and at the end. */
  method CombinePreChunks(preChunks: seq<PreChunk>, opts: Options) returns (combined: seq<PreChunk>)
    ensures combined == Combine(preChunks, opts)
    ensures Flatten(combined) == Flatten(preChunks)
    ensures WellFormed(preChunks) ==> WellFormed(combined)
    ensures forall pc | pc in combined :: FitsOrUnchanged(pc, preChunks, opts)
    ensures opts.combineMax == 0 && WellFormed(preChunks) ==> combined == preChunks
    ensures WellFormed(preChunks) ==> CombineBreaksForced(combined, preChunks, opts)
  {
    combined := [];
    var acc: seq<Element> := [];
    for i := 0 to |preChunks|
      invariant combined + CombineFrom(preChunks[i..], acc, opts) == Combine(preChunks, opts)
    {
      assert preChunks[i..] == [preChunks[i]] + preChunks[i + 1..];
      var emitted, next := CombineOne(preChunks[i], acc, opts);
      combined, acc := combined + emitted, next;
    }
    assert preChunks[|preChunks|..] == [];
    combined := combined + Close(acc);
    CombineProperties(preChunks, opts);
  }
}

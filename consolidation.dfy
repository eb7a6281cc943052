/** Metadata consolidation: the metadata of a chunk built from several
    elements. Emphasis lists are concatenated, regex matches are united per
    pattern with their offsets moved to the chunk text, page and section are
    kept only when all elements agree, and position-specific fields are
    dropped. */
module Consolidation {
  import opened Wrappers
  import opened Elements

  /** The matches `e` has for pattern `key`. */
  function OwnMatches(e: Element, key: string): seq<RegexMatch> {
    if key in e.metadata.regexMetadata then e.metadata.regexMetadata[key] else []
  }

  /** `ms` moved `offset` characters to the right. */
  function Shift(ms: seq<RegexMatch>, offset: int): seq<RegexMatch> {
    seq(|ms|, j requires 0 <= j < |ms| => RegexMatch(ms[j].text, ms[j].start + offset, ms[j].end + offset))
  }

  /** The matches for `key` of all elements, in element order, each moved to
      where its element's text lies in `Render(es)`. */
  function MatchesFor(es: seq<Element>, key: string): seq<RegexMatch>
    decreases |es|
  {
    if es == [] then []
    else
      var n := |es| - 1;
      MatchesFor(es[..n], key) + Shift(OwnMatches(es[n], key), Offset(es, n))
  }

  /** The pattern names used by any of the elements. */
  function RegexKeys(es: seq<Element>): set<string>
    decreases |es|
  {
    if es == [] then {} else RegexKeys(es[..|es| - 1]) + es[|es| - 1].metadata.regexMetadata.Keys
  }

  function ConsolidatedRegex(es: seq<Element>): map<string, seq<RegexMatch>> {
    map k | k in RegexKeys(es) :: MatchesFor(es, k)
  }

  /** The emphasis lists of all elements, concatenated in element order. */
  function EmphasizedOf(es: seq<Element>): seq<string>
    decreases |es|
  {
    if es == [] then [] else EmphasizedOf(es[..|es| - 1]) + es[|es| - 1].metadata.emphasizedTextContents
  }

  /** A page number is kept only when every element has the same one. */
  function UniformPage(es: seq<Element>): Option<int> {
    if |es| > 0 && forall i | 0 <= i < |es| :: es[i].metadata.pageNumber == es[0].metadata.pageNumber
    then es[0].metadata.pageNumber else None
  }

  /** A section is kept only when every element has the same one. */
  function UniformSection(es: seq<Element>): Option<string> {
    if |es| > 0 && forall i | 0 <= i < |es| :: es[i].metadata.section == es[0].metadata.section
    then es[0].metadata.section else None
  }

  /** The merge policy, field by field. */
  function Consolidate(es: seq<Element>): (md: Metadata)
    ensures md.detectionClassProb.None? && md.coordinates.None?
  {
    Metadata(
      UniformPage(es),
      UniformSection(es),
      EmphasizedOf(es),
      ConsolidatedRegex(es),
      None,
      None)
  }

  /** Elements without metadata merge into no metadata. */
  lemma {:induction false} ConsolidatePlain(es: seq<Element>)
    requires forall i | 0 <= i < |es| :: es[i].metadata == NoMetadata
    ensures Consolidate(es) == NoMetadata
    decreases |es|
  {
    if es != [] {
      var n := |es| - 1;
      assert forall i | 0 <= i < n :: es[..n][i] == es[i];
      ConsolidatePlain(es[..n]);
      assert EmphasizedOf(es) == [];
      assert RegexKeys(es) == {};
      assert ConsolidatedRegex(es) == map[];
    }
  }

  /** Every match of `ms` lies inside `text` and slicing `text` at it gives its matched text. */
  predicate ValidMatches(ms: seq<RegexMatch>, text: string) {
    forall m | m in ms :: 0 <= m.start <= m.end <= |text| && text[m.start..m.end] == m.text
  }

  /** The regex metadata of an element describes its own text. */
  predicate ValidElementMatches(e: Element) {
    forall k | k in e.metadata.regexMetadata :: ValidMatches(e.metadata.regexMetadata[k], e.text)
  }

  /** A pattern is in the merged regex metadata exactly when some element has it. */
  lemma {:induction false} RegexKeysUnion(es: seq<Element>, k: string)
    ensures k in ConsolidatedRegex(es) <==> exists i | 0 <= i < |es| :: k in es[i].metadata.regexMetadata
    decreases |es|
  {
    if es != [] {
      var n := |es| - 1;
      RegexKeysUnion(es[..n], k);
      if exists i | 0 <= i < |es| :: k in es[i].metadata.regexMetadata {
        var i :| 0 <= i < |es| && k in es[i].metadata.regexMetadata;
        if i < n {
          assert es[..n][i] == es[i];
        }
      }
      if exists i | 0 <= i < n :: k in es[..n][i].metadata.regexMetadata {
        var i :| 0 <= i < n && k in es[..n][i].metadata.regexMetadata;
        assert es[i] == es[..n][i];
      }
    }
  }

  /** Emphasis lists of two groups merge as the concatenation of each group's list. */
  lemma {:induction false} EmphasizedConcat(a: seq<Element>, b: seq<Element>)
    ensures EmphasizedOf(a + b) == EmphasizedOf(a) + EmphasizedOf(b)
    decreases |b|
  {
    if b == [] {
      assert a + b == a;
    } else {
      var n := |b| - 1;
      assert (a + b)[..|a + b| - 1] == a + b[..n];
      assert (a + b)[|a + b| - 1] == b[n];
      EmphasizedConcat(a, b[..n]);
    }
  }

  lemma ValidMatchesExtend(ms: seq<RegexMatch>, text: string, longer: string)
    requires ValidMatches(ms, text)
    requires |text| <= |longer| && longer[..|text|] == text
    ensures ValidMatches(ms, longer)
  {
    forall m | m in ms ensures 0 <= m.start <= m.end <= |longer| && longer[m.start..m.end] == m.text {
      assert longer[m.start..m.end] == longer[..|text|][m.start..m.end];
    }
  }

  lemma ShiftValid(ms: seq<RegexMatch>, t: string, r: string, offset: nat)
    requires ValidMatches(ms, t)
    requires offset + |t| == |r| && r[offset..] == t
    ensures ValidMatches(Shift(ms, offset), r)
  {
    var shifted := Shift(ms, offset);
    forall m | m in shifted
      ensures 0 <= m.start <= m.end <= |r| && r[m.start..m.end] == m.text
    {
      var j :| 0 <= j < |shifted| && shifted[j] == m;
      assert ms[j] in ms;
      assert r[m.start..m.end] == r[offset..][ms[j].start..ms[j].end];
    }
  }

  /** Offset correctness: every merged match, sliced out of the rendered
      chunk text, gives back the text it matched in its own element. */
  lemma {:induction false} MatchesForValid(es: seq<Element>, key: string)
    requires forall i | 0 <= i < |es| :: ValidElementMatches(es[i])
    ensures ValidMatches(MatchesFor(es, key), Render(es))
    decreases |es|
  {
    if es != [] {
      var n := |es| - 1;
      forall i | 0 <= i < n ensures ValidElementMatches(es[..n][i]) {
        assert es[..n][i] == es[i];
      }
      MatchesForValid(es[..n], key);
      assert es[..n + 1] == es;
      RenderPrefix(es, n, n + 1);
      ValidMatchesExtend(MatchesFor(es[..n], key), Render(es[..n]), Render(es));
      RenderStep(es, n);
      assert ValidMatches(OwnMatches(es[n], key), es[n].text);
      ShiftValid(OwnMatches(es[n], key), es[n].text, Render(es), Offset(es, n));
    }
  }

  /** The slice round trip for the whole merged regex metadata. */
  lemma ConsolidatedRegexValid(es: seq<Element>)
    requires forall i | 0 <= i < |es| :: ValidElementMatches(es[i])
    ensures forall k | k in ConsolidatedRegex(es) :: ValidMatches(ConsolidatedRegex(es)[k], Render(es))
  {
    forall k | k in ConsolidatedRegex(es) ensures ValidMatches(ConsolidatedRegex(es)[k], Render(es)) {
      MatchesForValid(es, k);
    }
  }

  /** The merged matches of a prefix of the elements come first, unchanged. */
  lemma {:induction false} MatchesForPrefix(es: seq<Element>, j: nat, key: string)
    requires j <= |es|
    ensures |MatchesFor(es[..j], key)| <= |MatchesFor(es, key)|
    ensures MatchesFor(es, key)[..|MatchesFor(es[..j], key)|] == MatchesFor(es[..j], key)
    decreases |es| - j
  {
    if j < |es| {
      MatchesForPrefix(es, j + 1, key);
      assert es[..j + 1][..j] == es[..j];
      assert es[..j + 1][j] == es[j];
      assert MatchesFor(es[..j + 1], key)
          == MatchesFor(es[..j], key) + Shift(OwnMatches(es[j], key), Offset(es[..j + 1], j));
    } else {
      assert es[..j] == es;
    }
  }

  lemma OffsetOfPrefix(es: seq<Element>, j: nat)
    requires j < |es|
    ensures Offset(es[..j + 1], j) == Offset(es, j)
  {
    assert es[..j + 1][..j] == es[..j];
  }

  /** The offset rule: the matches of a non-empty element `es[i]` sit in the
      merged list right after those of the elements before it, each moved
      right by the length of the preceding texts plus one separator per
      preceding non-empty text. */
  lemma MatchesForPlacement(es: seq<Element>, i: nat, key: string)
    requires i < |es| && es[i].text != ""
    ensures var before := |MatchesFor(es[..i], key)|;
            var own := OwnMatches(es[i], key);
            before + |own| <= |MatchesFor(es, key)|
            && MatchesFor(es, key)[before..before + |own|] == Shift(own, SpanBefore(es[..i]))
  {
    MatchesForPrefix(es, i + 1, key);
    OffsetOfPrefix(es, i);
    assert es[..i + 1][..i] == es[..i];
    assert es[..i + 1][i] == es[i];
    OffsetIsSpanBefore(es, i);
    var whole := MatchesFor(es, key);
    var upto := MatchesFor(es[..i + 1], key);
    assert upto == MatchesFor(es[..i], key) + Shift(OwnMatches(es[i], key), Offset(es, i));
    assert whole[..|upto|] == upto;
  }
}

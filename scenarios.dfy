/** The behaviour the test suite asserts, stated on the model's specification
    functions for the same inputs. */
module Scenarios {
  import opened Wrappers
  import opened Elements
  import opened ChunkingOptions
  import opened PreChunking
  import opened Combining
  import opened Consolidation
  import opened ByTitle

  function El(kind: Kind, text: string): Element {
    Element(kind, text, NoMetadata)
  }

  const Defaults: Options := Options(500, 500, 500, true, true)

  const GreatDay: seq<Element> :=
    [El(Title, "A Great Day"), El(Text, "Today is a great day."), El(Text, "It is sunny outside.")]
  const HeadingTable: Element := El(Table, "Heading\nCell text")
  const OkayDay: seq<Element> :=
    [El(Title, "An Okay Day"), El(Text, "Today is an okay day."), El(Text, "It is rainy outside.")]
  const BadDay: seq<Element> :=
    [El(Title, "A Bad Day"), El(Text, "Today is a bad day."), El(Text, "It is storming outside."),
     El(CheckBox, "")]

  lemma GreatDayCoherent(opts: Options)
    requires opts.softMax == 500
    ensures NoTables(GreatDay) && Coherent(GreatDay, opts)
  {
    assert GreatDay[..2][..1] == GreatDay[..1] == [GreatDay[0]];
    RenderSingle(GreatDay[0]);
    RenderStep(GreatDay, 1);
    assert |Render(GreatDay[..2])| == 34;
  }

  lemma OkayDayCoherent(opts: Options)
    requires opts.softMax == 500
    ensures NoTables(OkayDay) && Coherent(OkayDay, opts)
  {
    assert OkayDay[..2][..1] == OkayDay[..1] == [OkayDay[0]];
    RenderSingle(OkayDay[0]);
    RenderStep(OkayDay, 1);
    assert |Render(OkayDay[..2])| == 34;
  }

  lemma BadDayCoherent(opts: Options)
    requires opts.softMax == 500
    ensures NoTables(BadDay) && Coherent(BadDay, opts)
  {
    assert BadDay[..3][..2] == BadDay[..2] && BadDay[..2][..1] == BadDay[..1] == [BadDay[0]];
    RenderSingle(BadDay[0]);
    RenderStep(BadDay, 1);
    RenderStep(BadDay, 2);
    assert |Render(BadDay[..2])| == 30;
    assert |Render(BadDay[..3])| == 55;
  }

  /** The texts of three elements rendered as one chunk. */
  lemma RenderThree(es: seq<Element>)
    requires |es| == 3 && es[0].text != "" && es[1].text != "" && es[2].text != ""
    ensures Render(es) == es[0].text + Separator + es[1].text + Separator + es[2].text
  {
    assert es[..1] == [es[0]];
    RenderSingle(es[0]);
    assert es[..2][..1] == es[..1] && es[..2][1] == es[1];
    assert Render(es[..2]) == JoinTwo(es[0].text, es[1].text);
    assert es[..|es| - 1] == es[..2];
    assert Render(es) == JoinTwo(Render(es[..2]), es[2].text);
  }

  /** The eleven elements of the by-title examples, whatever emphasis or
      regex metadata the Great Day and Bad Day runs carry: titles and tables
      break pre-chunks, and a text-less CheckBox joins the open one. */
  lemma ElevenElementsPreChunks(gd: seq<Element>, bd: seq<Element>, opts: Options)
    requires SameLayout(GreatDay, gd) && SameLayout(BadDay, bd) && opts.softMax == 500
    ensures PreChunks(gd + [HeadingTable] + OkayDay + bd, opts)
         == [TextPreChunk(gd), TablePreChunk(HeadingTable), TextPreChunk(OkayDay), TextPreChunk(bd)]
  {
    GreatDayCoherent(opts);
    OkayDayCoherent(opts);
    BadDayCoherent(opts);
    SameLayoutCoherent(GreatDay, gd, opts);
    SameLayoutCoherent(BadDay, bd, opts);
    assert bd[0].kind == Title;
    CoherentRunThenRest(bd, [], opts);
    assert bd + [] == bd;
    CoherentRunThenRest(OkayDay, bd, opts);
    TableThenRest(HeadingTable, OkayDay + bd, opts);
    CoherentRunThenRest(gd, [HeadingTable] + (OkayDay + bd), opts);
    assert gd + [HeadingTable] + OkayDay + bd == gd + ([HeadingTable] + (OkayDay + bd));
  }

  /** Titles and tables break pre-chunks; a text-less CheckBox joins the open one. */
  lemma PreChunksSplitByTitleAndTable()
    ensures New(NoArgs) == Ok(Defaults)
    ensures PreChunks(GreatDay + [HeadingTable] + OkayDay + BadDay, Defaults)
         == [TextPreChunk(GreatDay), TablePreChunk(HeadingTable), TextPreChunk(OkayDay), TextPreChunk(BadDay)]
  {
    ElevenElementsPreChunks(GreatDay, BadDay, Defaults);
  }

  const Priorities: seq<Element> :=
    [El(Title, "Chunking Priorities"), El(ListItem, "Divide text into manageable chunks"),
     El(ListItem, "Preserve semantic boundaries")]
  const LastPriority: Element := El(ListItem, "Minimize mid-text chunk-splitting")

  lemma PrioritiesCoherent()
    ensures NoTables(Priorities) && Coherent(Priorities, Options(115, 115, 115, true, true))
    ensures |Render(Priorities)| == 85
  {
    assert Priorities[..3] == Priorities;
    assert Priorities[..2][..1] == Priorities[..1];
    assert |Render(Priorities[..1])| == 19;
    assert |Render(Priorities[..2])| == 55;
  }

  /** Separators count toward the size: 114 characters of text need 120 once joined,
      so the fourth item does not fit under 115 and is not combined back either. */
  lemma SeparatorsCountTowardSize()
    ensures New(NoArgs.(maxCharacters := Some(115))) == Ok(Options(115, 115, 115, true, true))
    ensures PreChunks(Priorities + [LastPriority], Options(115, 115, 115, true, true))
         == [TextPreChunk(Priorities), TextPreChunk([LastPriority])]
    ensures Combine([TextPreChunk(Priorities), TextPreChunk([LastPriority])], Options(115, 115, 115, true, true))
         == [TextPreChunk(Priorities), TextPreChunk([LastPriority])]
  {
    var opts := Options(115, 115, 115, true, true);
    PrioritiesCoherent();
    CoherentRunThenRest(Priorities, [LastPriority], opts);
    assert [LastPriority][..1] == [LastPriority];
    assert Coherent([LastPriority], opts);
    CoherentRunThenRest([LastPriority], [], opts);
    assert [LastPriority] + [] == [LastPriority];
    var pcs := [TextPreChunk(Priorities), TextPreChunk([LastPriority])];
    assert Render([LastPriority]) == LastPriority.text by {
      assert [LastPriority][..0] == [];
    }
    assert !CanCombine(Priorities, [LastPriority], opts);
    assert pcs[1..][1..] == [];
    assert CombineFrom(pcs[1..], Priorities, opts) == [TextPreChunk(Priorities)] + CombineFrom([], [LastPriority], opts);
  }
  function InSection(kind: Kind, text: string, section: string): Element {
    Element(kind, text, NoMetadata.(section := Some(section)))
  }

  function OnPage(kind: Kind, text: string, page: int): Element {
    Element(kind, text, NoMetadata.(pageNumber := Some(page)))
  }

  /** A change of section closes the open pre-chunk even right after a title. */
  lemma SectionChangeBreaks()
    ensures var title := InSection(Title, "A Great Day", "first");
            var body := [InSection(Text, "Today is a great day.", "second"),
                         InSection(Text, "It is sunny outside.", "second")];
            PreChunks([title] + body, Defaults) == [TextPreChunk([title]), TextPreChunk(body)]
  {
    var title := InSection(Title, "A Great Day", "first");
    var body := [InSection(Text, "Today is a great day.", "second"),
                 InSection(Text, "It is sunny outside.", "second")];
    assert [title][..1] == [title] && Coherent([title], Defaults);
    CoherentRunThenRest([title], body, Defaults);
    assert body[..1] == [body[0]];
    RenderSingle(body[0]);
    assert Coherent(body, Defaults);
    CoherentRunThenRest(body, [], Defaults);
    assert body + [] == body;
  }

  const PagedTitle: Element := OnPage(Title, "A Great Day", 1)
  const PagedBody: seq<Element> :=
    [OnPage(Text, "Today is a great day.", 2), OnPage(Text, "It is sunny outside.", 2)]

  /** A change of page number closes the open pre-chunk when sections may not span pages. */
  lemma PageChangeBreaks()
    ensures PreChunks([PagedTitle] + PagedBody, Defaults.(multipageSections := false))
         == [TextPreChunk([PagedTitle]), TextPreChunk(PagedBody)]
  {
    var single := Defaults.(multipageSections := false);
    assert [PagedTitle][..1] == [PagedTitle] && Coherent([PagedTitle], single);
    CoherentRunThenRest([PagedTitle], PagedBody, single);
    assert PagedBody[..1] == [PagedBody[0]];
    RenderSingle(PagedBody[0]);
    assert Coherent(PagedBody, single);
    CoherentRunThenRest(PagedBody, [], single);
    assert PagedBody + [] == PagedBody;
  }

  /** The same input stays one pre-chunk when sections may span pages. */
  lemma PageChangeKeptWhenMultipage()
    ensures PreChunks([PagedTitle] + PagedBody, Defaults) == [TextPreChunk([PagedTitle] + PagedBody)]
  {
    var all := [PagedTitle] + PagedBody;
    assert all[..2][..1] == all[..1] == [PagedTitle];
    RenderSingle(PagedTitle);
    RenderStep(all, 1);
    assert |Render(all[..2])| == 34;
    assert Coherent(all, Defaults);
    CoherentRunThenRest(all, [], Defaults);
    assert all + [] == all;
  }
}

module RegexScenarios {
  import opened Wrappers
  import opened Elements
  import opened ChunkingOptions
  import opened PreChunking
  import opened Consolidation
  import opened ByTitle
  import opened Scenarios

  function WithRegex(kind: Kind, text: string, rm: map<string, seq<RegexMatch>>): Element {
    Element(kind, text, NoMetadata.(regexMetadata := rm))
  }

  const LoremTitle: string := "Lorem Ipsum"
  const LoremFirst: string := "Lorem ipsum dolor sit amet consectetur adipiscing elit."
  const LoremSecond: string := "In rhoncus ipsum sed lectus porta volutpat."

  /** The three elements whose regex matches are merged and moved. */
  const Lorem: seq<Element> := [
    WithRegex(Title, "Lorem Ipsum", map["ipsum" := [RegexMatch("Ipsum", 6, 11)]]),
    WithRegex(Text, "Lorem ipsum dolor sit amet consectetur adipiscing elit.",
      map["dolor" := [RegexMatch("dolor", 12, 17)], "ipsum" := [RegexMatch("ipsum", 6, 11)]]),
    WithRegex(Text, "In rhoncus ipsum sed lectus porta volutpat.", map["ipsum" := [RegexMatch("ipsum", 11, 16)]])
  ]

  /** The same texts with other regex metadata: no "ipsum" match in the second element. */
  const LoremNoBreak: seq<Element> := [
    WithRegex(Title, "Lorem Ipsum", map["ipsum" := [RegexMatch("Ipsum", 6, 11)]]),
    WithRegex(Text, "Lorem ipsum dolor sit amet consectetur adipiscing elit.", map["dolor" := [RegexMatch("dolor", 12, 17)]]),
    WithRegex(Text, "In rhoncus ipsum sed lectus porta volutpat.", map["ipsum" := [RegexMatch("ipsum", 11, 16)]])
  ]

  /** Each element's matches are moved by where its text starts in the chunk text. */
  lemma LoremOffsets()
    ensures MatchesFor(Lorem, "ipsum")
         == [RegexMatch("Ipsum", 6, 11), RegexMatch("ipsum", 19, 24), RegexMatch("ipsum", 81, 86)]
    ensures MatchesFor(Lorem, "dolor") == [RegexMatch("dolor", 25, 30)]
    ensures ConsolidatedRegex(Lorem).Keys == {"ipsum", "dolor"}
  {
    assert Lorem[..1][..0] == [];
    assert Lorem[..2][..1] == Lorem[..1];
    assert Lorem[..3] == Lorem;
    assert Render(Lorem[..1]) == "Lorem Ipsum";
    assert |Render(Lorem[..2])| == 68;
    assert Offset(Lorem, 1) == 13;
    assert Offset(Lorem, 2) == 70;
  }

  lemma LoremCoherent()
    ensures NoTables(Lorem) && Coherent(Lorem, Defaults)
  {
    assert Lorem[..2][..1] == Lorem[..1];
    assert Render(Lorem[..1]) == "Lorem Ipsum";
    assert |Render(Lorem[..2])| == 68;
  }

  /** All three elements make one chunk: the whole text, with the regex
      matches of every element united per pattern and moved into it. */
  lemma LoremIsOneChunk()
    ensures PreChunks(Lorem, Defaults) == [TextPreChunk(Lorem)]
    ensures Chunks(Lorem, Defaults)
         == [Element(CompositeElement, LoremTitle + Separator + LoremFirst + Separator + LoremSecond, Consolidate(Lorem))]
    ensures Consolidate(Lorem).regexMetadata
         == map["dolor" := [RegexMatch("dolor", 25, 30)],
                "ipsum" := [RegexMatch("Ipsum", 6, 11), RegexMatch("ipsum", 19, 24), RegexMatch("ipsum", 81, 86)]]
  {
    LoremCoherent();
    CoherentRunThenRest(Lorem, [], Defaults);
    assert Lorem + [] == Lorem;
    RenderThree(Lorem);
    LonePreChunkIsOneChunk(Lorem, Defaults);
    LoremOffsets();
  }

  /** Elements whose regex metadata differ still form one pre-chunk and one chunk. */
  lemma LoremNoBreakIsOneChunk()
    ensures PreChunks(LoremNoBreak, Defaults) == [TextPreChunk(LoremNoBreak)]
    ensures Chunks(LoremNoBreak, Defaults)
         == [Element(CompositeElement, LoremTitle + Separator + LoremFirst + Separator + LoremSecond,
                     Consolidate(LoremNoBreak))]
  {
    LoremCoherent();
    SameLayoutCoherent(Lorem, LoremNoBreak, Defaults);
    CoherentRunThenRest(LoremNoBreak, [], Defaults);
    assert LoremNoBreak + [] == LoremNoBreak;
    RenderThree(LoremNoBreak);
    LonePreChunkIsOneChunk(LoremNoBreak, Defaults);
  }
}

module ByTitleScenarios {
  import opened Wrappers
  import opened Elements
  import opened ChunkingOptions
  import opened PreChunking
  import opened Combining
  import opened Consolidation
  import opened ByTitle
  import opened Scenarios
  import opened RegexScenarios

  function WithEmphasis(kind: Kind, text: string, em: seq<string>): Element {
    Element(kind, text, NoMetadata.(emphasizedTextContents := em))
  }

  /** The Great Day run with emphasis on its first two elements. */
  const EmphasisGreatDay: seq<Element> :=
    [WithEmphasis(Title, "A Great Day", ["Day"]), WithEmphasis(Text, "Today is a great day.", ["day"]),
     El(Text, "It is sunny outside.")]
  /** The Bad Day run with a regex match in its second element. */
  const RegexBadDay: seq<Element> :=
    [El(Title, "A Bad Day"), WithRegex(Text, "Today is a bad day.", map["a" := [RegexMatch("A", 0, 1)]]),
     El(Text, "It is storming outside."), El(CheckBox, "")]
  const ByTitleInput: seq<Element> := EmphasisGreatDay + [HeadingTable] + OkayDay + RegexBadDay
  /** The default options with combining switched off. */
  const NoCombining: Options := Options(500, 500, 0, true, true)

  const GreatDayText: string := "A Great Day" + Separator + "Today is a great day." + Separator + "It is sunny outside."
  const OkayDayText: string := "An Okay Day" + Separator + "Today is an okay day." + Separator + "It is rainy outside."
  const BadDayText: string := "A Bad Day" + Separator + "Today is a bad day." + Separator + "It is storming outside."

  lemma Layouts()
    ensures SameLayout(GreatDay, EmphasisGreatDay) && SameLayout(BadDay, RegexBadDay)
  {
  }

  lemma Texts()
    ensures Render(EmphasisGreatDay) == GreatDayText
    ensures Render(OkayDay) == OkayDayText
    ensures Render(RegexBadDay) == BadDayText
  {
    RenderThree(EmphasisGreatDay);
    RenderThree(OkayDay);
    RenderThree(RegexBadDay[..3]);
    assert RegexBadDay[..4] == RegexBadDay;
  }

  /** The first chunk's metadata: the emphasis lists concatenated, nothing else. */
  lemma GreatDayMetadata()
    ensures Consolidate(EmphasisGreatDay) == NoMetadata.(emphasizedTextContents := ["Day", "day"])
  {
    var es := EmphasisGreatDay;
    assert es[..2][..1] == es[..1];
    assert es[..1][..0] == [];
    assert EmphasizedOf(es[..1]) == ["Day"];
    assert EmphasizedOf(es[..2]) == ["Day", "day"];
    assert RegexKeys(es[..1]) == {};
    assert RegexKeys(es[..2]) == {};
    assert ConsolidatedRegex(es) == map[];
  }

  /** The last chunk's metadata: only the regex map, the match at 0 in the
      second element moved to 11 in the chunk text. */
  lemma BadDayMetadata()
    ensures Consolidate(RegexBadDay) == NoMetadata.(regexMetadata := map["a" := [RegexMatch("A", 11, 12)]])
  {
    var es := RegexBadDay;
    assert es[..3][..2] == es[..2];
    assert es[..2][..1] == es[..1];
    assert es[..1][..0] == [];
    assert Render(es[..1]) == "A Bad Day";
    assert MatchesFor(es[..1], "a") == [];
    assert es[..2][1] == es[1] && OwnMatches(es[1], "a") == [RegexMatch("A", 0, 1)];
    assert Offset(es[..2], 1) == 11;
    assert MatchesFor(es[..2], "a") == [RegexMatch("A", 11, 12)];
    assert MatchesFor(es[..3], "a") == MatchesFor(es[..2], "a") + Shift([], Offset(es[..3], 2));
    assert es[..4] == es;
    assert MatchesFor(es, "a") == [RegexMatch("A", 11, 12)];
    assert EmphasizedOf(es[..1]) == [] && EmphasizedOf(es[..2]) == [] && EmphasizedOf(es[..3]) == [];
    assert RegexKeys(es[..1]) == {} && RegexKeys(es[..2]) == {"a"} && RegexKeys(es[..3]) == {"a"};
    assert RegexKeys(es) == {"a"};
    assert ConsolidatedRegex(es) == map["a" := [RegexMatch("A", 11, 12)]];
  }

  /** Combining switched off through the option that sets its threshold. */
  lemma NoCombiningOptions()
    ensures New(NoArgs.(combineTextUnderNChars := Some(0))) == Ok(NoCombining)
  {
  }

  const FourPreChunks: seq<PreChunk> :=
    [TextPreChunk(EmphasisGreatDay), TablePreChunk(HeadingTable), TextPreChunk(OkayDay), TextPreChunk(RegexBadDay)]

  lemma FourFit()
    ensures forall pc | pc in FourPreChunks :: FitsOneChunk(pc, NoCombining)
    ensures FittingChunk(FourPreChunks[0]).text == GreatDayText
    ensures FittingChunk(FourPreChunks[2]).text == OkayDayText
    ensures FittingChunk(FourPreChunks[3]).text == BadDayText
  {
    Texts();
  }

  /** Each of the four pre-chunks fits one chunk and becomes it. */
  lemma FourChunks()
    ensures ChunksOf([TextPreChunk(EmphasisGreatDay), TablePreChunk(HeadingTable), TextPreChunk(OkayDay),
                      TextPreChunk(RegexBadDay)], NoCombining) == [
      Element(CompositeElement, GreatDayText, NoMetadata.(emphasizedTextContents := ["Day", "day"])),
      Element(Table, "Heading\nCell text", NoMetadata),
      Element(CompositeElement, OkayDayText, NoMetadata),
      Element(CompositeElement, BadDayText, NoMetadata.(regexMetadata := map["a" := [RegexMatch("A", 11, 12)]]))]
  {
    var pcs := FourPreChunks;
    FourFit();
    ChunksOfFitting(pcs, NoCombining);
    GreatDayMetadata();
    ConsolidatePlain(OkayDay);
    BadDayMetadata();
  }

  /** `chunk_by_title` with combining off: the Great Day run, the table, the
      Okay Day run and the Bad Day run, each one chunk with its whole text;
      the first carries only the merged emphasis and the last only the moved
      regex match. */
  lemma ChunkByTitleExample()
    ensures New(NoArgs.(combineTextUnderNChars := Some(0))) == Ok(NoCombining)
    ensures Chunks(ByTitleInput, NoCombining) == [
      Element(CompositeElement, GreatDayText, NoMetadata.(emphasizedTextContents := ["Day", "day"])),
      Element(Table, "Heading\nCell text", NoMetadata),
      Element(CompositeElement, OkayDayText, NoMetadata),
      Element(CompositeElement, BadDayText, NoMetadata.(regexMetadata := map["a" := [RegexMatch("A", 11, 12)]]))]
  {
    NoCombiningOptions();
    Layouts();
    ElevenElementsPreChunks(EmphasisGreatDay, RegexBadDay, NoCombining);
    CombineZeroRendersPreChunks(ByTitleInput, NoCombining);
    FourChunks();
  }

  /** Under the default options the same elements give three pre-chunks after
      combining: the Okay Day and Bad Day runs (56 and 55 characters, 113
      joined) are merged, while nothing is merged across the table. */
  lemma DefaultsMergeOkayAndBadDay()
    ensures New(NoArgs) == Ok(Defaults)
    ensures Combine(PreChunks(ByTitleInput, Defaults), Defaults)
         == [TextPreChunk(EmphasisGreatDay), TablePreChunk(HeadingTable), TextPreChunk(OkayDay + RegexBadDay)]
    ensures Render(OkayDay + RegexBadDay) == OkayDayText + Separator + BadDayText
    ensures |OkayDayText| == 56 && |BadDayText| == 55 && |Render(OkayDay + RegexBadDay)| == 113
  {
    Layouts();
    ElevenElementsPreChunks(EmphasisGreatDay, RegexBadDay, Defaults);
    Texts();
    var gd, t, od, bd := TextPreChunk(EmphasisGreatDay), TablePreChunk(HeadingTable), TextPreChunk(OkayDay), TextPreChunk(RegexBadDay);
    assert [gd, t, od, bd] == [gd] + [t, od, bd];
    CombineFromStep(gd, [t, od, bd], [], Defaults);
    assert [t, od, bd] == [t] + [od, bd];
    CombineFromStep(t, [od, bd], EmphasisGreatDay, Defaults);
    assert [od, bd] == [od] + [bd];
    CombineFromStep(od, [bd], [], Defaults);
    assert CanCombine(OkayDay, RegexBadDay, Defaults);
    FlattenSingle(bd);
    assert [bd] + [] == [bd];
    CombinedRunIsOne(OkayDay, [bd], [], Defaults);
    RenderConcat(OkayDay, RegexBadDay);
  }
}

module SplitScenarios {
  import opened Wrappers
  import opened Elements
  import opened ChunkingOptions
  import opened PreChunking
  import opened Combining
  import opened Splitting
  import opened Consolidation
  import opened ByTitle
  import opened Scenarios

  const FirstPiece: seq<string> := ["Lorem", "ipsum", "dolor", "sit", "amet", "consectetur", "adipiscing"]
  const SecondPiece: seq<string> := ["elit.", "In", "rhoncus", "ipsum", "sed", "lectus", "porta", "volutpat."]

  lemma FirstPieceLength()
    ensures |JoinWords(FirstPiece)| == 49
  {
    var f := FirstPiece;
    assert |JoinWords(f[6..])| == 10;
    assert f[5..][1..] == f[6..];
    assert |JoinWords(f[5..])| == 22;
    assert f[4..][1..] == f[5..];
    assert |JoinWords(f[4..])| == 27;
    assert f[3..][1..] == f[4..];
    assert |JoinWords(f[3..])| == 31;
    assert f[2..][1..] == f[3..];
    assert |JoinWords(f[2..])| == 37;
    assert f[1..][1..] == f[2..];
    assert |JoinWords(f[1..])| == 43;
  }

  lemma SecondPieceLength()
    ensures |JoinWords(SecondPiece)| == 49
  {
    var f := SecondPiece;
    assert |JoinWords(f[7..])| == 9;
    assert f[6..][1..] == f[7..];
    assert |JoinWords(f[6..])| == 15;
    assert f[5..][1..] == f[6..];
    assert |JoinWords(f[5..])| == 22;
    assert f[4..][1..] == f[5..];
    assert |JoinWords(f[4..])| == 26;
    assert f[3..][1..] == f[4..];
    assert |JoinWords(f[3..])| == 32;
    assert f[2..][1..] == f[3..];
    assert |JoinWords(f[2..])| == 40;
    assert f[1..][1..] == f[2..];
    assert |JoinWords(f[1..])| == 43;
  }

  lemma LoremWordsBack()
    ensures Words(JoinWords(FirstPiece + SecondPiece)) == FirstPiece + SecondPiece
    ensures forall w | w in FirstPiece + SecondPiece :: w != ""
  {
    forall w | w in FirstPiece + SecondPiece ensures ' ' !in w && w != "" { }
    WordsOfJoin(FirstPiece + SecondPiece);
  }

  lemma LoremPacksInTwo()
    ensures var all := FirstPiece + SecondPiece;
            Pack(all[1..], all[0], 50) == [JoinWords(FirstPiece), JoinWords(SecondPiece)]
  {
    var all := FirstPiece + SecondPiece;
    FirstPieceLength();
    SecondPieceLength();
    var ws := all[1..];
    assert [all[0]] + ws[..6] == FirstPiece;
    assert [ws[6]] + ws[7..] == SecondPiece;
    PackTakesLongestRun(ws, all[0], 6, 50);
    PackFits(ws[7..], ws[6], 50);
  }

  /** The 99-character text under a 50-character maximum: the first piece
      takes the first seven words (49 characters), the eighth would not fit,
      and the remaining words (49 characters) make the second piece. */
  lemma LoremSplitsInTwo()
    ensures |JoinWords(FirstPiece + SecondPiece)| == 99
    ensures Split(JoinWords(FirstPiece + SecondPiece), 50) == [JoinWords(FirstPiece), JoinWords(SecondPiece)]
    ensures |JoinWords(FirstPiece)| == 49 && |JoinWords(SecondPiece)| == 49
  {
    LoremWordsBack();
    LoremPacksInTwo();
    FirstPieceLength();
    SecondPieceLength();
    JoinAppend(FirstPiece, SecondPiece);
    DropEmptyKeeps(FirstPiece + SecondPiece);
  }

  const Introduction: Element := El(Title, "Introduction")
  const LongText: Element := El(Text, JoinWords(FirstPiece + SecondPiece))
  const MaxFifty: Options := Options(50, 50, 50, true, true)

  /** The title and the long text make two pre-chunks: the long text fits no chunk with the title. */
  lemma SplitsLargePreChunks()
    ensures PreChunks([Introduction, LongText], MaxFifty) == [TextPreChunk([Introduction]), TextPreChunk([LongText])]
  {
    LoremSplitsInTwo();
    RenderSingle(Introduction);
    RenderSingle(LongText);
    assert [Introduction][..1] == [Introduction] && Coherent([Introduction], MaxFifty);
    assert !Continues([Introduction], LongText, MaxFifty);
    CoherentRunThenRest([Introduction], [LongText], MaxFifty);
    assert [LongText][..1] == [LongText] && Coherent([LongText], MaxFifty);
    CoherentRunThenRest([LongText], [], MaxFifty);
    assert [Introduction] + [LongText] == [Introduction, LongText] && [LongText] + [] == [LongText];
  }

  /** Neither pre-chunk is combined with the other: their texts joined exceed 50 characters. */
  lemma SplitsLargeCombine()
    ensures var p1, p2 := TextPreChunk([Introduction]), TextPreChunk([LongText]);
            Combine([p1, p2], MaxFifty) == [p1, p2]
  {
    var p1, p2 := TextPreChunk([Introduction]), TextPreChunk([LongText]);
    LoremSplitsInTwo();
    RenderSingle(LongText);
    assert [p1, p2] == [p1] + [p2] && [p2] == [p2] + [];
    CombineFromStep(p1, [p2], [], MaxFifty);
    assert !CanCombine([Introduction], [LongText], MaxFifty);
    CombineFromStep(p2, [], [Introduction], MaxFifty);
  }

  /** The maximum set alone: every other size follows it. */
  lemma MaxFiftyOptions()
    ensures New(NoArgs.(maxCharacters := Some(50))) == Ok(MaxFifty)
  {
  }

  /** The two pre-chunks become the title chunk and the two pieces of the long text. */
  lemma SplitsLargeChunksOf()
    ensures ChunksOf([TextPreChunk([Introduction]), TextPreChunk([LongText])], MaxFifty) == [
      Element(CompositeElement, "Introduction", NoMetadata),
      Element(CompositeElement, JoinWords(FirstPiece), NoMetadata),
      Element(CompositeElement, JoinWords(SecondPiece), NoMetadata)]
  {
    var p1, p2 := TextPreChunk([Introduction]), TextPreChunk([LongText]);
    LoremSplitsInTwo();
    RenderSingle(Introduction);
    RenderSingle(LongText);
    PreChunkChunksFitting(p1, MaxFifty);
    ConsolidatePlain([Introduction]);
    ConsolidatePlain([LongText]);
    assert [p1, p2][..1] == [p1] && [p1][..0] == [];
    assert ChunksOf([p1], MaxFifty) == PreChunkChunks(p1, MaxFifty);
  }

  /** `chunk_by_title` with `max_characters=50`: the title is one chunk, and
      the text too long for any chunk is split at word boundaries into two. */
  lemma SplitsLargeElement()
    ensures New(NoArgs.(maxCharacters := Some(50))) == Ok(MaxFifty)
    ensures Chunks([Introduction, LongText], MaxFifty) == [
      Element(CompositeElement, "Introduction", NoMetadata),
      Element(CompositeElement, JoinWords(FirstPiece), NoMetadata),
      Element(CompositeElement, JoinWords(SecondPiece), NoMetadata)]
  {
    MaxFiftyOptions();
    SplitsLargePreChunks();
    SplitsLargeCombine();
    SplitsLargeChunksOf();
  }
}

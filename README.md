# By-title chunking, modelled in Dafny

This project models the by-title chunker of the `unstructured` document library. The chunker takes an ordered list of document elements (Title, Text, ListItem, Table, CheckBox, …). It returns chunks whose text is at most `max_characters` long; elements without text that end up in a pre-chunk of their own give no chunk. The implementation modules `unstructured/chunking/base.py` and `unstructured/chunking/title.py` are not part of this model. The behaviour modelled is the behaviour the test suite `test_unstructured/chunking/test_title.py` asserts.

The pipeline has five parts, one module each:

- `ChunkingOptions` (`options.dfy`) is the validating options factory `_ByTitleChunkingOptions.new`. It is a function returning `Result<Options>`. It derives the hard maximum (default 500), the soft maximum (`new_after_n_chars`) and the combine maximum (`combine_text_under_n_chars`), so that `combine <= soft <= hard`. It also rejects invalid values with the messages the caller sees.
- `PreChunking` (`prechunker.dfy`) is the pre-chunker `PreChunker.iter_pre_chunks`. It is a method with one loop and one open accumulator, proved equal to the specification function `PreChunks`.
  - A Table is emitted alone.
  - A Title, a section change, or a page change when sections may not span pages closes the open pre-chunk.
  - So does an element that would push the text, with its two-character `"\n\n"` separator, past the soft maximum.
- `Combining` (`combiner.dfy`) is the combining pass. It is a loop merging adjacent text pre-chunks while the joined text stays within the combine maximum. It never merges across a table, and a combine maximum of 0 switches it off.
- `Splitting` (`splitter.dfy`) is the greedy word splitter. Text that fits is kept whole. Longer text is cut into its non-empty words, and a loop grows a piece word by word, flushes it when the next word does not fit, and cuts a single word longer than the maximum.
- `Consolidation` (`consolidation.dfy`) merges a chunk's metadata:
  - emphasis lists are concatenated;
  - regex matches are united per pattern, with offsets moved to the chunk text;
  - page and section are kept only when uniform;
  - detection probability and coordinates are dropped.

`Elements` (`elements.dfy`) holds the element and metadata types, plus `Render`, which joins the non-empty texts with `"\n\n"`. `ByTitle` (`title.dfy`) puts the parts together as the method `ChunkByTitle` (`chunk_by_title`). `Scenarios`, `RegexScenarios`, `ByTitleScenarios` and `SplitScenarios` (`scenarios.dfy`) state the concrete examples of the test suite on the model, down to the chunks `chunk_by_title` returns.

## Model

| member | source | states |
|---|---|---|
| ChunkingOptions.New | test_unstructured/chunking/test_title.py:601-673 | Succeeds exactly when max > 0, combine >= 0, new_after >= 0 and combine <= effective hard max. A success carries the derived thresholds, with combine <= soft <= hard, and the flag defaults. |
| ChunkingOptions.NewRejectsNegativeCombine | test_unstructured/chunking/test_title.py:604-610 | Any negative combine threshold is rejected with "must be >= 0, got n", naming n. |
| ChunkingOptions.NewNegativeCombineMessages | test_unstructured/chunking/test_title.py:604-610 | combine_text_under_n_chars of -1 or -42 is rejected with "must be >= 0, got -1" (or "-42"). |
| ChunkingOptions.NewCombineAboveDefaultMessage | test_unstructured/chunking/test_title.py:626-648 | combine_text_under_n_chars of 600 with the default hard max is rejected with "got 600 > 500". |
| ChunkingOptions.NewCombineAboveGivenMessage | test_unstructured/chunking/test_title.py:626-648 | combine_text_under_n_chars of 600 with max_characters 450 is rejected with "got 600 > 450". |
| ChunkingOptions.NewRejectsCombineAboveHardMax | test_unstructured/chunking/test_title.py:626-648 | A combine threshold above the given or defaulted hard max is rejected with "got c > h". |
| ChunkingOptions.NewKeepsCombineByItself | test_unstructured/chunking/test_title.py:612-624 | A combine threshold from 0 to 500, given alone, is accepted and kept; 0 is accepted. |
| ChunkingOptions.NewAfterAloneClampsCombine | test_unstructured/chunking/test_title.py:650-663 | new_after_n_chars alone sets the soft max and pulls the defaulted combine max down to it (200 gives 200 and 200). |
| ChunkingOptions.NewMaxCharactersAlone | test_unstructured/chunking/test_title.py:543-561 | max_characters alone makes soft and combine follow it (115 gives 115/115/115). |
| ChunkingOptions.NewFlagDefaults | test_unstructured/chunking/test_title.py:575-594 | An unset or None multipage_sections gives the default (true). An unset or None include_orig_elements gives true; explicit values are kept. |
| PreChunking.PreChunksFromStep | test_unstructured/chunking/test_title.py:60-107 | For one element: a table closes the accumulator and is emitted alone; an element that cannot continue closes it and opens a new one; otherwise it joins. |
| PreChunking.PreChunkOne | test_unstructured/chunking/test_title.py:60-107 | What the generator emits for one element, and the accumulator it leaves open, continue the specification exactly. |
| PreChunking.PreChunksProperties | test_unstructured/chunking/test_title.py:60-107 | The pre-chunks of any input hold exactly its elements in order, are well formed and coherent, and every break between text pre-chunks is forced. |
| PreChunking.IterPreChunks | test_unstructured/chunking/test_title.py:60-107 | The loop yields exactly PreChunks(elements): all elements in order, tables alone, no text pre-chunk crossing a boundary, and every break between text pre-chunks forced. |
| PreChunking.PreChunksFromPreserveOrder | test_unstructured/chunking/test_title.py:60-107 | Flattening the pre-chunks gives back the open accumulator followed by the remaining input: nothing is lost, duplicated or reordered. |
| PreChunking.PreChunksFromWellFormed | test_unstructured/chunking/test_title.py:60-107 | Every table is a pre-chunk of its own, and no text pre-chunk is empty or holds a table. |
| PreChunking.PreChunksFromCoherent | test_unstructured/chunking/test_title.py:148-218 | Each element after the first in a text pre-chunk is not a Title, shares the first element's section (and page unless multipage), and fits the soft max with its separator. |
| PreChunking.PreChunksFromFirst | test_unstructured/chunking/test_title.py:60-107 | A non-empty accumulator is emitted first, as a text pre-chunk starting with its first element. |
| PreChunking.BreaksForcedConcat | test_unstructured/chunking/test_title.py:60-107 | Forced breaks stay forced when two pre-chunk runs are joined at a forced break. |
| PreChunking.PreChunksFromBreaksForced | test_unstructured/chunking/test_title.py:221-255 | Two adjacent text pre-chunks are apart only for a Title, a section or page change, or size. So regex metadata never splits. |
| PreChunking.CoherentFitsSoftMax | test_unstructured/chunking/test_title.py:543-561 | A pre-chunk of two or more elements renders, separators counted, within the soft max. |
| PreChunking.CoherentIsUniform | test_unstructured/chunking/test_title.py:148-218 | Inside a pre-chunk, no later element is a Title, all share one section, and all share one page when sections may not span pages. |
| PreChunking.SameLayoutCoherent | test_unstructured/chunking/test_title.py:221-255 | A coherent run stays coherent when only its emphasis or regex metadata changes: regex metadata never breaks a pre-chunk. |
| PreChunking.CoherentAcceptsAll | test_unstructured/chunking/test_title.py:60-107 | The elements of a coherent, table-free run are accepted one by one by the accumulator grown from its first element. |
| PreChunking.RunClosedAtBoundary | test_unstructured/chunking/test_title.py:60-107 | An open accumulator followed by the end of input, a table or an element that cannot continue it is closed as one text pre-chunk. |
| PreChunking.RunIsOnePreChunk | test_unstructured/chunking/test_title.py:60-107 | The converse of the boundary lemmas: elements the accumulator accepts one by one, followed by a boundary, become exactly one pre-chunk. |
| PreChunking.CoherentRunThenRest | test_unstructured/chunking/test_title.py:60-107 | The pre-chunks of such a run followed by other input are the run, then the pre-chunks of the rest. |
| PreChunking.TableThenRest | test_unstructured/chunking/test_title.py:60-107 | A table at the head of the input is its own table pre-chunk. |
| Combining.CombineFromStep | test_unstructured/chunking/test_title.py:110-145 | For one pre-chunk: a table flushes the accumulator and is emitted alone; a text pre-chunk is merged when the joined text fits, and otherwise flushes the accumulator and replaces it. |
| Combining.CombineOne | test_unstructured/chunking/test_title.py:110-145 | What the combining loop emits for one pre-chunk, and the accumulator it keeps, continue the specification exactly. |
| Combining.CombineProperties | test_unstructured/chunking/test_title.py:110-145 | Combining any pre-chunks keeps element order, keeps tables alone, bounds merged pre-chunks by the combine max, and is the identity at combine max 0. It is also maximal: two adjacent output text pre-chunks are apart only because some input pre-chunk could not be merged into the left one. |
| Combining.CombinePreChunks | test_unstructured/chunking/test_title.py:110-145 | The loop yields exactly Combine(pre-chunks). Element order is kept, tables stay alone, every output text pre-chunk is an input one or fits the combine max, a combine max of 0 returns the input unchanged, and no two adjacent text pre-chunks of the output could have been merged. |
| Combining.CombineFromFirst | test_unstructured/chunking/test_title.py:110-145 | A non-empty accumulator is emitted first, as a text pre-chunk that starts with the accumulated elements. |
| Combining.CombineBreaksForcedConcat | test_unstructured/chunking/test_title.py:110-145 | Refused merges stay refused when two combined runs are joined at a refused merge. |
| Combining.CombineFromBreaksForced | test_unstructured/chunking/test_title.py:110-145 | Every break between two adjacent combined text pre-chunks is a merge the combine max refused. |
| Combining.AccClosedAtBoundary | test_unstructured/chunking/test_title.py:110-145 | An accumulator followed by the end, a table or a pre-chunk it cannot absorb is emitted as one text pre-chunk. |
| Combining.CombinedRunIsOne | test_unstructured/chunking/test_title.py:110-145 | Text pre-chunks the accumulator absorbs one by one, followed by such a boundary, become exactly one combined pre-chunk holding all their elements. |
| Combining.CombineFromPreservesOrder | test_unstructured/chunking/test_title.py:110-145 | Combining neither drops, duplicates nor reorders an element. |
| Combining.PreservesOrderTableStep | test_unstructured/chunking/test_title.py:110-145 | A table step of the combining pass keeps the accumulated elements, the table and the rest in order. |
| Combining.PreservesOrderMergeStep | test_unstructured/chunking/test_title.py:110-145 | A merged text pre-chunk follows the accumulated elements it joins. |
| Combining.PreservesOrderOpenStep | test_unstructured/chunking/test_title.py:110-145 | A text pre-chunk that opens a new accumulator follows the flushed elements. |
| Combining.FlattenCloseThen | test_unstructured/chunking/test_title.py:110-145 | Flushing the accumulator before more output keeps its elements first. |
| Combining.FlattenCloseTableThen | test_unstructured/chunking/test_title.py:110-145 | Flushing the accumulator before a table keeps its elements before the table's. |
| Combining.CombineFromWellFormed | test_unstructured/chunking/test_title.py:110-145 | Combining never merges a table with anything. |
| Combining.CombineFromBounded | test_unstructured/chunking/test_title.py:110-145 | Every combined text pre-chunk is either an unchanged input pre-chunk or renders within the combine max. |
| Combining.CombineFromDisabled | test_unstructured/chunking/test_title.py:612-615 | With a combine max of 0 the pre-chunks come out as they went in. |
| Splitting.Words | test_unstructured/chunking/test_title.py:42-57 | Splitting at spaces yields at least one word. |
| Splitting.WordsRoundTrip | test_unstructured/chunking/test_title.py:42-57 | Joining the words with single spaces gives the text back. |
| Splitting.WordsHaveNoSpaces | test_unstructured/chunking/test_title.py:42-57 | No word contains a space. |
| Splitting.WordsAfterPlainWord | test_unstructured/chunking/test_title.py:42-57 | A space-free prefix stays glued to the first word of what follows it. |
| Splitting.WordsOfJoin | test_unstructured/chunking/test_title.py:42-57 | The other direction: splitting the join of space-free words gives the words back. |
| Splitting.JoinCons | test_unstructured/chunking/test_title.py:42-57 | Joining a word in front of a non-empty word list adds one space between them. |
| Splitting.PackBounded | test_unstructured/chunking/test_title.py:364-369 | Every piece is at most the maximum long. |
| Splitting.PackNonEmpty | test_unstructured/chunking/test_title.py:42-57 | Packing always yields at least one piece. |
| Splitting.JoinFirstTwo | test_unstructured/chunking/test_title.py:42-57 | Growing a piece by a word joins it with one space, as joining the two separately does. |
| Splitting.JoinHeadLength | test_unstructured/chunking/test_title.py:42-57 | Joining words after a first word never makes the text shorter than that word. |
| Splitting.PackRoundTrip | test_unstructured/chunking/test_title.py:42-57 | When no word is too long, joining the pieces with single spaces restores the packed words. |
| Splitting.PackFits | test_unstructured/chunking/test_title.py:42-57 | Words whose join already fits stay one piece. |
| Splitting.PackTakesLongestRun | test_unstructured/chunking/test_title.py:42-57 | Greedy choice: a piece takes exactly the longest run of next words that fits, and the first word that does not fit opens the next piece. |
| Splitting.DropEmpty | test_unstructured/chunking/test_title.py:42-57 | The kept words are non-empty words of the input. |
| Splitting.DropEmptyKeeps | test_unstructured/chunking/test_title.py:42-57 | Words that are all non-empty are kept as they are. |
| Splitting.PackNoEmptyPieces | test_unstructured/chunking/test_title.py:42-57 | Packing non-empty words from a non-empty piece never yields an empty piece. |
| Splitting.JoinAppend | test_unstructured/chunking/test_title.py:42-57 | Joining two non-empty word lists together puts one space between their joins. |
| Splitting.JoinHeadTail | test_unstructured/chunking/test_title.py:42-57 | A first word and the remaining words join back to the joined word list. |
| Splitting.SplitProperties | test_unstructured/chunking/test_title.py:42-57 | Pieces are non-empty and fit the maximum. Fitting non-empty text is one piece. Longer text whose words all fit gives back its non-empty words joined with single spaces, and the text itself when it has no run of spaces. |
| Splitting.PackStep | test_unstructured/chunking/test_title.py:42-57 | For one step of the greedy loop: an over-long piece is cut at the maximum, a word that fits joins the piece with one space, and a word that does not fit flushes the piece and opens the next. |
| Splitting.PackWords | test_unstructured/chunking/test_title.py:42-57 | The greedy loop over the words yields exactly Pack of the words. |
| Splitting.SplitText | test_unstructured/chunking/test_title.py:42-57 | The loop yields exactly Split(s, max): non-empty pieces within the maximum, fitting text whole, and the text back when its words are non-empty and fit. |
| Consolidation.Consolidate | test_unstructured/chunking/test_title.py:420-540 | The merged metadata of a text chunk never carries detection_class_prob or coordinates. Table and TableChunk chunks keep the table's own metadata instead. |
| Consolidation.ConsolidatePlain | test_unstructured/chunking/test_title.py:131-141 | Elements without metadata give a chunk without metadata. |
| Consolidation.RegexKeysUnion | test_unstructured/chunking/test_title.py:258-302 | A pattern is in the merged regex metadata if and only if some element has it. |
| Consolidation.EmphasizedConcat | test_unstructured/chunking/test_title.py:142 | The merged emphasis list of two groups is the concatenation of their lists. |
| Consolidation.ValidMatchesExtend | test_unstructured/chunking/test_title.py:258-302 | Matches valid in a text stay valid in any text it is a prefix of. |
| Consolidation.ShiftValid | test_unstructured/chunking/test_title.py:258-302 | Matches valid in a text, shifted by where that text sits at the end of a longer one, are valid there. |
| Consolidation.MatchesForValid | test_unstructured/chunking/test_title.py:258-302 | Slice round trip: every merged match, sliced out of the chunk text at its new offsets, gives the text it matched. |
| Consolidation.ConsolidatedRegexValid | test_unstructured/chunking/test_title.py:258-302 | The slice round trip holds for every pattern of the merged regex metadata. |
| Consolidation.MatchesForPrefix | test_unstructured/chunking/test_title.py:258-302 | The merged matches of earlier elements come first, unchanged: per-pattern lists are concatenated in element order. |
| Consolidation.OffsetOfPrefix | test_unstructured/chunking/test_title.py:258-302 | An element's offset depends only on the elements before it. |
| Consolidation.MatchesForPlacement | test_unstructured/chunking/test_title.py:258-302 | Element i's matches follow the earlier ones, each moved by the lengths of the earlier non-empty texts plus 2 per separator. |
| Elements.RenderStep | test_unstructured/chunking/test_title.py:98-104 | Rendering one more element appends a separator (only between two non-empty texts) and its text at Offset. |
| Elements.RenderPrefix | test_unstructured/chunking/test_title.py:258-302 | The text of a shorter prefix is a prefix of the text of a longer one. |
| Elements.OffsetIsSpanBefore | test_unstructured/chunking/test_title.py:258-302 | A non-empty element starts at the sum of the earlier non-empty text lengths plus 2 for each. |
| Elements.RenderSpan | test_unstructured/chunking/test_title.py:258-302 | A rendered group followed by a separator spans exactly that sum. |
| Elements.RenderConcat | test_unstructured/chunking/test_title.py:110-145 | Rendering two groups together joins their rendered texts with a separator when both are non-empty. |
| Elements.JoinTwoExtends | test_unstructured/chunking/test_title.py:258-302 | Joining more text after a text leaves that text as the prefix. |
| Elements.JoinTwoAssoc | test_unstructured/chunking/test_title.py:110-145 | Joining texts with the separator, skipping empty ones, does not depend on grouping. |
| Elements.RenderConcatLength | test_unstructured/chunking/test_title.py:543-561 | Joined text never needs more than both texts plus one separator. |
| Elements.RenderSingle | test_unstructured/chunking/test_title.py:42-57 | A single element renders as its own text. |
| Elements.SameLayoutRender | test_unstructured/chunking/test_title.py:221-255 | Elements with the same kinds and texts render the same text, whatever their metadata. |
| PreChunking.FlattenConcat | test_unstructured/chunking/test_title.py:60-107 | The elements of two pre-chunk sequences joined are the elements of each, in order. |
| PreChunking.FlattenSingle | test_unstructured/chunking/test_title.py:60-107 | The elements of a single pre-chunk are its own elements. |
| PreChunking.FlattenClose | test_unstructured/chunking/test_title.py:60-107 | Closing the accumulator loses no element: its pre-chunks hold exactly the accumulated elements. |
| ByTitle.RenderPreChunk | test_unstructured/chunking/test_title.py:42-57 | One pre-chunk becomes exactly its specified chunks, none longer than the hard max. |
| ByTitle.ChunkByTitle | test_unstructured/chunking/test_title.py:110-145 | Invalid options give the factory's error. Otherwise the result is the chunks of the combined pre-chunks (a pre-chunk without text gives none), and no chunk is longer than max_characters. |
| ByTitle.RenderAll | test_unstructured/chunking/test_title.py:110-145 | The rendering loop yields the chunks of every pre-chunk in order, none longer than the hard max. |
| ByTitle.PreChunkChunksFitting | test_unstructured/chunking/test_title.py:110-145 | A pre-chunk that fits the hard max becomes exactly one chunk: a Table keeps its text and metadata, text becomes one CompositeElement with the whole rendered text and merged metadata. |
| ByTitle.FittingSnoc | test_unstructured/chunking/test_title.py:110-145 | One more fitting chunk after the chunks of the earlier pre-chunks keeps chunks and pre-chunks index for index. |
| ByTitle.ChunksOfFitting | test_unstructured/chunking/test_title.py:110-145 | When every pre-chunk fits, there is one chunk per pre-chunk, the i-th made from the i-th pre-chunk. |
| ByTitle.NoChunkWithoutText | test_unstructured/chunking/test_title.py:42-57 | A text pre-chunk yields no chunk if and only if its text is empty, or too long and made of spaces only. |
| ByTitle.LonePreChunkIsOneChunk | test_unstructured/chunking/test_title.py:221-255 | Input that is one fitting text pre-chunk becomes exactly one CompositeElement with the whole text and merged metadata. |
| ByTitle.PreChunkChunksBounded | test_unstructured/chunking/test_title.py:364-369 | The chunks of one pre-chunk are within the hard max. |
| ByTitle.ChunksOfBounded | test_unstructured/chunking/test_title.py:364-369 | Every chunk's text is at most max_characters long. |
| ByTitle.ChunkingPreservesOrder | test_unstructured/chunking/test_title.py:110-145 | The pre-chunks that chunks are rendered from hold exactly the input elements, in input order, with every table alone. |
| ByTitle.OnlyLoneElementsAreSplit | test_unstructured/chunking/test_title.py:42-57 | A text pre-chunk longer than the hard max is a single element, so text is split only when one element is too long. |
| ByTitle.FittingTextChunk | test_unstructured/chunking/test_title.py:258-302 | A fitting text pre-chunk becomes one CompositeElement with its whole rendered text and merged metadata, whose regex offsets slice that text correctly. |
| ByTitle.CombineZeroRendersPreChunks | test_unstructured/chunking/test_title.py:148-218 | With combine_text_under_n_chars=0 each pre-chunk is rendered on its own. |
| Scenarios.GreatDayCoherent | test_unstructured/chunking/test_title.py:78-83 | "A Great Day" and its two texts continue one another under the defaults. |
| Scenarios.OkayDayCoherent | test_unstructured/chunking/test_title.py:90-95 | "An Okay Day" and its two texts continue one another under the defaults. |
| Scenarios.BadDayCoherent | test_unstructured/chunking/test_title.py:98-104 | "A Bad Day", its two texts and the empty CheckBox continue one another under the defaults. |
| Scenarios.RenderThree | test_unstructured/chunking/test_title.py:110-145 | Three non-empty texts render as the three joined by two separators. |
| Scenarios.ElevenElementsPreChunks | test_unstructured/chunking/test_title.py:110-130 | Whatever emphasis or regex metadata the Great Day and Bad Day runs carry, the eleven elements give the same four pre-chunks. |
| Scenarios.PreChunksSplitByTitleAndTable | test_unstructured/chunking/test_title.py:60-107 | The defaults are derived from no arguments, and the eleven elements give exactly four pre-chunks: the Great Day run, the table alone, the Okay Day run, and the Bad Day run with its CheckBox. |
| Scenarios.PrioritiesCoherent | test_unstructured/chunking/test_title.py:543-561 | The first three items continue one another under max 115 and render to 85 characters. |
| Scenarios.SeparatorsCountTowardSize | test_unstructured/chunking/test_title.py:543-561 | Under max 115 the fourth item opens a new pre-chunk (85 + 2 + 33 > 115), and combining leaves the two apart. |
| Scenarios.SectionChangeBreaks | test_unstructured/chunking/test_title.py:148-182 | A title in section "first" and texts in section "second" become two pre-chunks. |
| Scenarios.PageChangeBreaks | test_unstructured/chunking/test_title.py:185-218 | With multipage_sections false, a title on page 1 and texts on page 2 become two pre-chunks. |
| Scenarios.PageChangeKeptWhenMultipage | test_unstructured/chunking/test_title.py:305-335 | With multipage_sections true, the same title and texts stay one pre-chunk. |
| RegexScenarios.LoremOffsets | test_unstructured/chunking/test_title.py:258-302 | Merged "ipsum" matches are 6-11, 19-24, 81-86, "dolor" is 25-30, and the merged keys are exactly the two patterns. |
| RegexScenarios.LoremCoherent | test_unstructured/chunking/test_title.py:258-302 | The three Lorem elements continue one another under the defaults. |
| RegexScenarios.LoremIsOneChunk | test_unstructured/chunking/test_title.py:258-302 | The three elements become one CompositeElement with the whole 113-character text; its regex metadata is exactly "dolor" at 25-30 and "ipsum" at 6-11, 19-24 and 81-86. |
| RegexScenarios.LoremNoBreakIsOneChunk | test_unstructured/chunking/test_title.py:221-255 | Three elements with different regex metadata form one pre-chunk and one CompositeElement with the whole text. |
| ByTitleScenarios.Layouts | test_unstructured/chunking/test_title.py:110-130 | The example's elements have the kinds and texts of the eleven-element layout. |
| ByTitleScenarios.Texts | test_unstructured/chunking/test_title.py:131-141 | The three text runs render to the expected chunk texts. |
| ByTitleScenarios.GreatDayMetadata | test_unstructured/chunking/test_title.py:142 | The first chunk's whole metadata is the emphasis list ["Day", "day"] and nothing else. |
| ByTitleScenarios.BadDayMetadata | test_unstructured/chunking/test_title.py:143-145 | The last chunk's whole metadata is the regex map with "A" moved from 0-1 to 11-12, and nothing else. |
| ByTitleScenarios.NoCombiningOptions | test_unstructured/chunking/test_title.py:130 | combine_text_under_n_chars=0 gives hard and soft max 500 with combining off. |
| ByTitleScenarios.FourFit | test_unstructured/chunking/test_title.py:131-141 | Each of the four pre-chunks fits one chunk, with the expected texts. |
| ByTitleScenarios.FourChunks | test_unstructured/chunking/test_title.py:131-145 | The four pre-chunks become the four expected chunks, metadata included. |
| ByTitleScenarios.ChunkByTitleExample | test_unstructured/chunking/test_title.py:110-145 | chunk_by_title with combine_text_under_n_chars=0 returns exactly the four chunks of the test, with exactly the metadata it asserts for the first and last. |
| ByTitleScenarios.DefaultsMergeOkayAndBadDay | test_unstructured/chunking/test_title.py:110-130 | With the default combine threshold the same elements combine into three pre-chunks: the Okay Day and Bad Day runs (56 and 55 characters, 113 joined) merge, and nothing merges across the table. |
| SplitScenarios.FirstPieceLength | test_unstructured/chunking/test_title.py:55 | The first seven words joined are 49 characters. |
| SplitScenarios.SecondPieceLength | test_unstructured/chunking/test_title.py:56 | The last eight words joined are 49 characters. |
| SplitScenarios.LoremWordsBack | test_unstructured/chunking/test_title.py:46-47 | The fifteen words of the long text are its words. |
| SplitScenarios.LoremPacksInTwo | test_unstructured/chunking/test_title.py:53-57 | Packing the fifteen words under 50 gives the two expected pieces. |
| SplitScenarios.LoremSplitsInTwo | test_unstructured/chunking/test_title.py:42-57 | The 99-character text under max 50 splits into the first seven words and the last eight, 49 characters each. |
| SplitScenarios.SplitsLargePreChunks | test_unstructured/chunking/test_title.py:42-57 | The title and the long text are two pre-chunks under max 50. |
| SplitScenarios.SplitsLargeCombine | test_unstructured/chunking/test_title.py:42-57 | The two pre-chunks are not combined: joined they exceed 50 characters. |
| SplitScenarios.SplitsLargeChunksOf | test_unstructured/chunking/test_title.py:51-56 | The title becomes one chunk and the long text its two pieces. |
| SplitScenarios.MaxFiftyOptions | test_unstructured/chunking/test_title.py:49 | max_characters=50 alone sets all three thresholds to 50. |
| SplitScenarios.SplitsLargeElement | test_unstructured/chunking/test_title.py:42-57 | chunk_by_title with max_characters=50 returns exactly the three chunks of the test. |

## Left out

- The ingest pipeline node `unstructured/ingest/pipeline/reformat/chunking.py` is not part of this model. It is I/O around the chunker: it hashes the configuration and file name with SHA-256, checks files on disk, reads and writes JSON, logs, and catches errors.
- The `partition_html` integration tests (test lines 338-417) need an HTML parser and files on disk. Only their size bound is modelled, by `ByTitle.ChunksOfBounded`.
- The mocked `_chunk_by_title` call (test lines 584-598) is plumbing. Only the option default it checks is kept, in `ChunkingOptions.NewFlagDefaults`.
- Pre-chunking is lazy in the source, a generator driven by `next()` until `StopIteration`. The model computes the whole sequence eagerly in one loop. Order and exhaustion are kept, but interleaving with the consumer is not.
- Floating-point metadata (`detection_class_prob`, coordinate points and system) is carried as opaque optional values. The merged metadata of a text chunk (`Consolidate`) drops them; a Table or TableChunk chunk keeps the table's own metadata, these values included. No arithmetic on them is modelled.
- Splitting a table's HTML in step with its text is not modelled. A table longer than the hard maximum is split as plain text, into TableChunk pieces.
- Overlap options are not modelled. They do not appear in the tests.
- A text pre-chunk whose text is empty (only text-less elements such as a lone CheckBox), or longer than the hard maximum and made of spaces only, yields no chunk: its elements and their metadata do not reach the output (`ByTitle.NoChunkWithoutText`). No test pins this case.
- Every piece of a split text pre-chunk shares the whole pre-chunk's consolidated metadata. Regex offsets are not re-based per piece.
- Retaining the original elements on a chunk (`include_orig_elements`) is not modelled. The option is parsed and defaults to true (test lines 575-594), but the chunks asserted at test lines 131-145 carry no original elements, so chunk metadata never holds them here.
- The implementation modules are not part of this model. Where the tests leave the rule open, the model chooses a rule that agrees with the tests it is checked against above:
  - the size test uses the soft maximum, with the separator counted;
  - combining merges while the joined text, separator counted, fits the combine maximum, so 0 disables it;
  - page and section survive merging only when uniform;
  - an element's section and page are compared with the first element of the open pre-chunk, and a missing value next to a present one counts as a change;
  - an unset `new_after_n_chars` (or one that is negative or above the hard maximum) gives a soft maximum equal to the hard maximum;
  - `max_characters <= 0` is checked first, then a negative combine threshold, then `new_after_n_chars < 0`, then a combine threshold above the hard maximum.
- ChunkingOptions.New: messages are modelled exactly for the cases the tests pin down. The message for `new_after_n_chars < 0` and for `max_characters <= 0` follows the same pattern, but no test fixes its wording.
- Splitting.SplitText: words are separated by spaces only. A run of spaces separates two words and no piece holds an empty word, but other whitespace (newlines, tabs) is kept inside words. Text that fits is returned whole, its spacing intact.

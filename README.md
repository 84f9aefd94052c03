# aifr in Dafny

aifr is a terminal assistant that sends a question to a language model. Before it does, it can attach the files the user names, the output of a console command, and the most relevant fragments of the working directory. This project models the parts of aifr that make decisions, and proves what they promise:

- **The local retrieval engine** (aifr/rag.py). It has five parts:
  - the tokenizer;
  - the compressor, which removes blank and comment lines;
  - the three chunking strategies (Python definitions, Markdown headings, blank-line paragraphs);
  - the index builder with its BM25 statistics;
  - the BM25 search, which filters the positively scored chunks, sorts them stably by descending score and takes the first `k`.

  `RagEngine` and `DocumentChunk` are classes whose fields the methods update in place. The scores are reals. The logarithm is a parameter `ln`, and the lemmas that need it require only that `ln x > 0` for `x > 1`.
- **The conversation window** (aifr/context.py). `ContextManager` keeps the history: a sliding window over whole turns, then token pruning two messages at a time.
- **The legacy `$ask:` command parser** (aifr/command_parser.py).
- **The routing rules.** The agent choice is in aifr/agent_controller.py and the model choice in aifr/model_selector.py.
- **The execution helpers** (aifr/executor.py): the shell-block extractor, the command blacklist and the confirmation box.
- **The sensitive-file rule and the order of `load_file`'s checks** (aifr/file_loader.py).
- **Session pruning, expiry and entry filtering** (aifr/session_store.py).
- **Request preparation** (aifr/cli.py): alias and agent resolution, and the assembly of the user message.
- **Argument validation** (aifr/cli_parser.py).
- **Output** (aifr/output.py): output chunking, the colour decision and the usage line.
- **The line-by-line Markdown renderer** (aifr/markdown_renderer.py), whose code-block flag is a two-state machine.

Each source file is one module, named after the file. aifr/rag.py is split into a module per component: `Tokenizer`, `Compressor`, `Chunker`, `TermStats`, `Bm25`, `Ranking` and `Engine`. Small modules give Python's built-in operations on strings and lists an exact meaning that the other modules build on:

| module | models |
|---|---|
| `Text` | `lower`, `strip`, `startswith`, `in` |
| `Joins` | `split` and `join` |
| `Lines` | `splitlines` |
| `Seqs` | filtered comprehensions and slices |
| `CharRuns` | `re.split` on a character class, and `split()` |
| `Numbers` | `int()` and `str()` on integers |
| `Wrappers` | `Option` and `Result` |

Where the source loops and updates state, the model is a method with a loop, proved against a function of its inputs. The properties that the source and its tests promise are lemmas about that function.

Some behaviour of the retrieval engine comes straight from how its code is written:

- A repeated query token adds its BM25 term once per occurrence, because `search` iterates over the token list.
- The generic chunker has no fallback: blank content gives no chunk.
- `avg_dl` is not reset by a new build. After a build that indexes no chunk, it keeps the value of the previous build.
- A negative `k` is a Python slice `[:k]`, which drops the last `-k` results.
- `search` writes the score into the shared chunk objects that the index holds, and returns those objects.
- The test-only scorer `_score` takes the idf as `1.0` while no chunk is indexed. While `avg_dl` is not positive, it takes the document's own length as the average length, or 1 for an empty document.

## Model

| member | source | states |
|---|---|---|
| Tokenizer.Tokenize | aifr/rag.py:152-156 | definition: the maximal `[a-z0-9]` runs of the lower-cased text, in order with duplicates, minus the stop words; characterised by Tokenizer.TokenizeTokens, TokenizeCut and TokenizeWord |
| Tokenizer.TokenizeTokens | aifr/rag.py:152-156 | every token is a non-empty run of `[a-z0-9]` characters that is not a stop word |
| Tokenizer.TokenizeCut | aifr/rag.py:155 | a character outside `[a-z0-9]` once lower-cased separates: the tokens of `a + [c] + b` are those of `a` followed by those of `b` |
| Tokenizer.TokenizeWord | aifr/rag.py:152-156 | a word of token characters is one lower-cased token, or none when that is a stop word |
| Tokenizer.TokenizeNoTokenChars | aifr/rag.py:155-156 | text without a token character gives no tokens, since empty pieces are dropped |
| Tokenizer.TokenizeWordThen | aifr/rag.py:155-156 | a word followed by a separator contributes its own token, then the tokens of the rest |
| Tokenizer.SeparatedWordThen | aifr/rag.py:155-156 | the same for a word between two separators |
| Tokenizer.ExampleStopWords | aifr/rag.py:147-150 | `is` and `a` are stop words; `hello`, `world`, `this` and `test` are not |
| Tokenizer.TokenizeExample | tests/test_rag.py:66-73 | `"Hello, World! This is a Test."` tokenizes to exactly `hello, world, this, test` |
| Compressor.Compressed | aifr/rag.py:24-30 | definition: the kept lines joined with newlines; characterised by Compressor.CompressedLines, CompressedLinesKept and CompressIdempotent |
| Compressor.CompressGeneric | aifr/rag.py:47-49 | definition: the non-blank lines joined with newlines; characterised by Compressor.CompressedLines and CompressedLinesKept |
| Compressor.CompressPython | aifr/rag.py:32-45 | the loop keeps, in order and with their indentation, exactly the non-blank lines not starting with `#` once stripped, and joins them with newlines |
| Compressor.Compress | aifr/rag.py:24-30 | a path ending in `.py` gets the Python rule, any other path the generic rule |
| Compressor.CompressedLines | aifr/rag.py:24-49 | splitting the compressed text into lines gives back exactly the kept lines: none is merged, split or altered |
| Compressor.CompressedLinesKept | aifr/rag.py:38-49 | every line of the output is non-blank and, for Python, not a comment line |
| Compressor.CompressIdempotent | aifr/rag.py:24-49 | compressing the output again changes nothing |
| Chunker.DocumentChunk.constructor | aifr/rag.py:14-19 | a new chunk holds its path and text, with score `0.0` |
| Chunker.GroupShape | aifr/rag.py:85-98 | the groups: none exactly when there are no lines, none empty, each after the first opening at a start line, no start line inside a group except at its head |
| Chunker.GroupNonEmpty | aifr/rag.py:97-98 | no group is empty, and there are groups exactly when there are lines |
| Chunker.GroupStarts | aifr/rag.py:87-92 | every group after the first begins with a start line |
| Chunker.GroupInner | aifr/rag.py:87-94 | a start line never sits inside a group other than at its head |
| Chunker.GroupConcat | aifr/rag.py:85-98 | the groups read in order are the lines: nothing lost, repeated or reordered |
| Chunker.GroupStep | aifr/rag.py:110-114 | one more line opens a new group when it is a start line (or there is none yet) and otherwise joins the last one |
| Chunker.GroupAdvance | aifr/rag.py:87-95 | the loop step matches the grouping: a start line closes a non-empty pending group and opens a new one, any other line joins the pending group |
| Chunker.JoinEachConcat | aifr/rag.py:82-98 | joining the chunk texts with newlines is joining all the grouped lines with newlines |
| Chunker.FirstLineOfJoin | aifr/rag.py:90 | the first line of a chunk's text is the first line of its group |
| Chunker.LineChunksFallback | aifr/rag.py:100-119 | a line-oriented chunker yields at least one chunk, and a text without lines yields the whole (empty) content as its one chunk |
| Chunker.LineChunksCover | aifr/rag.py:62-119 | the chunks joined with newlines are the content's lines joined with newlines |
| Chunker.LineChunksStart | aifr/rag.py:87-114 | every chunk after the first begins with a start line |
| Chunker.PythonChunkTexts | aifr/rag.py:62-100 | definition: the header, then one text per top-level definition, or the whole content when it has no lines; characterised by Chunker.PythonChunksStartAtDefinitions, LineChunksCover and LineChunksFallback |
| Chunker.PythonChunksStartAtDefinitions | aifr/rag.py:69-92 | every Python chunk after the first begins with a top-level `def` or `class` line followed by whitespace |
| Chunker.MarkdownChunkTexts | aifr/rag.py:102-119 | definition: the leading text, then one text per heading of level one to three, or the whole content when it has no lines; characterised by Chunker.MarkdownChunksStartAtHeadings, LineChunksCover and LineChunksFallback |
| Chunker.MarkdownChunksStartAtHeadings | aifr/rag.py:108-114 | every Markdown chunk after the first begins with a line matching `^#{1,3}\s+` |
| Chunker.GenericChunkTexts | aifr/rag.py:121-124 | definition: the non-blank pieces of `split('\n\n')`; characterised by Chunker.GenericChunks |
| Chunker.GenericChunks | aifr/rag.py:121-124 | generic chunks are never blank, and a blank text yields none (no fallback chunk) |
| Chunker.AppendChunk | aifr/rag.py:82 | appends one new chunk of the file holding the text, keeping the chunk objects distinct |
| Chunker.Flush | aifr/rag.py:89-91 | closing the pending group appends its newline-joined text as a new chunk |
| Chunker.Finish | aifr/rag.py:97-119 | the pending group becomes the last chunk, and a text without lines becomes one chunk of the whole content |
| Chunker.PythonHeader | aifr/rag.py:72-79 | the header loop stops at the first definition line and collects exactly the lines before it |
| Chunker.PythonHeaderChunk | aifr/rag.py:72-82 | the header lines, when there are any, become the first chunk |
| Chunker.Advance | aifr/rag.py:86-95 | one loop turn keeps the chunks so far plus the pending group equal to the grouping of the lines read |
| Chunker.CollectGroups | aifr/rag.py:85-114 | the whole loop leaves the chunks plus the pending group equal to the grouping of all lines |
| Chunker.ChunkPython | aifr/rag.py:62-100 | the chunk texts are the header, then one chunk per top-level definition, or the whole content when there are no lines; all chunks new, of the file, score `0.0` |
| Chunker.ChunkMarkdown | aifr/rag.py:102-119 | the chunk texts are the leading text, then one chunk per heading of level one to three, or the whole content when there are no lines |
| Chunker.ChunkGeneric | aifr/rag.py:121-124 | the chunk texts are the non-blank pieces of `split('\n\n')`, in order |
| Chunker.Chunk | aifr/rag.py:54-60 | `.py` paths get the Python chunker, `.md` paths the Markdown one, any other path the generic one |
| TermStats.CountsMeaning | aifr/rag.py:194-196 | the frequency table holds exactly the chunk's tokens, each with its number of occurrences (at least one) |
| TermStats.SumValuesRemove | aifr/rag.py:194-196 | the sum of a table's counts can be taken with any key first |
| TermStats.SumOfCounts | aifr/rag.py:191-196 | the counts of a chunk add up to its token count `doc_len` |
| TermStats.DocCountPositive | aifr/rag.py:199-200 | a term is counted in some chunk exactly when some chunk has it, and never in more chunks than there are |
| TermStats.DocFreqsAppend | aifr/rag.py:197-200 | indexing one more chunk adds one to the document frequency of each of its terms |
| TermStats.DocFreqsBounded | aifr/rag.py:199-200 | every document frequency is between one and the number of chunks |
| TermStats.DocFreqsCover | aifr/rag.py:199-200 | every term of every chunk has a document frequency |
| TermStats.TotalPositive | aifr/rag.py:192 | a chunk with tokens makes the running `total_len` at least its length |
| TermStats.TotalZero | aifr/rag.py:192 | a zero `total_len` means no chunk has a token |
| TermStats.TotalAppend | aifr/rag.py:192 | one more chunk adds its length to `total_len` |
| TermStats.CountTerms | aifr/rag.py:194-196 | the counting loop builds the frequency table of the tokens |
| TermStats.AddDocFreqs | aifr/rag.py:199-200 | the loop over a chunk's terms adds one to each of their document frequencies, whatever the key order |
| TermStats.AddKeysStep | aifr/rag.py:200 | one loop turn: `doc_freqs.get(t, 0) + 1` stored for `t` |
| Bm25.UnitIdfPositive | aifr/rag.py:238-239 | the idf `_score` uses on an empty index, `1.0`, is positive |
| Bm25.Idf | aifr/rag.py:209-213 | definition: `ln((N - n + 0.5) / (n + 0.5) + 1)`; characterised by Bm25.IdfPositive |
| Bm25.IdfPositive | aifr/rag.py:209-213 | with at most as many chunks containing the term as there are, `log(... + 1.0)` is positive |
| Bm25.Weight | aifr/rag.py:241-244 | definition: `freq * (k1 + 1) / den`; characterised by Bm25.WeightPositive |
| Bm25.WeightPositive | aifr/rag.py:241-244 | for `k1 >= 0` and `0 <= b <= 1` a present term's denominator is at least its frequency and its weight is positive |
| Bm25.ScorableWhenValid | aifr/rag.py:268-272 | for such parameters and a positive average length no division of the score divides by zero |
| Bm25.Score | aifr/rag.py:235-244 | definition: the sum over the query tokens, repetitions included, of `idf * weight` for the tokens the chunk has; characterised by Bm25.ScoreStep and ScorePositiveIff |
| Bm25.ScorePositiveIff | aifr/rag.py:226-274 | with positive idfs the score is never negative and is positive exactly when some query token occurs in the chunk |
| Bm25.ScorablePrefix | aifr/rag.py:235-244 | every prefix of a scorable query is scorable |
| Bm25.ScoreStep | aifr/rag.py:235-244 | one more query token adds `idf * (num / den)` when the chunk has it, nothing otherwise |
| Bm25.AccumulateScore | aifr/rag.py:265-272 | the scoring loop computes the BM25 score: the sum over the query tokens, repetitions included, of `idf * weight` |
| Ranking.Survivors | aifr/rag.py:274-276 | definition: the positively scored chunks in index order; characterised by Ranking.SurvivorsScored, SurvivorsIncreasing and SurvivorsComplete |
| Ranking.SurvivorsStep | aifr/rag.py:274-276 | the survivors of one more chunk: those before, then the chunk itself when its score is positive |
| Ranking.SurvivorsExtend | aifr/rag.py:256-276 | the same step stated on the prefix the loop has read |
| Ranking.SurvivorsScored | aifr/rag.py:274-276 | every survivor is a chunk of the index with its own, positive score |
| Ranking.SurvivorsIncreasing | aifr/rag.py:256-276 | the survivors come in index order |
| Ranking.SurvivorsComplete | aifr/rag.py:274-276 | every positively scored chunk survives |
| Ranking.SurvivorsNone | aifr/rag.py:274-276 | no chunk survives when none scores above zero |
| Ranking.InsertPermutes | aifr/rag.py:279 | inserting adds exactly the one element |
| Ranking.InsertMember | aifr/rag.py:279 | the elements after an insertion are the old ones and the new one |
| Ranking.RankedCons | aifr/rag.py:279 | a ranked list stays ranked under an element that comes before all of it |
| Ranking.RankedTail | aifr/rag.py:279 | the rest of a ranked list is ranked and comes after its head |
| Ranking.InsertRanked | aifr/rag.py:279 | inserting an element with a larger index than all others keeps the list ranked: ties stay in index order |
| Ranking.SortDesc | aifr/rag.py:279 | definition: a stable insertion sort by descending score; characterised by Ranking.SortDescPermutes and SortDescRanked |
| Ranking.SortDescPermutes | aifr/rag.py:279 | the sort is a permutation of its input |
| Ranking.SortDescMember | aifr/rag.py:279 | the sort keeps exactly the elements of its input |
| Ranking.SortDescRanked | aifr/rag.py:279 | sorting the survivors orders them by score, highest first, and equal scores in index order, as Python's stable sort with `reverse=True` does |
| Ranking.PyTake | aifr/rag.py:280 | `s[:k]` keeps the first `k` elements, clamped to the length, and for a negative `k` drops the last `-k` |
| Ranking.TopK | aifr/rag.py:274-280 | definition: the sorted survivors cut by `[:k]`; characterised by Ranking.RankingRanked, RankingTopK and RankingEmpty |
| Ranking.RankingRanked | aifr/rag.py:274-280 | the result is ranked and holds only positively scored chunks with their own scores |
| Ranking.RankingTopK | aifr/rag.py:274-280 | any positively scored chunk left out scores no higher than each chunk returned |
| Ranking.RankingEmpty | aifr/rag.py:274-280 | nothing is returned when no chunk scores above zero |
| Engine.Mean | aifr/rag.py:206-207 | `total_len / n_docs` is never negative and is zero exactly when every chunk is empty |
| Engine.LengthsAppend | aifr/rag.py:191 | one more chunk appends its token count |
| Engine.TablesAppend | aifr/rag.py:194-197 | one more chunk appends its term table |
| Engine.DocLengthsAppend | aifr/rag.py:189-191 | one more chunk stores its token count under its number |
| Engine.DocLengthsAgree | aifr/rag.py:189-191 | `doc_len[i]` is the token count of chunk `i` |
| Engine.ChunkEntries | aifr/rag.py:185-187 | the chunks of one file are its texts, each with the file's path |
| Engine.IndexEntriesStep | aifr/rag.py:176-187 | indexing one more file appends its chunks |
| Engine.NotYetIndexed | aifr/rag.py:185-187 | a newly made chunk is none of those indexed before it |
| Engine.DocScores | aifr/rag.py:256-272 | one score per chunk |
| Engine.Pick | aifr/rag.py:276-280 | one chunk per ranked entry |
| Engine.TokenScore | aifr/rag.py:215-246 | scoring against a token list with positive idfs is defined, never negative, and positive exactly when the lists share a token |
| Engine.RagEngine.constructor | aifr/rag.py:132-150 | a new engine has the given `k1` and `b` and an empty index |
| Engine.RagEngine.AddChunk | aifr/rag.py:186-202 | indexing one chunk appends it, its length, its term table and its document frequencies, and keeps the statistics describing the chunks |
| Engine.RagEngine.AddChunks | aifr/rag.py:186-202 | the loop over a file's chunks indexes each in turn |
| Engine.RagEngine.IndexFile | aifr/rag.py:176-202 | one file's chunks are indexed after the earlier files' chunks |
| Engine.RagEngine.IndexFiles | aifr/rag.py:158-207 | the index is rebuilt from the files' chunks in order, its statistics describe them, and `avg_dl` only changes when some chunk was indexed |
| Engine.RagEngine.MeanLengthPositive | aifr/rag.py:206-207 | the mean length is positive once some chunk has a token |
| Engine.RagEngine.FreqsSumToLength | aifr/rag.py:191-196 | a chunk's term counts add up to its recorded length |
| Engine.RagEngine.TableMeaning | aifr/rag.py:194-197 | a chunk's term table holds exactly its tokens |
| Engine.RagEngine.ScoresDefined | aifr/rag.py:262-272 | no division of the scoring loop in `search` divides by zero |
| Engine.RagEngine.IdfPositiveEverywhere | aifr/rag.py:209-213 | `_idf` is positive for every term of a valid index |
| Engine.RagEngine.Scores | aifr/rag.py:256-272 | one score per indexed chunk |
| Engine.RagEngine.ScoreMeaning | aifr/rag.py:256-274 | a chunk's score is never negative, and positive exactly when the chunk contains a query token |
| Engine.RagEngine.ScoreTokens | aifr/rag.py:215-246 | `_score` is BM25 with the fallbacks of an empty index (average length from the document, idf `1.0`), never negative, and positive exactly on a shared token |
| Engine.RagEngine.Search | aifr/rag.py:248-280 | the result is the `k` best positively scored chunks, highest first, ties in index order; exactly the positively scored chunks have their score written |
| Engine.RagEngine.ScoreAll | aifr/rag.py:256-276 | the chunk loop collects the positively scored chunks in index order and writes their scores |
| Engine.RagEngine.SearchReturnsMatches | aifr/rag.py:265-280 | every chunk returned contains a query token |
| Engine.RagEngine.SearchNoMatch | aifr/rag.py:265-280 | a query that occurs in no chunk finds nothing |
| Engine.RagEngine.SearchTopK | aifr/rag.py:274-280 | a matching chunk left out scores no higher than any chunk returned |
| Context.TokenCountAppend | aifr/context.py:60-62 | the word counts of two histories add up |
| Context.TokenCountSuffix | aifr/context.py:55-62 | dropping the oldest messages never adds words |
| Context.Window | aifr/context.py:45-48 | definition: `messages[-2 * max_turns:]` when the history is longer than that; characterised by Context.WindowKeepsLatest, WindowZero and WindowNegative |
| Context.WindowKeepsLatest | aifr/context.py:39-48 | with at least one turn allowed the window is the last `min(len, 2 * max_turns)` messages, in order |
| Context.WindowZero | aifr/context.py:45-48 | with `max_turns == 0` the slice `[-0:]` keeps the whole history |
| Context.WindowNegative | aifr/context.py:45-48 | a negative `max_turns` drops the `-2 * max_turns` oldest messages instead |
| Context.WindowIdempotent | aifr/context.py:39-48 | the window keeps a suffix of the history, and applying it again changes nothing |
| Context.Pruned | aifr/context.py:55-58 | definition: the two oldest messages go while the history is over budget with more than two messages; characterised by Context.PrunedMeaning and PrunedWithinBudget |
| Context.PrunedMeaning | aifr/context.py:50-58 | pruning removes the `2 * k` oldest messages for the first `k` at which the history is no longer over budget with more than two messages; every shorter cut still was |
| Context.PrunedWithinBudget | aifr/context.py:55 | the result fits the budget or has at most two messages |
| Context.PrunedKeepsLatest | aifr/context.py:55-58 | pruning keeps a suffix cut at an even offset, never empties a non-empty history, and keeps two messages of an even history of two or more |
| Context.PrunedIdempotent | aifr/context.py:50-58 | pruning twice is pruning once |
| Context.Limited | aifr/context.py:34-37 | definition: the window, then the pruning; characterised by Context.LimitedIdempotent |
| Context.LimitedIdempotent | aifr/context.py:34-37 | enforcing both limits again changes nothing |
| Context.WindowKeepsTurn | aifr/context.py:22-48 | the window over whole turns that end in a new turn keeps that turn and only whole turns |
| Context.AddTurnKeepsLatest | aifr/context.py:22-26 | after a turn is added to a history of whole turns the history ends with that turn, whatever the token budget |
| Context.ContextManager.constructor | aifr/context.py:16-20 | the manager holds the given budget, history and turn limit |
| Context.ContextManager.WithDefaults | aifr/context.py:16-20 | an empty history and the default of five turns |
| Context.ContextManager.CurrentTokens | aifr/context.py:60-62 | the word count of the whole history |
| Context.ContextManager.BuildMessages | aifr/context.py:28-32 | the system prompt, then the history in order, then the new user message |
| Context.ContextManager.ApplySlidingWindow | aifr/context.py:39-48 | the history becomes its window; the limits stay |
| Context.ContextManager.PruneByTokens | aifr/context.py:50-58 | the `pop(0)` loop leaves the pruned history |
| Context.ContextManager.EnforceLimit | aifr/context.py:34-37 | the window, then the pruning |
| Context.ContextManager.AddTurn | aifr/context.py:22-26 | the user and assistant messages are appended, then both limits enforced |
| Context.ContextManager.Clear | aifr/context.py:64-66 | the history is emptied and the limits stay |
| CommandParser.Clean | aifr/command_parser.py:22-24 | definition: `strip()`, then a leading `aifr` dropped with the spaces and dashes after it; characterised by CommandParser.Parse and CleanExample |
| CommandParser.KeyAt | aifr/command_parser.py:29 | definition: a keyword in any ASCII letter case at the start, then `:`; characterised by CommandParser.MatchKeyMeaning and MarkerCaseInsensitive |
| CommandParser.MatchKey | aifr/command_parser.py:29 | a match found is shorter than the text, so a `:` follows it |
| CommandParser.MatchKeyMeaning | aifr/command_parser.py:29 | the alternative captured is one that matches, ignoring ASCII case, before a `:`; no alternative matches when none is found |
| CommandParser.MarkerLen | aifr/command_parser.py:29 | a marker found fits in the text with its `$` and `:` |
| CommandParser.MarkerMeaning | aifr/command_parser.py:29 | a marker is `$`, one of the keywords in any letter case, and `:`, and one is found whenever the text starts with one |
| CommandParser.SplitParts | aifr/command_parser.py:29 | `re.split` with one group gives an odd number of parts; what the parts are is stated by CommandParser.SplitPartsRoundTrip |
| CommandParser.SplitPartsRoundTrip | aifr/command_parser.py:29 | the parts rebuild the text: the first part, then `$`, key, `:` and text for each marker in order; no marker starts anywhere inside a text part; every key part lower-cases to one of the keywords |
| CommandParser.MarkerCaseInsensitive | aifr/command_parser.py:29 | `re.IGNORECASE`: texts that agree once lower-cased have the same markers |
| CommandParser.LowerKeepsSymbol | aifr/command_parser.py:29 | lower-casing does not make or unmake a `$` or a `:` |
| CommandParser.MatchKeySame | aifr/command_parser.py:29 | texts that match the same alternatives capture the same one |
| CommandParser.SplitPartsNoMarker | aifr/command_parser.py:29 | text without a marker is one part |
| CommandParser.Writes | aifr/command_parser.py:36-48 | one write per key of `for idx in range(1, len(parts), 2)` |
| CommandParser.WritesAt | aifr/command_parser.py:36-41 | iteration `j` writes the stripped text after the `j`-th marker to the entry its lower-cased keyword names |
| CommandParser.FoldStep | aifr/command_parser.py:36-48 | one more loop iteration applies one more write |
| CommandParser.FoldAppend | aifr/command_parser.py:36-48 | a write applied last acts on the dictionary of all earlier ones |
| CommandParser.Build | aifr/command_parser.py:52-68 | a command exactly when the question is a non-empty string, and then its question is non-empty |
| CommandParser.Parse | aifr/command_parser.py:21-68 | a blank command, or `aifr` and dashes alone, is the `Brak polecenia` error, and a parsed command always has a question |
| CommandParser.ParseCommand | aifr/command_parser.py:21-68 | the imperative parser returns what `Parse` defines |
| CommandParser.ParseMarkers | aifr/command_parser.py:36-48 | the marker loop applies the writes of all key and value pairs in order |
| CommandParser.SafeInt | aifr/command_parser.py:71-77 | definition: `int(value)`, or none where `int` raises; characterised by CommandParser.ApplyStores and Numbers.ParseIntOfString |
| CommandParser.Apply | aifr/command_parser.py:42-48 | definition: one loop iteration's store; characterised by CommandParser.ApplyFrame, ApplyStores and ApplyOverwrites |
| CommandParser.Fold | aifr/command_parser.py:36-48 | definition: the writes applied in order to the empty dictionary; characterised by CommandParser.FoldStep and FoldLastWins |
| CommandParser.Collected | aifr/command_parser.py:32-50 | definition: the question alone, or the loop's entries with the prefix rule; characterised by CommandParser.PrefixRule and ParseWithoutMarkers |
| CommandParser.Store | aifr/command_parser.py:37-48 | the lower-cased key names the entry that gets the value |
| CommandParser.ParseWithoutMarkers | aifr/command_parser.py:32-54 | text without a marker is all question, with every other field unset, or the `$ask` error when it is blank |
| CommandParser.ApplyFrame | aifr/command_parser.py:42-48 | a marker writes only the entry it names |
| CommandParser.ApplyStores | aifr/command_parser.py:42-77 | an empty console value stays `""` (stdin), an empty `ask`, `file` or `model` value becomes `None`, and `context_limit` holds what `int()` accepts, `None` otherwise |
| CommandParser.ConsoleAliases | aifr/command_parser.py:37-40 | `cons` and `console` in any case both name the console |
| CommandParser.MarkerUpperCase | aifr/command_parser.py:29 | `$ASK:` is a marker |
| CommandParser.MarkerCons | aifr/command_parser.py:29 | `$cons:` is a marker of four letters |
| CommandParser.MarkerConsole | aifr/command_parser.py:29 | `$Console:` is a marker of seven letters: the longer alternative is tried first |
| CommandParser.LastWrite | aifr/command_parser.py:36-48 | the last write to an entry, and no later one to it |
| CommandParser.FoldLastWins | aifr/command_parser.py:36-48 | the last marker for an entry decides it, and an entry no marker names stays unset |
| CommandParser.ApplyOverwrites | aifr/command_parser.py:42-48 | what a marker stores does not depend on what the entry held |
| CommandParser.PrefixRule | aifr/command_parser.py:35-54 | the text before the first marker is the question only when no non-empty `$ask:` value was given, and a command with neither is refused |
| CommandParser.ParseExample | tests/test_smoke.py:4-8 | `$ask: Test question` parses to the question `Test question` with no file |
| CommandParser.CollectedExample | tests/test_smoke.py:6-8 | the dictionary of that example holds only the question |
| CommandParser.CleanExample | aifr/command_parser.py:22-24 | that example is left alone by the cleaning |
| CommandParser.SplitExample | aifr/command_parser.py:29 | that example splits into `""`, `ask`, `" Test question"` |
| CommandParser.WritesExample | aifr/command_parser.py:36-41 | that example writes the question once |
| CommandParser.MarkerExample | aifr/command_parser.py:29 | that example starts with the `ask` marker |
| CommandParser.NoMarkerIn | aifr/command_parser.py:29 | text without `$` holds no marker |
| AgentController.DetectAgentType | aifr/agent_controller.py:70-129 | each agent is chosen exactly when its rule applies and no earlier rule does: debugger for an error word or console output, coder for a code word about a file, then creative, then summarizer for a summary word, a short prompt about a file or a file over 2000 characters |
| AgentController.DefaultWhenNoRule | aifr/agent_controller.py:128-129 | the general assistant answers exactly when no rule applies |
| AgentController.CoderNeedsFile | aifr/agent_controller.py:104-105 | without a file the coder is never chosen |
| AgentController.Registered | aifr/agent_controller.py:16-67 | every agent type has a prompt and a display name |
| AgentController.SystemPrompt | aifr/agent_controller.py:132-142 | the prompt is the agent's own registered one; the fallback to the default is never taken |
| AgentController.AgentName | aifr/agent_controller.py:145-162 | the name is the agent's own registered one; `Unknown` is never returned |
| AgentController.AgentNamesDistinct | tests/test_agent_controller.py:117-133 | the five names are non-empty, none is `Unknown`, and no two agents share one |
| AgentController.AnyIn | aifr/agent_controller.py:96 | definition: `any(kw in text for kw in keywords)`; characterised by AgentController.KeywordAt and DetectAgentType |
| AgentController.LargeFile | aifr/agent_controller.py:125 | definition: `file_size and file_size > 2000`; characterised by AgentController.DetectAgentType |
| AgentController.WantsSummary | aifr/agent_controller.py:121-126 | definition: a summary keyword, a file with a prompt under 50 characters, or a large file; characterised by AgentController.DetectAgentType and DefaultWhenNoRule |
| AgentController.KeywordAt | aifr/agent_controller.py:96 | a keyword found anywhere in the text makes `any(kw in text ...)` true |
| AgentController.DebuggerExample | tests/test_agent_controller.py:17-20 | `Fix this error` goes to the debugger |
| AgentController.CoderExample | tests/test_agent_controller.py:57-60 | `Review this kod` with a file goes to the coder |
| AgentController.NoDebugKeyword | tests/test_agent_controller.py:57-60 | `review this kod` holds no error word |
| ModelSelector.WholeWord | aifr/model_selector.py:27-28 | definition: `re.search(r"\b(w1...wn)\b", s)`, one word of the group between word boundaries; characterised by ModelSelector.ByKeywords and KeywordPriority |
| ModelSelector.IsSupported | aifr/model_selector.py:50-51 | definition: membership in `AVAILABLE_MODELS`; characterised by ModelSelector.SelectedSupported and LargeContextModel |
| ModelSelector.ByKeywords | aifr/model_selector.py:26-47 | always an available model, and Llama 3.1 exactly when none of the four word groups occurs as a whole word |
| ModelSelector.SelectModel | aifr/model_selector.py:17-47 | a provided non-empty model is returned unchanged; otherwise an available model, Bielik 2.6 for a question about a file |
| ModelSelector.KeywordPriority | aifr/model_selector.py:26-44 | without a model or a file the first group that matches decides, in the order Bielik, creative, dialog, analysis |
| ModelSelector.SelectedSupported | aifr/model_selector.py:17-51 | an automatically chosen model is always supported |
| ModelSelector.LargeContextModel | aifr/model_selector.py:54-56 | the large-context model is supported |
| ModelSelector.LessAsymmetric | aifr/model_selector.py:59-61 | Python's string order is asymmetric |
| ModelSelector.LessTransitive | aifr/model_selector.py:59-61 | Python's string order is transitive |
| ModelSelector.SortedByNeighbours | aifr/model_selector.py:59-61 | a list ordered pair by pair is ordered throughout |
| ModelSelector.SortedUnique | aifr/model_selector.py:59-61 | a set has exactly one strictly increasing listing |
| ModelSelector.AfterHead | aifr/model_selector.py:59-61 | the rest of a sorted list is sorted and lacks its head |
| ModelSelector.AllModels | aifr/model_selector.py:59-61 | the listing holds exactly the available models |
| ModelSelector.AllModelsSorted | aifr/model_selector.py:59-61 | the listing is strictly increasing in Python's string order |
| ModelSelector.Neighbours | aifr/model_selector.py:59-61 | each model in the listing comes before the next |
| ModelSelector.AllModelsIsSorted | aifr/model_selector.py:59-61 | the listing is what `sorted(AVAILABLE_MODELS)` returns: the only strictly increasing listing of the set |
| ModelSelector.LessAt | aifr/model_selector.py:59-61 | two strings agreeing before a position where the first is smaller are in order |
| ShellBlocks.TagLen | aifr/executor.py:24 | a tag found is no longer than the text |
| ShellBlocks.FindAll | aifr/executor.py:24-26 | definition: `findall`, each match's body, each search resuming after the previous match; characterised by ShellBlocks.FindAllBlock, FindAllNoFence and FindAllNoTick |
| ShellBlocks.Cleaned | aifr/executor.py:27-31 | definition: the stripped non-empty matches in order; characterised by ShellBlocks.CleanedExtend and CleanedTrimmed |
| ShellBlocks.Commands | aifr/executor.py:20-33 | definition: what `extract_commands` returns; characterised by ShellBlocks.ExtractCommands, CommandsTrimmed and CommandsNoFence |
| ShellBlocks.FindFrom | aifr/executor.py:24 | the first occurrence of the closing fence from a position on, and none before it |
| ShellBlocks.BlockAt | aifr/executor.py:24 | a match at the start: the fence, a tag, the shortest body and the closing fence |
| ShellBlocks.BlockAtMeaning | aifr/executor.py:24 | a match is a fence, one of `bash`, `sh`, `zsh`, a body holding no fence (non-greedy `.*?` with `DOTALL`), and a fence |
| ShellBlocks.FindAllNoFence | aifr/executor.py:24-26 | text without a fence has no match |
| ShellBlocks.CleanedExtend | aifr/executor.py:28-31 | one more match adds its stripped body when that is not empty |
| ShellBlocks.CleanedSnoc | aifr/executor.py:28-31 | the same step on an appended match |
| ShellBlocks.ExtractCommands | aifr/executor.py:20-33 | the loop returns the stripped non-empty bodies of the matches, in order |
| ShellBlocks.CleanedTrimmed | aifr/executor.py:28-31 | every command kept is non-empty and has no surrounding white space |
| ShellBlocks.CommandsTrimmed | aifr/executor.py:20-33 | the same for every extracted command |
| ShellBlocks.CommandsNoFence | aifr/executor.py:20-33 | text without a fence yields no command |
| ShellBlocks.FindAllNoTick | aifr/executor.py:24-26 | text without a backtick before the rest adds no match |
| ShellBlocks.FindFromAt | aifr/executor.py:24 | the search for the closing fence stops at the first one |
| ShellBlocks.FindAllBlock | aifr/executor.py:24-26 | a tagged block whose body has no backtick is matched whole, and the search resumes after it |
| ShellBlocks.TagLenOf | aifr/executor.py:24 | a text starting with `bash`, `sh` or `zsh` is read as that tag |
| ShellBlocks.FindAllOne | aifr/executor.py:24-26 | one block between texts without backticks is the one match |
| ShellBlocks.FindAllTwo | aifr/executor.py:24-26 | two such blocks are the two matches, in order |
| ShellBlocks.CleanedOne | aifr/executor.py:28-31 | one match gives its stripped body, unless that is empty |
| ShellBlocks.CleanedTwo | aifr/executor.py:28-31 | two matches with non-blank bodies give both stripped bodies, in order |
| ShellBlocks.StripBody | aifr/executor.py:29 | a body on a line of its own strips to that line |
| ShellBlocks.CommandsOne | aifr/executor.py:20-33 | a line without backticks alone in a block is the one command |
| ShellBlocks.CommandsTwo | aifr/executor.py:20-33 | two such blocks give their two lines, in order |
| ShellBlocks.ExtractSingleExample | tests/test_executor.py:15-26 | the single `bash` block of the test gives `ls -la` |
| ShellBlocks.ExtractMultipleExample | tests/test_executor.py:28-43 | an `sh` block and a `bash` block give their commands in order |
| ShellBlocks.ExtractNoneExample | tests/test_executor.py:45-52 | plain text gives no command |
| SafetyGuard.Chars | aifr/executor.py:39-45 | a literal pattern is one atom per character |
| SafetyGuard.MatchAt | aifr/executor.py:50 | definition: the pattern matches a prefix of the text from a position, for some repetition counts; characterised by SafetyGuard.MatchOne, MatchRepeat and CharsMatch |
| SafetyGuard.Search | aifr/executor.py:39-50 | definition: `re.search` finds a match at some position; the five `BLACKLIST` patterns are the constant `SafetyGuard.Blacklist`; characterised by SafetyGuard.Guard and FirstMatch |
| SafetyGuard.FirstMatch | aifr/executor.py:49-51 | the first pattern from a position on that occurs in the command, and none before it |
| SafetyGuard.Guard | aifr/executor.py:47-52 | unsafe, with the warning naming the first pattern found, exactly when some pattern occurs; safe with no warning otherwise |
| SafetyGuard.Check | aifr/executor.py:47-52 | the loop with early return gives that result |
| SafetyGuard.LowerKeepsWord | tests/test_executor.py:60-70 | a lower-case word survives lower-casing of the text around it |
| SafetyGuard.WarningDangerous | aifr/executor.py:51 | every warning says, in any case, that the command is dangerous |
| SafetyGuard.WarningSaysDangerous | aifr/executor.py:49-52 | a refusal always carries such a warning |
| SafetyGuard.CharsMatch | aifr/executor.py:50 | a literal pattern matches where its text occurs |
| SafetyGuard.MkfsRefused | aifr/executor.py:41-51 | any command containing `mkfs` is refused |
| SafetyGuard.MkfsExample | tests/test_executor.py:66-70 | `sudo mkfs.ext4 /dev/sda1` is refused |
| SafetyGuard.MatchOne | aifr/executor.py:50 | one atom matched, then the rest of the pattern |
| SafetyGuard.MatchRepeat | aifr/executor.py:50 | a repeated atom matched over a stretch, then the rest |
| SafetyGuard.RmRootExample | tests/test_executor.py:60-64 | `rm -rf /` is refused |
| SafetyGuard.RmRootTail | aifr/executor.py:40 | ` -rf /` matches the part of the first pattern after `rm` |
| SafetyGuard.FirstCharAbsent | aifr/executor.py:50 | a pattern whose first character does not occur never matches |
| SafetyGuard.SafeExample | tests/test_executor.py:54-58 | `ls -la` passes with no warning |
| SafetyGuard.LsLetters | tests/test_executor.py:54-58 | `ls -la` holds none of the characters the patterns start with |
| SafetyGuard.FirstPieces | aifr/executor.py:39-45 | the character each pattern starts with |
| ShellExecutor.Dashes | aifr/executor.py:123 | `"-" * n` is `n` dashes |
| ShellExecutor.FormatBox | aifr/executor.py:121-124 | the border, the title, the command and the border, joined by newlines |
| ShellExecutor.BoxJoin | aifr/executor.py:124 | the f-string is a newline join of the four parts |
| ShellExecutor.FormatBoxLines | aifr/executor.py:121-124 | a one-line command is shown as exactly four lines: 40 dashes, the title, the command, 40 dashes |
| ShellExecutor.TitleOneLine | aifr/executor.py:124 | the title holds no line break |
| FileLoader.LoadFile | aifr/file_loader.py:57-77 | the content and the path exactly when the file exists, is not sensitive, is at most 5 MiB and has a supported lower-cased suffix; otherwise the error of the first failing check in the order existence, sensitivity, size, suffix |
| FileLoader.SensitiveNeverRead | aifr/file_loader.py:63-67 | an existing sensitive file is refused with its name, whatever its size and suffix |
| FileLoader.SizeLimitInclusive | aifr/file_loader.py:69-70 | the size test is strict: a file of exactly 5 MiB is not refused as too large |
| FileLoader.SuffixIgnoresCase | aifr/file_loader.py:71-72 | a `.TXT` suffix is accepted like `.txt` |
| FileLoader.LowerCharIdempotent | aifr/file_loader.py:43 | lower-casing a character twice is lower-casing it once |
| FileLoader.LowerIdempotent | aifr/file_loader.py:43 | lower-casing a string twice is lower-casing it once |
| FileLoader.SensitiveIgnoresCase | aifr/file_loader.py:41-54 | a file and the same file with its name lower-cased are judged alike |
| FileLoader.IsSensitiveFile | aifr/file_loader.py:41-54 | definition: a pattern occurs in the lower-cased name, or an ancestor directory is named exactly `.ssh`; characterised by FileLoader.PatternInName, SshAncestor and SensitiveIgnoresCase |
| FileLoader.PatternInName | aifr/file_loader.py:46-48 | a name in which any pattern occurs after lower-casing is sensitive |
| FileLoader.SshAncestor | aifr/file_loader.py:50-52 | a file with an ancestor directory named `.ssh` is sensitive whatever its name |
| FileLoader.UpperCaseKeyExample | tests/test_file_loader.py:56-59 | `ID_RSA` is sensitive |
| FileLoader.PemExample | tests/test_file_loader.py:36-39 | `certificate.pem` is sensitive |
| FileLoader.ReadmeExample | tests/test_file_loader.py:46-49 | `/home/user/README.md` is not sensitive |
| FileLoader.UpperSshExample | aifr/file_loader.py:50-52 | the directory test is exact: `config` under `.SSH` is not sensitive |
| SessionStore.PruneMessages | aifr/session_store.py:38-47 | the list itself when it has at most ten messages, otherwise exactly its last ten |
| SessionStore.PruneIdempotent | aifr/session_store.py:38-47 | pruning a pruned list changes nothing |
| SessionStore.Kept | aifr/session_store.py:31-35 | definition: the messages of the items whose role and content are strings, in order; characterised by SessionStore.KeptAppend and KeptFromEntries |
| SessionStore.FilterEntries | aifr/session_store.py:30-35 | the loop fails exactly when some item is not a dictionary; otherwise it keeps, in order, the messages of the items with a string role and a string content |
| SessionStore.KeptAppend | aifr/session_store.py:31-35 | the kept messages of two runs of items are the kept messages of each, in order |
| SessionStore.KeptFromEntries | aifr/session_store.py:32-35 | every kept message comes from an item with that string role and string content |
| SessionStore.LoadOutcome | aifr/session_store.py:19-36 | definition: `load_session` after the file was read; characterised by SessionStore.LoadSession and SaveThenLoad |
| SessionStore.Expired | aifr/session_store.py:25-26 | definition: the timestamp is not a number or is more than two hours old; characterised by SessionStore.ExpiredIsFresh |
| SessionStore.LoadSession | aifr/session_store.py:17-36 | the default session for a missing or undecodable file, for an expired or non-numeric timestamp; a failure for a non-dictionary payload, a truthy non-list `messages` or a non-dictionary item; otherwise the stored budget (6000 by default) and the filtered messages |
| SessionStore.ExpiredIsFresh | aifr/session_store.py:25-27 | a session older than two hours, or without a numeric timestamp, loads as the default |
| SessionStore.EntryEncoded | aifr/session_store.py:56 | a stored message is read back as itself |
| SessionStore.KeptEncoded | aifr/session_store.py:31-35 | every message of a stored list is read back, in order |
| SessionStore.SaveThenLoad | aifr/session_store.py:49-59 | loading what was saved at most two hours earlier gives back the saved budget and the pruned history |
| SessionStore.PayloadFields | aifr/session_store.py:53-57 | each of the three payload keys reads back its own value |
| SessionStore.BoolTimestamp | aifr/session_store.py:26 | a stored `true` passes the timestamp test as the number 1 |
| Cli.FirstIndex | aifr/cli.py:39-41 | the first position of a character, or none exactly when it does not occur |
| Cli.Aliased | aifr/cli.py:35-36 | definition: one alias lookup; characterised by Cli.ResolveModelAlias and AliasNotChased |
| Cli.ResolveModelAlias | aifr/cli.py:26-43 | after one alias lookup, a name without `/` is returned with no provider; otherwise the name is the provider, `/` and the model, with no `/` in the provider |
| Cli.ProviderPrefixUnique | aifr/cli.py:39-41 | any split of the looked-up name into a provider without `/`, `/` and a model is the one returned |
| Cli.AliasNotChased | aifr/cli.py:35-36 | an alias whose target is itself an alias is followed once only |
| Cli.AgentEntry | aifr/cli.py:59-63 | definition: the named agent's entry when the name and the entry are both non-empty; characterised by Cli.ResolveAgentConfig and PartialAgent |
| Cli.ResolveAgentConfig | aifr/cli.py:46-72 | the three defaults without an agent name or without a non-empty entry for it; otherwise each key the entry sets replaces its default |
| Cli.PartialAgent | tests/test_agent_routing.py:45-50 | an entry that sets only the provider keeps the default model and system prompt |
| Cli.Outcomes | aifr/cli.py:90-91 | `load_file` of each path, in order |
| Cli.Collect | aifr/cli.py:90-94 | definition: the file blocks and total length of the files loaded in order, or the first refusal; characterised by Cli.CollectOkIff, CollectOkShape and CollectFirstError |
| Cli.CollectOkIff | aifr/cli.py:90-94 | the files load exactly when each of them loads |
| Cli.CollectOkShape | aifr/cli.py:90-94 | loaded files give one block per file, in order, with the file's name and content, and the total of the contents' lengths |
| Cli.CollectFirstError | aifr/cli.py:90-91 | a refusal is the error of some file all of whose predecessors load |
| Cli.CollectFailed | aifr/cli.py:90-91 | once a file is refused, later files change nothing |
| Cli.TotalOfFiles | aifr/cli.py:93 | when every file loads, the total is the sum of the files' content lengths |
| Cli.LoadBlocks | aifr/cli.py:88-94 | the loop gives the blocks and the total of loading the files in order, or the first refusal |
| Cli.UserMessage | aifr/cli.py:87-113 | definition: what `build_user_message` returns; characterised by Cli.BuildUserMessage, MessageParts and BarePrompt |
| Cli.BuildUserMessage | aifr/cli.py:75-113 | the question line, the file blocks and the console part joined by newlines, or the bare prompt when nothing besides the question is present, with the total length |
| Cli.BarePrompt | aifr/cli.py:111-112 | without files and console input the message is the prompt itself, with total 0 |
| Cli.MessageParts | aifr/cli.py:87-113 | with loaded files or console input the message is the question line, then a block per file in order, then at most one console part |
| Cli.FileBlocks | aifr/cli.py:94 | one block per file, in order, naming the file and wrapping its content |
| CliParser.CombinePrompt | aifr/cli_parser.py:178 | a non-empty `-p`/`--ask` value wins; otherwise the positional prompt as it is |
| CliParser.CombinedNonEmpty | aifr/cli_parser.py:178 | the combined prompt is non-empty exactly when the flag or the positional prompt is |
| CliParser.ValidateArgs | aifr/cli_parser.py:199-217 | accepted without a message exactly when there is a prompt, piped input, the interactive mode or a reset, version or model-list request; otherwise refused with the prompt-required message |
| CliParser.HousekeepingOnly | aifr/cli_parser.py:211-215 | without a prompt, piped input or the interactive mode, a call is accepted exactly when it resets, prints the version or lists the models |
| CliParser.OtherFlagsIgnored | aifr/cli_parser.py:199-217 | the file, model, stats, raw and RAG options do not affect validation |
| Markdown.RetroColorsInRange | aifr/markdown_renderer.py:9-15 | every palette colour has three channels within 0..255 |
| Markdown.RetroColorsDefined | tests/test_markdown_renderer.py:51-60 | cyan, yellow, coral, red and brown are all in the palette |
| Markdown.RgbToAnsi | aifr/markdown_renderer.py:18-20 | definition: `ESC[38;2;r;g;bm`; characterised by Markdown.RgbToAnsiInjective and RgbExample |
| Markdown.RgbToAnsiInjective | aifr/markdown_renderer.py:18-20 | two colours with the same foreground escape code are the same colour: the code determines each channel |
| Markdown.RgbExample | tests/test_markdown_renderer.py:19-28 | the foreground and background escapes of 255, 128, 64 are `ESC[38;2;255;128;64m` and `ESC[48;2;255;128;64m` |
| Markdown.NumberExample | aifr/markdown_renderer.py:20 | 255, 128 and 64 are written as their decimal digits |
| Markdown.CodesExample | tests/test_markdown_renderer.py:31-48 | reset, bold, italic and dim are `ESC[0m`, `ESC[1m`, `ESC[3m`, `ESC[2m`, all different |
| Markdown.Repeat | aifr/markdown_renderer.py:100 | `'#' * level` has `level` characters, all `#` |
| Markdown.LeadingRun | aifr/markdown_renderer.py:95 | the length of the longest prefix made of one character |
| Markdown.Header | aifr/markdown_renderer.py:95-98 | definition: the level and text of `^(#{1,6})\s+(.+)$`; characterised by Markdown.HeaderMatches, HeaderGroups and HeaderOfShape |
| Markdown.HeaderMatches | aifr/markdown_renderer.py:95-96 | a header is found exactly when the line is one to six `#`, whitespace and at least one more character |
| Markdown.HeaderGroups | aifr/markdown_renderer.py:95-98 | the level is the whole run of `#` and the text is the longest non-empty tail after the whitespace |
| Markdown.HeaderOfShape | aifr/markdown_renderer.py:95-98 | `#`s, blank space and a text not starting with whitespace give that level and that text |
| Markdown.DropWhileBlank | aifr/markdown_renderer.py:95 | leading whitespace is skipped up to the first other character |
| Markdown.SevenHashes | aifr/markdown_renderer.py:95 | a line starting with seven `#` is not a header |
| Markdown.LineStep | aifr/markdown_renderer.py:74-105 | definition: `_render_line` as a function of the code-block state; characterised by Markdown.FenceToggles, CodeVerbatim, HeaderRendered and OpeningFence |
| Markdown.FenceToggles | aifr/markdown_renderer.py:77-87 | a fence line flips the code-block flag; opening records the non-empty language or none, closing forgets it |
| Markdown.CodeVerbatim | aifr/markdown_renderer.py:90-92 | inside a block a non-fence line is kept as it is, in the code colour, and the state is unchanged |
| Markdown.HeaderRendered | aifr/markdown_renderer.py:94-100 | outside a block a header renders as bold cyan `#`s, one space and its text |
| Markdown.StripLeading | aifr/markdown_renderer.py:77 | a line starting with `#` is not a fence line |
| Markdown.OpeningFence | aifr/markdown_renderer.py:77-83 | a fence and a trimmed language open a block with that language, or with none for an empty one |
| Markdown.CodeLangOf | aifr/markdown_renderer.py:80 | the language of a fence and trimmed text is that text, or none when it is empty |
| Markdown.FenceStripped | aifr/markdown_renderer.py:77 | a fence followed by trimmed text is unchanged by stripping |
| Markdown.ClosingFence | aifr/markdown_renderer.py:84-87 | a bare fence inside a block returns the renderer to its initial state |
| Markdown.CodeBlockStateExample | tests/test_markdown_renderer.py:227-241 | `` ```python `` opens a Python block and `` ``` `` closes it |
| Markdown.Scan | aifr/markdown_renderer.py:68-70 | one output per line |
| Markdown.ScanAt | aifr/markdown_renderer.py:68-70 | each output is the step on its line in the state left by the lines before it |
| Markdown.ScanStep | aifr/markdown_renderer.py:68-70 | one more line appends its output and moves to its new state |
| Markdown.RenderLines | aifr/markdown_renderer.py:68-70 | one rendered line per input line |
| Markdown.RenderLinesAt | aifr/markdown_renderer.py:68-70 | each rendered line is its input line rendered in the state left by the lines before it |
| Markdown.RenderLinesStep | aifr/markdown_renderer.py:68-70 | rendering one more line appends its rendering and moves to its new state |
| Markdown.MarkdownRenderer.constructor | aifr/markdown_renderer.py:51-53 | a new renderer is outside any code block, with no language |
| Markdown.MarkdownRenderer.RenderLine | aifr/markdown_renderer.py:74-105 | the rendered line and the new flag and language are those of the line step from the old state |
| Markdown.MarkdownRenderer.Render | aifr/markdown_renderer.py:55-72 | the lines of the text rendered in order from the current state, joined by newlines, with the state the last line leaves |
| Markdown.RenderMarkdown | aifr/markdown_renderer.py:152-163 | the text rendered from the initial state, so nothing carries over between calls |
| Markdown.RenderEmpty | tests/test_markdown_renderer.py:184-187 | the empty text renders as the empty text |
| Markdown.OneLineConcat | aifr/markdown_renderer.py:65 | two strings joined have no newline exactly when neither has one |
| Markdown.OneLineSlice | aifr/markdown_renderer.py:65 | a slice of a newline-free string is newline-free |
| Markdown.OneLineStrip | aifr/markdown_renderer.py:77 | stripping keeps a string newline-free |
| Markdown.OneLineNumber | aifr/markdown_renderer.py:20 | a written integer has no newline |
| Markdown.OneLineAnsi | aifr/markdown_renderer.py:20 | a colour escape has no newline |
| Markdown.OneLineCodes | aifr/markdown_renderer.py:28-45 | the plain codes and the marker texts have no newline |
| Markdown.OneLineRepeat | aifr/markdown_renderer.py:100 | a repeated non-newline character has no newline |
| Markdown.LineStepOneLine | aifr/markdown_renderer.py:74-105 | a newline-free line renders as a newline-free line when the inline step keeps it so |
| Markdown.RenderLinesOneLine | aifr/markdown_renderer.py:68-70 | newline-free lines give newline-free rendered lines |
| Markdown.RenderedLines | aifr/markdown_renderer.py:55-72 | when the inline step keeps lines whole, the output splits back into exactly one rendered line per input line |
| Output.ShouldColorize | aifr/output.py:10-14 | definition: not raw and on a terminal; characterised by Output.ColorizeCases |
| Output.ColorizeCases | aifr/output.py:10-14 | colours exactly when not in raw mode and on a terminal |
| Output.PiecesFrom | aifr/output.py:51-53 | definition: the slices `text[idx : idx + size]` from a position on; characterised by Output.PiecesConcat and PiecesShape |
| Output.PiecesConcat | aifr/output.py:51-53 | the pieces from a position put back together are the text from that position |
| Output.PiecesShape | aifr/output.py:51-53 | all pieces but the last are full and the last is non-empty and at most full; there are none exactly when the start is at or past the end |
| Output.Chunk | aifr/output.py:51-53 | a zero size is refused, a negative one gives no piece, a positive one gives full pieces and a shorter non-empty last one that put back together give the text, and none exactly for the empty text |
| Output.ShortTextOnePiece | aifr/output.py:51-53 | a non-empty text no longer than the size is one piece |
| Output.PrintChunks | aifr/output.py:17-30 | nothing for an empty text; the text itself when not colouring; otherwise pieces whose concatenation is the rendered text, refused exactly for a zero piece size |
| Output.RawSkipsRender | tests/test_output.py:24-40 | in raw mode the output does not depend on the renderer and is the original text |
| Output.TokenFieldsShape | aifr/output.py:39-45 | one field per present count, input, output and total, each in its place |
| Output.UsageLine | aifr/output.py:39-48 | definition: the summary line; characterised by Output.UsageSummary, UsageWithoutCounts, UsageWithAllCounts and UsageStartsWithModel |
| Output.UsageSummary | aifr/output.py:33-48 | the line is the model field and the present counts, or the no-data notice, joined by a space, a bar and a space |
| Output.UsageWithoutCounts | aifr/output.py:46-48 | without counts the line is the model and the no-data notice |
| Output.UsageWithAllCounts | aifr/output.py:39-48 | with all counts the line lists input, output and total in that order |
| Output.JoinFour | aifr/output.py:48 | four parts joined are the parts with the separator between each two |
| Output.UsageStartsWithModel | aifr/output.py:48 | the line starts with the model and the separator, and something follows |
| Output.JoinHeadPrefix | aifr/output.py:48 | a join starts with its first part |
| Text.LowerChar | aifr/agent_controller.py:88 | an ASCII capital becomes its lower-case letter and every other ASCII character is unchanged |
| Text.Lower | aifr/model_selector.py:21 | the same length, each character lower-cased |
| Text.LowerConcat | aifr/rag.py:155 | lower-casing two strings joined is joining them lower-cased |
| Text.DropWhile | aifr/command_parser.py:22 | stripping the left leaves a suffix of the text |
| Text.DropWhileEnd | aifr/command_parser.py:22 | stripping the right leaves a prefix of the text |
| Text.DropWhileShape | aifr/command_parser.py:22 | exactly the longest prefix of whitespace is dropped |
| Text.DropWhileEndShape | aifr/command_parser.py:22 | exactly the longest suffix of whitespace is dropped |
| Text.StripEmptyIffBlank | aifr/rag.py:39-40 | `strip()` is empty exactly when the text is whitespace only |
| Text.StripStartsAtFirstNonSpace | aifr/rag.py:39-42 | the stripped text starts with the first non-whitespace character |
| Text.StripTrimmed | aifr/executor.py:29 | text with no whitespace at either end is unchanged by stripping |
| Text.StripLeadingSpace | aifr/command_parser.py:33 | one leading whitespace character before trimmed text is removed |
| Text.StripEnds | aifr/command_parser.py:22 | the stripped text has no whitespace at either end |
| Text.StripAround | aifr/command_parser.py:41 | one whitespace character on each side of trimmed text is removed |
| Text.DropWhileFirst | aifr/command_parser.py:22 | a leading whitespace character does not change what stripping the left leaves |
| Text.DropWhileStop | aifr/command_parser.py:22 | text starting with a non-whitespace character is unchanged by stripping the left |
| Text.DropWhileEndLast | aifr/command_parser.py:22 | a trailing whitespace character does not change what stripping the right leaves |
| Text.DropWhileEndStop | aifr/command_parser.py:22 | text ending with a non-whitespace character is unchanged by stripping the right |
| Joins.JoinCons | aifr/cli.py:113 | joining a part in front of a non-empty list puts the part and the separator in front |
| Joins.JoinAppend | aifr/cli.py:113 | joining two non-empty lists is joining each with the separator between |
| Joins.Split | aifr/markdown_renderer.py:65 | splitting gives at least one piece |
| Joins.SplitAtSeparator | aifr/markdown_renderer.py:65 | a leading separator gives an empty first piece |
| Joins.SplitPastChar | aifr/markdown_renderer.py:65 | a leading character that starts no separator belongs to the first piece |
| Joins.JoinSplit | aifr/markdown_renderer.py:65-72 | joining the pieces of a split with the same separator gives the text back |
| Joins.JoinSplitAtSeparator | aifr/markdown_renderer.py:65-72 | the round trip holds for a text starting with the separator when it holds for the rest |
| Joins.JoinSplitPastChar | aifr/markdown_renderer.py:65-72 | the round trip holds for a text starting with another character when it holds for the rest |
| Joins.JoinExtendFirst | aifr/markdown_renderer.py:72 | a character in front of the first part is in front of the join |
| Joins.SplitWithoutSeparator | aifr/markdown_renderer.py:65 | a text without the one-character separator is one piece |
| Joins.SplitJoin | aifr/markdown_renderer.py:65-72 | splitting a newline join of pieces without newlines gives the pieces back |
| Joins.SplitPrefix | aifr/markdown_renderer.py:65 | a separator-free first part followed by the separator is the first piece |
| Joins.SplitPiecesFree | aifr/markdown_renderer.py:65 | no piece of a one-character split contains that character |
| Joins.SplitBlank | aifr/rag.py:123-124 | every piece of a split of blank text is blank |
| Lines.LineEnd | aifr/rag.py:38 | the position of the first line break, or the length when there is none |
| Lines.SplitLines | aifr/rag.py:38 | no line for the empty text and never one holding a line break |
| Lines.SplitLinesOfJoin | aifr/rag.py:45 | splitting a newline join of break-free lines, the last non-empty, gives the lines back |
| Lines.LineEndIs | aifr/rag.py:38 | the first line break found is the one at the given position |
| Seqs.FilterShape | aifr/rag.py:156 | what a filtered comprehension keeps passes the test and comes from the input |
| Seqs.FilterAppend | aifr/rag.py:156 | filtering two lists joined is joining them filtered |
| Seqs.FilterAll | aifr/rag.py:156 | when every element passes, the list is kept whole |
| Seqs.FilterNone | aifr/rag.py:156 | when no element passes, nothing is kept |
| Seqs.FilterIdempotent | aifr/rag.py:156 | filtering twice by the same test is filtering once |
| Seqs.FilterMember | aifr/rag.py:156 | an element is kept exactly when it is in the input and passes |
| Seqs.ConcatAppend | aifr/output.py:29-30 | flattening two lists of pieces joined is joining them flattened |
| Seqs.PyDrop | aifr/context.py:48 | `s[i:]` is a suffix: a negative `i` keeps the last `-i` elements, or all; a non-negative one drops the first `i` |
| CharRuns.RunLen | aifr/rag.py:155 | the length of the longest prefix of class characters |
| CharRuns.RunLenOfCut | aifr/rag.py:155 | a non-class character ends the first run |
| CharRuns.RunsCut | aifr/rag.py:155 | a non-class character separates the runs before it from those after it |
| CharRuns.RunsShape | aifr/rag.py:155-156 | every run is non-empty and made of class characters only |
| CharRuns.RunsSkip | aifr/rag.py:155 | a leading non-class character is skipped |
| CharRuns.RunsTake | aifr/rag.py:155 | a leading class character starts the first run, as long as the class lasts |
| CharRuns.RunsOfRun | aifr/rag.py:155 | a non-empty text of class characters is one run |
| CharRuns.RunLenAll | aifr/rag.py:155 | a text of class characters is one prefix run |
| Numbers.DigitChar | aifr/output.py:41 | a digit value gives a digit character |
| Numbers.IntToString | aifr/output.py:41 | definition: `str(n)`, a `-` before the digits of a negative number; characterised by Numbers.ParseIntOfString |
| Numbers.NatToString | aifr/output.py:41 | a natural number is written as a non-empty string of digits |
| Numbers.DigitsValueOfNat | aifr/command_parser.py:75 | the digits of a number have that number as value |
| Numbers.StripNoSpace | aifr/command_parser.py:75 | text without whitespace is unchanged by stripping |
| Numbers.DigitNotSpace | aifr/command_parser.py:75 | digits and the minus sign are not whitespace |
| Numbers.ValidDigitsOfNat | aifr/command_parser.py:75 | written numbers are in `int()` syntax |
| Numbers.NatStringNoSpace | aifr/command_parser.py:75 | written numbers hold no whitespace |
| Numbers.NatStringStripped | aifr/command_parser.py:75 | written numbers are unchanged by stripping |
| Numbers.ParseInt | aifr/command_parser.py:71-77 | definition: `int(s)` on ASCII text, or none where it raises `ValueError`; characterised by Numbers.ParseIntOfString and ParseIntOfNegative |
| Numbers.ParseIntUnsigned | aifr/command_parser.py:71-77 | stripped unsigned digits parse to their value |
| Numbers.ParseIntOfNat | aifr/command_parser.py:71-77 | a written natural number parses back to itself |
| Numbers.ParseIntOfNegative | aifr/command_parser.py:71-77 | a minus sign and a written number parse to its negation |
| Numbers.ParseIntOfString | aifr/command_parser.py:71-77 | `int(str(n)) == n` for every integer |
| CommandParser.RestExample | aifr/command_parser.py:29 | the text after the `$ask:` marker of that example holds no marker and is one part |
| ModelSelector.FirstLetterOrder | aifr/model_selector.py:59-61 | strings whose first characters differ are in the order of those characters |
| ModelSelector.BielikOrder | aifr/model_selector.py:59-61 | Bielik 2.3 comes before Bielik 2.6 |
| ModelSelector.LlamaOrder | aifr/model_selector.py:59-61 | Llama 3.1 comes before Llama 3.3 |

## Left out

- Files, directories, the clock, the terminal and the network are not modelled:
  - the directory scan of `index_files` (`glob`, `is_file`, `open`), aifr/rag.py:168-183: the engine is given the files as (path, content) pairs in scan order;
  - the `except Exception: continue` of `index_files`, aifr/rag.py:203-204, because no modelled step raises;
  - the reads and writes of aifr/session_store.py, `time.time()` and `clear_session`: `load_session` takes the decoded file and the current time as inputs;
  - the output of `print`: a print is modelled by the string it is given, and `sys.stdout.isatty()` is the parameter `isTty`.
- Floating point: BM25 scores, `_idf` and `avg_dl` are real numbers, and `math.log` is the parameter `ln`, of which the lemmas require only that `ln x > 0` for `x > 1`. No numeric value of a score is proved.
- Engine.RagEngine.constructor: requires `k1 >= 0` and `0 <= b <= 1`, which the defaults 1.5 and 0.75 satisfy. Other parameters can make a BM25 denominator zero, and the `ZeroDivisionError` Python then raises is not modelled.
- Bm25.AccumulateScore: requires the query to be scorable, with no zero denominator. For this reason it does not model the `ZeroDivisionError` either.
- Text.LowerChar: lower-cases ASCII letters and the Polish capitals Ą Ć Ę Ł Ń Ó Ś Ź Ż only. Other non-ASCII characters are left unchanged, unlike Python's full Unicode `lower()`.
- ModelSelector.IsWordChar: approximates `\w` as ASCII letters, digits, `_` and the Polish letters. Python's `\w` matches every Unicode letter and digit.
- `int()` accepts ASCII digits with an optional sign, single underscores and surrounding whitespace. Unicode digits are not modelled.
- The inline Markdown substitutions of `_render_inline` (code, bold, italic, links, bullets), aifr/markdown_renderer.py:107-149, use regular expressions with look-arounds. They are taken as a parameter `inline`.
- Markdown.Header: its pattern is stated for the lines `render` produces, which never contain `\n`. How `$` and `\s` treat embedded newlines in a line given directly to `_render_line` is not modelled.
- `stream_display` and `StreamMarkdownRenderer`, aifr/output.py:56-75: the streaming renderer it imports is not part of this model.
- Output.Chunk: `_chunk` is a generator. Its laziness is not modelled: the pieces are a list, and the `ValueError` of a zero step is `None`.
- The interactive and subprocess parts of the executor, `confirm_and_execute`, `_process_command` and `run_command` (aifr/executor.py:60-119), depend on `input()` and `subprocess`.
- Cli.ResolveAgentConfig: the `sys.stderr.write` warning for an agent name without a configuration entry (aifr/cli.py:63-64) is not modelled; only the defaults it returns are.
- FileLoader.LoadFile: `Path.expanduser()` (aifr/file_loader.py:58) is not modelled, since the record is of the file already found. A `read_text` error other than `UnicodeDecodeError`, such as `PermissionError` (aifr/file_loader.py:73-76), is not modelled either: the record's text is what was read.
- CommandParser.KeyAt: `re.IGNORECASE` also matches the Unicode case variants `ſ` for `s`, `ı` for `i` and the Kelvin sign for `k` (aifr/command_parser.py:29). The model matches the keyword letters through Text.LowerChar, so these variants are not markers in the model.
- FileLoader.LoadFile: the file record gives the names of the ancestor directories, the size and the text that `read_text` returns. The `UnicodeDecodeError` fallback, which rereads with `errors="ignore"`, is therefore folded into the given text.
- Cli.BuildUserMessage: it takes the files' records and the console command's output as inputs instead of reading them. `file_paths=None` is the empty list, and `get_console_context` is not modelled.
- Cli.ResolveAgentConfig: the values of an agent's configuration are taken to be strings, as the type annotation says. Other JSON values are not modelled.
- SessionStore.SaveThenLoad: it assumes that `json.dumps` followed by `json.loads` gives back the payload. The stored timestamp is a real.
- The fallbacks `AGENT_PROMPTS[DEFAULT]` and `"Unknown"` are never used, because every agent type is registered. AgentController.Registered proves this.
- `process_request` and `main` in aifr/cli.py, and aifr/cli_old.py, only orchestrate calls and the interactive loop.
- The argparse construction in `create_parser`, aifr/cli_parser.py:30-158, is library behaviour.
- aifr/providers.py, aifr/api.py, aifr/terminal_capture.py and aifr/gradient_display.py are not part of this model: they are HTTP clients, a TTY capture and float colour interpolation. Of aifr/config.py, only the constants are used.

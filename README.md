# Review trend pipeline — a verified model

This project models the core of a review-analysis pipeline for a food
delivery app. The pipeline turns a date range of app-store reviews into a
table of how often each issue topic was raised on each day. It has four
stages:

- **Preprocessor** (`Preprocessor`, preprocessor.dfy). `clean_text`
  normalises one review's text: it removes markup tags and URLs, collapses
  whitespace, drops unsupported characters, drops one-letter words,
  lower-cases, and discards results shorter than 10 characters.
  `load_daily_reviews` keeps, in file order, the reviews whose cleaned text
  is not empty.
- **Topic analyzer** (`TopicAnalyzer`, topic_analyzer.dfy). The class
  `AgenticTopicAnalyzer` sends a day's reviews to a language model in
  batches. It builds the prompt, recovers JSON from the reply, and makes
  sure every analysis has a topic. It falls back to "General feedback" for
  the whole batch when the call, or the handling of its result inside the
  `try`, raises. It grows a vocabulary of canonical topics, which starts as
  the seed topics.
- **Deduplicator** (`Deduplicator`, deduplicator.dfy). The class
  `OptimizedTopicDeduplicator` sends the collected labels in chunks of 20.
  It asks the model to group synonymous labels, strips Markdown code fences
  from the reply, and turns the groups into a label → canonical-name map.
  The maps of all chunks are merged.
- **Report generator** (`ReportGenerator`, report_generator.dfy). The class
  `TrendReportGenerator` walks the days of the range and analyses every
  day that has reviews. It deduplicates all labels once, then adds each
  (day, label) occurrence to a running nested count map. The trend table
  has one row per canonical topic and one column per day, sorted by row
  total. `save_report` refuses an empty table and names the output file.

### How the outside world is modelled

- The language model is an **oracle** `client: nat -> Reply`. The reply to
  the n-th call an object makes (counting from 0) is `client(n)`. A reply is
  `Raised` (the call threw) or `Text(content)`. Each class records the
  prompts it has sent in a `prompts` sequence, so the length of that
  sequence numbers the calls.
- `json.loads` is a function parameter `decode`. It yields `None` for text
  that is not JSON. A decoded value on which the handling inside the `try`
  raises is `NotRecord` (analyzer) or `Unshaped` (deduplicator). Decoded
  values that make the program raise later, outside every `try`, are not
  modelled (see "Left out").
- A day's review file is a `DayFile` value: `NotFound`, `Undecodable` or
  `Records(raws)`. The report generator reads files through a
  `store: Day -> DayFile`.
- Days are day numbers (`int`). The seed topics, both oracles and both
  decoders are gathered in an `Environment` value.

Helper modules: `Wrappers` (Option), `Llm` (the reply datatype), `Seqs`
(flattening, slicing, enumerating a set, sums, in-order selection) and
`Strings` (Python-like `strip`, `split`, `join`, decimal rendering).

## Model

| member | source | states |
|---|---|---|
| Preprocessor.CleanText | src/preprocessor.py:10-39 | the result is not empty exactly when the input is a non-empty text whose rewriting has at least 10 characters, and then it is that rewriting |
| Preprocessor.CleanTextKeepsCleanJoin | src/preprocessor.py:10-39 | lower-case, permitted words longer than one character, joined by single spaces into at least 10 characters, come back from cleaning unchanged |
| Preprocessor.CleanTextLength | src/preprocessor.py:12-39 | `None` or `""` gives `""`; any other result is empty or at least 10 characters long |
| Preprocessor.CleanTextWords | src/preprocessor.py:28-30 | a non-empty result is the single-space join of its own words, and every word is longer than one character |
| Preprocessor.CleanTextSpacing | src/preprocessor.py:28-33 | the result has no leading or trailing whitespace, and its words are separated by exactly one space |
| Preprocessor.CleanTextCharset | src/preprocessor.py:25-33 | every character is a word character, a space or one of `.,!?-`; there are no capitals, no `<` and no `>` |
| Preprocessor.KeptExcludes | src/preprocessor.py:25 | text made only of permitted characters has no `<`, `>` or `:`, so no tag or URL can survive |
| Preprocessor.CleanTextShape | src/preprocessor.py:25-33 | a non-empty result is a single-space join of lower-case, permitted, space-free words longer than one character |
| Preprocessor.NormalizedJoinsCleanWords | src/preprocessor.py:16-33 | the rewriting always produces a single-space join of such clean words |
| Preprocessor.CleanTextIdempotent | src/preprocessor.py:10-39 | cleaning an already cleaned text changes nothing |
| Preprocessor.TagLength | src/preprocessor.py:16 | the match of `<[^>]+>` at the start: it is non-empty exactly when a `<`, then a character other than `>`, and a later `>` are present; it ends at the first `>` |
| Preprocessor.UrlLength | src/preprocessor.py:19 | a URL match starts with `http://` or `https://` and lies within the text |
| Preprocessor.UrlRunSpec | src/preprocessor.py:19 | the greedy run consists of URL characters and stops at the first other character |
| Preprocessor.UrlLengthSpec | src/preprocessor.py:19 | the match is the scheme followed by the longest run of URL characters, which is not empty; there is no match exactly when no `http://` or `https://` is followed by a URL character |
| Preprocessor.KeepPermitted | src/preprocessor.py:25 | what the character-class removal leaves contains only permitted characters |
| Preprocessor.KeepPermittedSpec | src/preprocessor.py:25 | the removal keeps, in their order, exactly the permitted characters: a character is kept if and only if it is permitted |
| Preprocessor.Words | src/preprocessor.py:28 | `split()` yields non-empty words without whitespace, and permitted text gives permitted words |
| Preprocessor.WordsAtSpace | src/preprocessor.py:28 | any whitespace character splits the text: the words are those before it followed by those after it |
| Preprocessor.WordsOfToken | src/preprocessor.py:28 | a non-empty text without whitespace is one word; with WordsAtSpace this makes the words the maximal non-space runs, in order |
| Preprocessor.LongWords | src/preprocessor.py:29 | only input words longer than one character are kept, and the list is unchanged when all of them qualify |
| Preprocessor.LongWordsSpec | src/preprocessor.py:29 | the filter keeps, in their order, exactly the words longer than one character: a word is kept if and only if it has more than one character |
| Preprocessor.LowerChar | src/preprocessor.py:33 | lower-casing leaves no capital, keeps whitespace and permitted characters as they are, and fixes every non-capital |
| Preprocessor.Process | src/preprocessor.py:50-64 | one review gives one processed entry exactly when its cleaned text is not empty; the entry has the same date, score and id, the original content and the cleaned text |
| Preprocessor.PreprocessKeeps | src/preprocessor.py:49-64 | the kept list is the in-order subsequence of the raw reviews whose cleaned text is not empty, each entry processed from its raw review |
| Preprocessor.PreprocessCleaned | src/preprocessor.py:50-60 | every kept entry's cleaned text is the non-empty cleaning of its original content |
| Preprocessor.LoadDailyReviews | src/preprocessor.py:41-74 | the loop returns the kept list of the file's records, and no reviews when the file is missing or undecodable |
| Strings.Strip | src/preprocessor.py:33 | `strip()` leaves no whitespace at either end and leaves alone a text that has none there |
| Strings.StripSpec | src/preprocessor.py:33 | `strip()` keeps one infix of the text and removes only whitespace before and after it |
| Strings.TrimStartSpec | src/preprocessor.py:33 | stripping the start keeps a suffix and removes only whitespace |
| Strings.TrimEndSpec | src/preprocessor.py:33 | stripping the end keeps a prefix and removes only whitespace |
| TopicAnalyzer.AgenticTopicAnalyzer.constructor | src/topic_analyzer.py:9-15 | the vocabulary starts as the set of seed topics, no call has been made, and the fixed text of every prompt is the source's |
| TopicAnalyzer.TopicLinesRoundTrip | src/topic_analyzer.py:20 | the topic block splits back into one `- topic` line per existing topic |
| TopicAnalyzer.ReviewContent | src/topic_analyzer.py:54 | the quoted content is a prefix of the cleaned text of length min(200, its length), or the placeholder `No content` when the text is empty |
| TopicAnalyzer.ReviewLines | src/topic_analyzer.py:53-55 | there is one review line per review of the batch |
| TopicAnalyzer.AgenticTopicAnalyzer.CreateTopicExtractionPrompt | src/topic_analyzer.py:17-57 | the loop builds the fixed text with the topic lines, followed by one `Review i (ID: id): "content"` line per review, numbered from 1 in batch order |
| TopicAnalyzer.BraceSpanSpec | src/topic_analyzer.py:67 | the DOTALL match of `\{.*\}` is the first `{` and the last `}`, and there is no match exactly when no `{` precedes a `}` |
| TopicAnalyzer.BraceSpanUnique | src/topic_analyzer.py:67 | any span from the first `{` to the last `}` is the match |
| TopicAnalyzer.ExtractJsonRecovery | src/topic_analyzer.py:59-80 | a successful direct parse of the stripped reply wins; otherwise the text from its first `{` to its last `}` is stripped and parsed once; if that fails, or no `{` precedes a `}`, the result is the empty record |
| TopicAnalyzer.Coerced | src/topic_analyzer.py:111-115 | validation keeps the number of analyses |
| TopicAnalyzer.Fallback | src/topic_analyzer.py:132-137 | there is one fallback analysis per review |
| TopicAnalyzer.FallbackAppend | src/topic_analyzer.py:132-137 | the fallback of a concatenation is the concatenation of the fallbacks |
| TopicAnalyzer.SettledHasTopics | src/topic_analyzer.py:108-139 | whatever the reply, every returned analysis has at least one topic |
| TopicAnalyzer.SettledEmptyBatch | src/topic_analyzer.py:85-86 | an empty batch gets the empty result |
| TopicAnalyzer.SettledRaised | src/topic_analyzer.py:123-139 | when the call raises, there is one analysis per review, in order, each with that review's id, `General feedback` and confidence 0.5, and there are no new topics |
| TopicAnalyzer.SettledUndecodable | src/topic_analyzer.py:63-80 | a reply whose stripped text and whose first-`{`-to-last-`}` span both fail to parse gives no analyses, not one per review |
| TopicAnalyzer.SettledValidates | src/topic_analyzer.py:108-121 | a decoded result keeps its analyses in order; analyses with topics are unchanged, and the others become `General feedback` with confidence 0.5; new topics and mappings pass through |
| TopicAnalyzer.ValidateAnalyses | src/topic_analyzer.py:111-115 | the in-place loop over the analyses computes the validated list |
| TopicAnalyzer.FallbackAnalyses | src/topic_analyzer.py:126-139 | the append loop computes the fallback list |
| TopicAnalyzer.AgenticTopicAnalyzer.ExtractTopicsWithLlm | src/topic_analyzer.py:82-139 | the result is the one settled by the next reply. The vocabulary grows by exactly the new topics. An empty batch makes no call; otherwise exactly one prompt is sent, listing the old vocabulary in some order |
| TopicAnalyzer.AgenticTopicAnalyzer.SendPrompt | src/topic_analyzer.py:88-97 | the prompt for the batch, listing the current vocabulary in some order, is recorded as the next call; the vocabulary is unchanged |
| TopicAnalyzer.SettleReply | src/topic_analyzer.py:103-139 | parsing the reply, then validating its analyses or falling back to one sentinel analysis per review, gives the settled result |
| TopicAnalyzer.DayAnalysesHaveTopics | src/topic_analyzer.py:155-164 | every analysis of a day has a topic |
| TopicAnalyzer.DayVocabularyGrows | src/topic_analyzer.py:118-119 | the vocabulary never shrinks over a day |
| TopicAnalyzer.DayAnalysesAllRaised | src/topic_analyzer.py:123-164 | when every call raises, the day's analyses are the fallback of all its reviews, and no topic is learnt |
| TopicAnalyzer.DayBatchesCover | src/topic_analyzer.py:155-156 | the batches are non-empty consecutive slices of at most `batch_size` reviews, all full except the last, and together they are the day's reviews in order |
| TopicAnalyzer.DayAllRaised | src/topic_analyzer.py:141-164 | when every call raises, the day gets one fallback analysis per kept review, in order |
| TopicAnalyzer.DayStep | src/topic_analyzer.py:155-164 | the first batch's settled analyses come first among the day's, and its new topics join the vocabulary before the later batches are handled |
| TopicAnalyzer.BatchStep | src/topic_analyzer.py:155-162 | the batch from `i` to `min(i + batch_size, n)` is the first of the remaining slices: what the remaining batches add is its settled analyses, then what the later batches add from the next call on; one call fewer remains |
| TopicAnalyzer.AgenticTopicAnalyzer.ProcessDailyReviews | src/topic_analyzer.py:141-167 | the day's result is the concatenation of each batch's settled analyses, the n-th batch answered by the n-th next reply. The vocabulary is the old one grown batch by batch. One call is made per batch |
| TopicAnalyzer.AgenticTopicAnalyzer.AnalyzeBatches | src/topic_analyzer.py:155-164 | the batch loop concatenates the settled analyses and makes one call per batch |
| TopicAnalyzer.AgenticTopicAnalyzer.AdvanceBatch | src/topic_analyzer.py:155-162 | one pass of the batch loop: the analyses so far followed by what the remaining batches add stay the day's analyses, and likewise for the vocabulary and the number of calls |
| TopicAnalyzer.AgenticTopicAnalyzer.AnalyzeBatch | src/topic_analyzer.py:156-162 | the batch from `i` is handled by one call: its settled analyses are appended and its new topics join the vocabulary |
| Deduplicator.OptimizedTopicDeduplicator.constructor | src/deduplicator.py:9-12 | no call has been made |
| Deduplicator.NumberedLinesRoundTrip | src/deduplicator.py:21 | the label block splits back into one `i. label` line per label |
| Deduplicator.JsonFencedRoundTrip | src/deduplicator.py:66-76 | a reply fenced as "```json" … "```" gives back its stripped body |
| Deduplicator.PlainFencedRoundTrip | src/deduplicator.py:66-76 | a reply fenced as "```" … "```" gives back its stripped body |
| Deduplicator.UnfencedIsStripped | src/deduplicator.py:66-76 | a reply without fences is only stripped |
| Deduplicator.CleanFences | src/deduplicator.py:66-76 | the step-by-step reassignment of `content` computes the fence stripping |
| Deduplicator.AssignMembersSpec | src/deduplicator.py:86-89 | a label gets the group's name exactly when an in-range 1-based member index selects it; every other label keeps its earlier mapping |
| Deduplicator.GroupsMappingSpec | src/deduplicator.py:80-91 | a label is mapped exactly when some group claims it, and then to the name of the last group that claims it |
| Deduplicator.GroupsMappingKeys | src/deduplicator.py:86-89 | every key is one of the chunk's labels |
| Deduplicator.GroupsToTaxonomy | src/deduplicator.py:81-91 | the nested loop over groups and members computes that mapping |
| Deduplicator.ChunkMappingSpec | src/deduplicator.py:14-95 | five labels or fewer, or a call that raises, give the empty mapping. Keys are labels of the chunk. A non-empty mapping needs a text reply that decodes to groups |
| Deduplicator.OptimizedTopicDeduplicator.BatchMergeTopics | src/deduplicator.py:14-95 | the mapping is settled by the next reply; a call (with the grouping prompt) is made exactly when there are more than five labels |
| Deduplicator.TopicTaxonomyKeys | src/deduplicator.py:100-116 | five labels or fewer give the empty taxonomy and no call; every key is one of the labels |
| Deduplicator.TaxonomyChunkIsolation | src/deduplicator.py:108-116 | for distinct labels, the taxonomy restricted to a chunk's labels is that chunk's own mapping, which is answered by the j-th call |
| Deduplicator.SmallLastChunkUnmapped | src/deduplicator.py:108-116 | a last chunk of five labels or fewer contributes nothing |
| Deduplicator.ChunkMapsAt | src/deduplicator.py:111-116 | when every chunk but the last is full, chunk j is answered by exactly the j-th call |
| Deduplicator.UnionAllAt | src/deduplicator.py:116 | after the updates, a key held by one map only has that map's value |
| Deduplicator.UnionAllSource | src/deduplicator.py:116 | every merged key comes from some chunk's map |
| Seqs.Slices | src/deduplicator.py:111-112 | the `range(0, n, size)` slices are non-empty, at most `size` long, all full but the last, and together they are the list |
| Seqs.Enumerate | src/deduplicator.py:100 | `list(all_topics)` lists every element of the set exactly once |
| Deduplicator.OptimizedTopicDeduplicator.BuildTopicTaxonomy | src/deduplicator.py:97-124 | the labels are listed in some order; the result is the merged per-chunk mapping, with one call per chunk of more than five labels |
| Deduplicator.OptimizedTopicDeduplicator.MergeChunks | src/deduplicator.py:107-124 | the chunk loop with `update` computes the merged taxonomy and sends one prompt per called chunk |
| Deduplicator.OptimizedTopicDeduplicator.AdvanceChunk | src/deduplicator.py:111-116 | one pass of the chunk loop: the taxonomy so far updated with what the remaining chunks add stays the whole merged taxonomy, and the calls made plus the calls remaining stay the same |
| Deduplicator.OptimizedTopicDeduplicator.MergeChunk | src/deduplicator.py:111-116 | the chunk from `i` (20 labels or what is left) is merged with `update`, settled by the next reply |
| Deduplicator.MergeStep | src/deduplicator.py:111-116 | merging the chunk from `i` first and then the remaining chunks from the next call on gives what merging all remaining chunks gives |
| Deduplicator.ChunkMapsCons | src/deduplicator.py:111-116 | the first chunk is answered by the current call, and the others as if they came first from the call after it |
| ReportGenerator.EffectiveBatchSize | src/report_generator.py:10 | `None` or 0 gives the configured size 10; any other value is kept |
| ReportGenerator.TrendReportGenerator.constructor | src/report_generator.py:8-11 | the batch size is the effective one, and the count map starts empty |
| ReportGenerator.DaysBetweenSpec | src/report_generator.py:90-96 | the date list has end − start + 1 days (none when start > end), and its i-th entry is start + i |
| ReportGenerator.DatesInRange | src/report_generator.py:90-96 | the `while current <= end` loop builds exactly that list |
| ReportGenerator.WalkDays | src/report_generator.py:37-61 | the recorded days increase strictly and lie in the range, each has kept reviews, and every day in the range with kept reviews is recorded |
| ReportGenerator.VisitsStep | src/report_generator.py:37-61 | the day after a range keeps the visits in order: the results stay the same when it has no kept reviews, and otherwise gain one result for it |
| ReportGenerator.VisitDayResults | src/report_generator.py:44-54 | a visit adds one result, for its own day, exactly when the day has kept reviews |
| ReportGenerator.WalkAnalyses | src/report_generator.py:44-58 | every recorded analysis has a topic, and the seed topics stay in the analyzer's vocabulary |
| ReportGenerator.AnalysesTopicsSpec | src/report_generator.py:57-58 | a label is collected from a day exactly when some analysis lists it |
| ReportGenerator.TopicsOfSpec | src/report_generator.py:57-58 | `all_topics` holds a label exactly when some analysis of some processed day lists it |
| ReportGenerator.CollectTopics | src/report_generator.py:57-58 | the loop adds exactly the labels of the day's analyses |
| ReportGenerator.AnalyzeDay | src/report_generator.py:38-61 | one step of the day loop: it skips a day without kept reviews; otherwise it records the day's analyses, makes one call per batch and collects the labels |
| ReportGenerator.WalkRange | src/report_generator.py:37-61 | from a fresh analyzer, the day loop yields the daily results of the range and the union of their labels |
| ReportGenerator.FreshAnalyzer | src/report_generator.py:20 | a fresh analyzer talks to the environment's model, has made no call, and starts from the seed topics |
| ReportGenerator.AnalyzeRange | src/report_generator.py:20-61 | a fresh analyzer walking the range yields the range's daily results and exactly their labels |
| ReportGenerator.MergeLabels | src/report_generator.py:69 | a fresh deduplicator lists the labels in some order and returns the merged taxonomy for that order, its first call being call 0 |
| ReportGenerator.BumpSpec | src/report_generator.py:78 | one increment raises exactly one (topic, day) count by 1, leaves every other count alone and adds the topic as a row key |
| ReportGenerator.TopicOccurrences | src/report_generator.py:75 | one occurrence per listed label, in order, all on the day |
| ReportGenerator.TallyAppend | src/report_generator.py:73-78 | counting two runs of occurrences in turn is counting them together |
| ReportGenerator.TallyCounts | src/report_generator.py:73-78 | each count is the old count plus the number of occurrences of that day whose label maps to the topic (a label missing from the taxonomy maps to itself) |
| ReportGenerator.TallyLabels | src/report_generator.py:73-78 | a topic is a row key exactly when it was one before or some occurrence maps to it |
| ReportGenerator.RerunAccumulates | src/report_generator.py:73-87 | the count map is never reset, so a second run adds its hits to those of the first |
| ReportGenerator.BumpTotal | src/report_generator.py:78 | one increment adds 1 to the grand total |
| ReportGenerator.TallyTotal | src/report_generator.py:73-78 | the grand total grows by exactly the number of occurrences |
| ReportGenerator.OccurrencesTopics | src/report_generator.py:57-75 | every counted label is among the labels given to the deduplicator |
| ReportGenerator.AnalysesOccurrencesTopics | src/report_generator.py:74-75 | every occurrence of a day lies on that day and is one of its analyses' labels |
| ReportGenerator.TrendReportGenerator.AggregateTopicDataRange | src/report_generator.py:13-80 | the daily results are those of the range; the deduplicator is called once, on a listing of exactly the collected labels; every occurrence is added to the old counts through the taxonomy; when no label was collected the counts are untouched |
| ReportGenerator.TrendReportGenerator.CountOccurrences | src/report_generator.py:73-78 | the triple loop adds every occurrence to the count map |
| ReportGenerator.TrendReportGenerator.CountDay | src/report_generator.py:74-78 | the loop over a day's analyses adds their occurrences |
| ReportGenerator.TrendReportGenerator.CountTopics | src/report_generator.py:75-78 | the loop over one analysis's labels adds their occurrences |
| ReportGenerator.RowOf | src/report_generator.py:100-104 | one row per topic, one cell per date, each cell that topic's count on that date (0 when absent) |
| ReportGenerator.RowCounts | src/report_generator.py:101-103 | the loop over the dates computes that row |
| ReportGenerator.BuildRows | src/report_generator.py:99-104 | the loop over the topics computes one such row per topic |
| ReportGenerator.Insert | src/report_generator.py:106-110 | inserting into rows sorted by decreasing total keeps them sorted and adds exactly that row |
| ReportGenerator.SortByTotal | src/report_generator.py:106-110 | the sorted rows are a permutation of the rows, with totals that do not increase |
| ReportGenerator.PermutedRows | src/report_generator.py:106-110 | sorting keeps one row per count-map key, each row still that topic's counts |
| ReportGenerator.TrendTableEmpty | src/report_generator.py:106-107 | the table has no rows exactly when the count map is empty |
| ReportGenerator.TrendReportGenerator.GenerateTrendTableRange | src/report_generator.py:82-112 | after the aggregation, the table has one row per topic of the count map and one column per day of the range in order; each cell is the count; totals do not increase down the table; an empty map gives the empty table |
| ReportGenerator.SaveReport | src/report_generator.py:114-135 | an empty table gives no file, and so does a failed CSV or Excel write. Otherwise the path is `output/trend_report_<start>_to_<end>.<fmt>`, even for a format that writes nothing |

## Left out

- Character classes are ASCII only. Python's `\w`, `\s` and `lower()` also act on other Unicode letters and spaces, and those are not modelled.
- The regular-expression engine is not modelled in general. The tag and URL removals are written out as leftmost, greedy scans for the two fixed patterns.
- File I/O is left out. Opening and decoding a day's JSON file is the given `DayFile` value. The CSV or Excel write in `save_report` is the flag `writeFails`, and the output directory creation is left out.
- The HTTP calls to the language model are left out; each reply is an oracle value. The model name, temperature, token limits and system messages are not modelled.
- JSON decoding is an abstract parameter. Shapes on which the handling inside a `try` raises are lumped into `NotRecord` or `Unshaped`. These include a non-dictionary result or analysis, and a non-integer member index between 1 and the chunk length, such as 2.0 (indexing the list with it raises, so the whole chunk's mapping is empty). A non-integer index outside that range, such as 0.5 or 99.5, fails the range test and is skipped; the decoder presents it as an out-of-range integer.
- Decoded replies that make the program raise outside every `try` are not modelled. A `review_analysis` of `null`, `0` or `false` skips validation (src/topic_analyzer.py:111); `all_results.extend` then raises (src/topic_analyzer.py:161-162), and neither `process_daily_reviews` nor `aggregate_topic_data_range` catches it, so the whole run aborts. A label that cannot be hashed, such as a list inside `identified_topics`, aborts the run the same way at src/report_generator.py:58. The decoder is taken to yield only string labels, and `ProcessDailyReviews` and `AggregateTopicDataRange` always finish.
- A `new_canonical_topics` list whose element cannot be hashed, after some good ones, adds those good ones to the vocabulary before `set.update` raises and the batch falls back (src/topic_analyzer.py:118-119). The decoder is taken to present such a reply as `NotRecord`, so the model leaves the vocabulary unchanged.
- A `new_canonical_topics` value that is a string (whose characters `set.update` would add) is not modelled; the decoder is taken to present it as a list.
- `time.sleep` between chunks and every `print` are left out.
- Floating-point confidences are modelled as the real value 0.5.
- pandas is left out. The table is a sequence of rows. The rows come out of the count map in the order of `Enumerate`, not in dict insertion order.
- ReportGenerator.SortByTotal: the order of rows with equal totals is not stated, because `sort_values` uses a sort that is not stable.
- Review records' author and helpful-count fields are left out, because the core never reads them.
- The deduplicator's `topic_taxonomy` field is never read, and the merge count it prints is not modelled.
- The `isinstance(batch_result, list)` branch of `process_daily_reviews` cannot be reached, because `extract_topics_with_llm` always returns a dictionary.
- The commented-out earlier deduplicator at the end of src/deduplicator.py is not modelled.
- Data collection, the Streamlit app, the launcher, configuration lookup, `main.py` and the ad hoc test scripts are not part of this model. The seed topics and the configured batch size 10 are passed in.
- The `prompts` sequences are a modelling device. They record which call number answers which request.
- The fixed text of the analyzer's prompt is held in the analyzer's constant `frame`; the constructor sets it to `SourceFrame`, the text of `create_topic_extraction_prompt`.
- TopicAnalyzer.AgenticTopicAnalyzer.ExtractTopicsWithLlm: it states that the prompt lists the vocabulary in some order of the set, because Python's set iteration order is not modelled.
- TopicAnalyzer.AgenticTopicAnalyzer.ProcessDailyReviews: it requires a non-zero batch size when the day has reviews, because `range` with step 0 raises. A negative batch size gives no batches, as `range` does.
- TopicAnalyzer.ExtractJson has no contract of its own; TopicAnalyzer.ExtractJsonRecovery states it.
- Preprocessor.UrlLength: its own ensures give only the scheme and the bound; Preprocessor.UrlLengthSpec states that the match is the scheme plus the longest non-empty run of URL characters.
- Preprocessor.KeepPermitted: its own ensures say only that no other character remains; Preprocessor.KeepPermittedSpec states that every permitted character is kept, in order.
- Preprocessor.Words: its own ensures say only that the words are non-empty and free of whitespace; Preprocessor.WordsAtSpace and Preprocessor.WordsOfToken state that they are the maximal non-space runs, in order.
- Preprocessor.LongWords: its own ensures say only that nothing else is kept; Preprocessor.LongWordsSpec states that every word longer than one character is kept, in order.
- ReportGenerator.WalkDays and ReportGenerator.WalkAnalyses are stated for any function giving the kept reviews of a day. The generator uses the kept list of the stored file.
- Date strings and their parsing are left out. Days are numbers. SaveReport takes the two date strings as given.
- Each aggregation run creates a fresh analyzer and a fresh deduplicator, so their call numbering starts at 0 in every run. A second run with the same oracles therefore sees the same replies.
- Python's `batch_size or 10` also treats other falsy values such as `""` and `0.0` as missing; only integers and `None` are modelled.

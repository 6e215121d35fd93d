/**
 * The batch topic extractor: the prompt it sends, the two-stage recovery of
 * JSON from the reply, the post-validation that gives every analysis a topic,
 * the fallback used whenever the call, or the handling of its result inside
 * the `try`, raises, the running vocabulary of canonical topics, and the
 * slicing of a day's reviews into batches.
 *
 * The language model is the oracle `client`: the reply to the n-th call the
 * analyzer makes (counting from 0) is `client(n)`.  `decode` stands for
 * `json.loads`; it yields `None` when the text is not JSON, and `NotRecord`
 * when the JSON has a shape on which the handling inside the `try` raises.
 */
module TopicAnalyzer {
  import opened Wrappers
  import opened Seqs
  import opened Strings
  import opened Llm
  import opened Preprocessor

  /** The topic given to any review the model left without one. */
  const GeneralFeedback := "General feedback"

  /** The confidence attached to `GeneralFeedback` when it is assigned by the code. */
  const FallbackConfidence: real := 0.5

  /** How much of a review's cleaned text the prompt quotes. */
  const ContentCap := 200

  const NoContent := "No content"

  /** One entry of `review_analysis`; a missing topic list is the empty one. */
  datatype Analysis = Analysis(reviewId: string, topics: seq<string>, confidence: real)

  /** The result dictionary of one batch; missing lists are empty. */
  datatype BatchResult = BatchResult(
    reviewAnalysis: seq<Analysis>, newCanonicalTopics: seq<string>, topicMappings: map<string, string>)

  /** What `json.loads` produced: a result dictionary, or a value whose shape makes the handling inside the `try` raise. */
  datatype Payload = Record(result: BatchResult) | NotRecord

  const EmptyResult := BatchResult([], [], map[])

  // ---------------------------------------------------------------- the prompt

  const PromptIntro :=
    "\n"
    + "You are an expert AI agent analyzing Zomato food delivery app reviews to identify issues, requests, and feedback topics.\n"
    + "\n"
    + "EXISTING CANONICAL TOPICS:\n"

  const PromptInstructions :=
    "\n"
    + "\n"
    + "CRITICAL INSTRUCTIONS:\n"
    + "1. EVERY review must have at least ONE topic identified\n"
    + "2. For positive reviews, use topics like \"Food quality good\", \"Service excellent\", \"App working well\"\n"
    + "3. For negative reviews, identify the specific issue\n"
    + "4. Map similar issues to existing canonical topics when possible\n"
    + "5. If no clear issue exists, categorize as \"General feedback\"\n"
    + "\n"
    + "IMPORTANT: Respond ONLY with valid JSON. No additional text or explanations.\n"
    + "\n"
    + "OUTPUT FORMAT (JSON):\n"
    + "{\n"
    + "  \"review_analysis\": [\n"
    + "    {\n"
    + "      \"review_id\": \"actual_review_id_here\", \n"
    + "      \"identified_topics\": [\"Delivery issue\"],\n"
    + "      \"confidence\": 0.90\n"
    + "    }\n"
    + "  ],\n"
    + "  \"new_canonical_topics\": [],\n"
    + "  \"topic_mappings\": {}\n"
    + "}\n"
    + "\n"
    + "REVIEWS TO ANALYZE:\n"

  function TopicBullets(topics: seq<string>): seq<string>
  {
    seq(|topics|, i requires 0 <= i < |topics| => "- " + topics[i])
  }

  /** The existing topics, one `- topic` line each, in the given order. */
  function TopicLines(topics: seq<string>): string
  {
    Join("\n", TopicBullets(topics))
  }

  /** Splitting the topic block at newlines gives back one `- topic` line per topic. */
  lemma TopicLinesRoundTrip(topics: seq<string>)
    requires topics != []
    requires forall t :: t in topics ==> '\n' !in t
    ensures SplitOn('\n', TopicLines(topics)) == TopicBullets(topics)
    ensures forall i :: 0 <= i < |topics| ==> TopicBullets(topics)[i] == "- " + topics[i]
  {
    var bullets := TopicBullets(topics);
    forall b | b in bullets ensures '\n' !in b {
      var i :| 0 <= i < |bullets| && bullets[i] == b;
      assert topics[i] in topics;
      assert b == "- " + topics[i];
    }
    SplitJoin('\n', bullets);
  }

  /** The quoted content: the first 200 characters of the cleaned text, or a placeholder when it is empty. */
  function ReviewContent(cleaned: string): (r: string)
    ensures cleaned == "" ==> r == NoContent
    ensures cleaned != "" ==> r <= cleaned && |r| == if |cleaned| < ContentCap then |cleaned| else ContentCap
  {
    if cleaned != "" then (if |cleaned| <= ContentCap then cleaned else cleaned[..ContentCap]) else NoContent
  }

  /** The line for the review numbered `n`. */
  function ReviewLine(n: nat, review: ProcessedReview): string
  {
    "\nReview " + NatToString(n) + " (ID: " + review.reviewId + "): \"" + ReviewContent(review.cleanedContent) + "\"\n"
  }

  /** One line per review, in batch order, numbered from 1. */
  function ReviewLines(batch: seq<ProcessedReview>): (lines: seq<string>)
    ensures |lines| == |batch|
  {
    seq(|batch|, i requires 0 <= i < |batch| => ReviewLine(i + 1, batch[i]))
  }

  lemma ReviewLinesSnoc(batch: seq<ProcessedReview>, i: nat)
    requires i < |batch|
    ensures ReviewLines(batch[..i + 1]) == ReviewLines(batch[..i]) + [ReviewLine(i + 1, batch[i])]
  {
    var a, b := ReviewLines(batch[..i + 1]), ReviewLines(batch[..i]);
    forall n | 0 <= n < i ensures a[n] == b[n] {
      assert batch[..i + 1][n] == batch[..i][n];
    }
  }

  /** The fixed text around the topic lines: the analyzer's is `SourceFrame`. */
  datatype PromptFrame = PromptFrame(intro: string, instructions: string)

  const SourceFrame := PromptFrame(PromptIntro, PromptInstructions)

  /** The text of the prompt up to the reviews, listing the vocabulary in the order `topics`. */
  function PromptHead(frame: PromptFrame, topics: seq<string>): string
  {
    frame.intro + TopicLines(topics) + frame.instructions
  }

  /** The whole prompt for `batch`. */
  function PromptText(frame: PromptFrame, batch: seq<ProcessedReview>, topics: seq<string>): string
  {
    PromptHead(frame, topics) + Flatten(ReviewLines(batch))
  }

  /** `p` is a prompt for `batch` listing the vocabulary `vocab` in some iteration order. */
  ghost predicate IsPromptFor(frame: PromptFrame, p: string, batch: seq<ProcessedReview>, vocab: set<string>)
  {
    exists order :: IsEnumeration(order, vocab) && p == PromptText(frame, batch, order)
  }

  // ---------------------------------------------------------------- JSON recovery

  /**
   * The match of `\{.*\}` with DOTALL: from the first `{` to the last `}`,
   * given as the positions of the two braces; none when no `{` precedes a `}`.
   */
  function BraceSpan(t: string): (span: Option<(nat, nat)>)
    ensures span.Some? ==> span.value.0 < span.value.1 < |t|
  {
    var i := IndexFrom(t, '{', 0);
    var j := LastIndexOf(t, '}');
    if i < j then Some((i, j)) else None
  }

  /** `t[i..j + 1]` runs from the first `{` of `t` to its last `}`. */
  ghost predicate IsBraceSpan(t: string, i: int, j: int)
  {
    && 0 <= i < j < |t| && t[i] == '{' && t[j] == '}'
    && (forall k :: 0 <= k < i ==> t[k] != '{')
    && (forall k :: j < k < |t| ==> t[k] != '}')
  }

  /** Some `{` precedes some `}` in `t`. */
  ghost predicate HasBracePair(t: string)
  {
    exists a, b :: 0 <= a < b < |t| && t[a] == '{' && t[b] == '}'
  }

  /** The span runs from the first `{` to the last `}`; there is none exactly when no `{` precedes a `}`. */
  lemma BraceSpanSpec(t: string)
    ensures BraceSpan(t).None? <==> !HasBracePair(t)
    ensures BraceSpan(t).Some? ==> IsBraceSpan(t, BraceSpan(t).value.0, BraceSpan(t).value.1)
  {
    var i := IndexFrom(t, '{', 0);
    var j := LastIndexOf(t, '}');
    if HasBracePair(t) {
      var a, b :| 0 <= a < b < |t| && t[a] == '{' && t[b] == '}';
      assert i <= a && b <= j;
    }
  }

  /** The second attempt: decode the stripped span, or give the empty record. */
  function Retry(decode: string -> Option<Payload>, span: string): Payload
  {
    match decode(Strip(span))
    case Some(p) => p
    case None => Record(EmptyResult)
  }

  /**
   * `extract_json_from_response`: decode the stripped reply; failing that,
   * decode the stripped brace span once; failing that too, the empty result.
   */
  function ExtractJson(decode: string -> Option<Payload>, response: string): Payload
  {
    var t := Strip(response);
    match decode(t)
    case Some(p) => p
    case None =>
      match BraceSpan(t)
      case None => Record(EmptyResult)
      case Some((i, j)) => Retry(decode, t[i..j + 1])
  }

  /**
   * The direct decoding of the stripped reply wins. Only when it fails is the
   * text from its first `{` to its last `}` decoded, once; when that fails, or
   * no `{` precedes a `}`, the result is the empty record.
   */
  lemma ExtractJsonRecovery(decode: string -> Option<Payload>, response: string)
    ensures var t := Strip(response);
      var r := ExtractJson(decode, response);
      && (decode(t).Some? ==> r == decode(t).value)
      && (decode(t).None? && !HasBracePair(t) ==> r == Record(EmptyResult))
      && (forall i, j :: decode(t).None? && IsBraceSpan(t, i, j) ==> r == Retry(decode, t[i..j + 1]))
  {
    var t := Strip(response);
    if decode(t).None? {
      BraceSpanSpec(t);
      forall i, j | IsBraceSpan(t, i, j) ensures ExtractJson(decode, response) == Retry(decode, t[i..j + 1]) {
        BraceSpanUnique(t, i, j);
      }
    }
  }

  /** There is only one span from the first `{` to the last `}`. */
  lemma BraceSpanUnique(t: string, i: int, j: int)
    requires IsBraceSpan(t, i, j)
    ensures BraceSpan(t) == Some((i, j))
  {
    BraceSpanSpec(t);
    assert HasBracePair(t);
    var (i', j') := BraceSpan(t).value;
    assert !(i' < i) && !(i < i');
    assert !(j' < j) && !(j < j');
  }

  // ---------------------------------------------------------------- validation and fallback

  /** An analysis without topics gets `GeneralFeedback` with the fallback confidence. */
  function Coerce(a: Analysis): Analysis
  {
    if a.topics == [] then a.(topics := [GeneralFeedback], confidence := FallbackConfidence) else a
  }

  function Coerced(analyses: seq<Analysis>): (r: seq<Analysis>)
    ensures |r| == |analyses|
  {
    seq(|analyses|, i requires 0 <= i < |analyses| => Coerce(analyses[i]))
  }

  /** The sentinel assignment for each review of the batch, in order. */
  function Fallback(batch: seq<ProcessedReview>): (r: seq<Analysis>)
    ensures |r| == |batch|
  {
    seq(|batch|, i requires 0 <= i < |batch| => Analysis(batch[i].reviewId, [GeneralFeedback], FallbackConfidence))
  }

  function FallbackResult(batch: seq<ProcessedReview>): BatchResult
  {
    BatchResult(Fallback(batch), [], map[])
  }

  /** What `extract_topics_with_llm` returns for `batch` when the model replies `reply`. */
  function Settled(batch: seq<ProcessedReview>, reply: Reply, decode: string -> Option<Payload>): BatchResult
  {
    if batch == [] then EmptyResult
    else
      match reply
      case Raised => FallbackResult(batch)
      case Text(content) =>
        match ExtractJson(decode, content)
        case NotRecord => FallbackResult(batch)
        case Record(res) => res.(reviewAnalysis := Coerced(res.reviewAnalysis))
  }

  lemma FallbackAppend(a: seq<ProcessedReview>, b: seq<ProcessedReview>)
    ensures Fallback(a + b) == Fallback(a) + Fallback(b)
  {
  }

  /** Whatever happens, every returned analysis has at least one topic. */
  lemma SettledHasTopics(batch: seq<ProcessedReview>, reply: Reply, decode: string -> Option<Payload>)
    ensures forall a :: a in Settled(batch, reply, decode).reviewAnalysis ==> a.topics != []
  {
  }

  /** An empty batch gets the empty result. */
  lemma SettledEmptyBatch(reply: Reply, decode: string -> Option<Payload>)
    ensures Settled([], reply, decode) == EmptyResult
  {
  }

  /**
   * When the call raises, there is exactly one analysis per review, in order,
   * each `GeneralFeedback` with the fallback confidence, and no new topics.
   */
  lemma SettledRaised(batch: seq<ProcessedReview>, decode: string -> Option<Payload>)
    requires batch != []
    ensures var r := Settled(batch, Raised, decode);
      && |r.reviewAnalysis| == |batch| && r.newCanonicalTopics == []
      && forall i :: 0 <= i < |batch| ==>
           r.reviewAnalysis[i] == Analysis(batch[i].reviewId, [GeneralFeedback], FallbackConfidence)
  {
  }

  /** A reply that cannot be decoded at all gives no analyses, not one per review. */
  lemma SettledUndecodable(batch: seq<ProcessedReview>, content: string, decode: string -> Option<Payload>)
    requires decode(Strip(content)).None?
    requires forall i, j :: IsBraceSpan(Strip(content), i, j) ==> decode(Strip(Strip(content)[i..j + 1])).None?
    ensures Settled(batch, Text(content), decode) == EmptyResult
  {
    ExtractJsonRecovery(decode, content);
    var t := Strip(content);
    if HasBracePair(t) {
      BraceSpanSpec(t);
      var (i, j) := BraceSpan(t).value;
      assert IsBraceSpan(t, i, j);
    }
  }

  /**
   * A decoded result keeps its analyses in order; those with topics are
   * unchanged, the others become `GeneralFeedback` with the fallback confidence.
   */
  lemma SettledValidates(batch: seq<ProcessedReview>, content: string, decode: string -> Option<Payload>)
    requires batch != [] && ExtractJson(decode, content).Record?
    ensures var res := ExtractJson(decode, content).result;
      var r := Settled(batch, Text(content), decode);
      && |r.reviewAnalysis| == |res.reviewAnalysis|
      && r.newCanonicalTopics == res.newCanonicalTopics && r.topicMappings == res.topicMappings
      && forall i :: 0 <= i < |res.reviewAnalysis| ==>
           var a := res.reviewAnalysis[i];
           && (a.topics != [] ==> r.reviewAnalysis[i] == a)
           && (a.topics == [] ==> r.reviewAnalysis[i] == Analysis(a.reviewId, [GeneralFeedback], FallbackConfidence))
  {
  }

  // ---------------------------------------------------------------- a day of reviews

  /** `range(0, len(reviews), batch_size)` slicing: none when the step is negative. */
  function DayBatches(reviews: seq<ProcessedReview>, batchSize: int): seq<seq<ProcessedReview>>
  {
    if batchSize > 0 then Slices(reviews, batchSize) else []
  }

  /** The concatenated analyses of `batches`, the first sent as call `k`. */
  function DayAnalyses(batches: seq<seq<ProcessedReview>>, client: nat -> Reply,
                       decode: string -> Option<Payload>, k: nat): seq<Analysis>
    decreases |batches|
  {
    if batches == [] then []
    else Settled(batches[0], client(k), decode).reviewAnalysis + DayAnalyses(batches[1..], client, decode, k + 1)
  }

  /** The vocabulary after handling `batches`, starting from `vocab`. */
  function DayVocabulary(batches: seq<seq<ProcessedReview>>, client: nat -> Reply,
                         decode: string -> Option<Payload>, k: nat, vocab: set<string>): set<string>
    decreases |batches|
  {
    if batches == [] then vocab
    else
      var grown := vocab + Elems(Settled(batches[0], client(k), decode).newCanonicalTopics);
      DayVocabulary(batches[1..], client, decode, k + 1, grown)
  }

  /** One batch of the day: its analyses come first, and its new topics join the vocabulary. */
  lemma DayStep(batches: seq<seq<ProcessedReview>>, client: nat -> Reply,
                decode: string -> Option<Payload>, k: nat, vocab: set<string>)
    requires batches != []
    ensures var r := Settled(batches[0], client(k), decode);
      && DayAnalyses(batches, client, decode, k) == r.reviewAnalysis + DayAnalyses(batches[1..], client, decode, k + 1)
      && DayVocabulary(batches, client, decode, k, vocab)
         == DayVocabulary(batches[1..], client, decode, k + 1, vocab + Elems(r.newCanonicalTopics))
  {
  }

  /** What the batches of `reviews[i..]` contribute, the first sent as call `k`. */
  ghost function RestAnalyses(reviews: seq<ProcessedReview>, batchSize: nat, i: nat, client: nat -> Reply,
                              decode: string -> Option<Payload>, k: nat): seq<Analysis>
    requires batchSize > 0 && i <= |reviews|
  {
    DayAnalyses(Slices(reviews[i..], batchSize), client, decode, k)
  }

  ghost function RestVocabulary(reviews: seq<ProcessedReview>, batchSize: nat, i: nat, client: nat -> Reply,
                                decode: string -> Option<Payload>, k: nat, vocab: set<string>): set<string>
    requires batchSize > 0 && i <= |reviews|
  {
    DayVocabulary(Slices(reviews[i..], batchSize), client, decode, k, vocab)
  }

  ghost function RestBatches(reviews: seq<ProcessedReview>, batchSize: nat, i: nat): nat
    requires batchSize > 0 && i <= |reviews|
  {
    |Slices(reviews[i..], batchSize)|
  }

  /** One pass of the batch loop: the batch from `i` to `hi` is handled first, then the rest from the next call on. */
  lemma BatchStep(reviews: seq<ProcessedReview>, batchSize: nat, i: nat, hi: nat, client: nat -> Reply,
                  decode: string -> Option<Payload>, k: nat, vocab: set<string>, acc: seq<Analysis>)
    requires batchSize > 0 && i < |reviews|
    requires hi == if i + batchSize <= |reviews| then i + batchSize else |reviews|
    ensures var r := Settled(reviews[i..hi], client(k), decode);
      && acc + RestAnalyses(reviews, batchSize, i, client, decode, k)
         == (acc + r.reviewAnalysis) + RestAnalyses(reviews, batchSize, hi, client, decode, k + 1)
      && RestVocabulary(reviews, batchSize, i, client, decode, k, vocab)
         == RestVocabulary(reviews, batchSize, hi, client, decode, k + 1, vocab + Elems(r.newCanonicalTopics))
      && RestBatches(reviews, batchSize, i) == 1 + RestBatches(reviews, batchSize, hi)
  {
    SlicesStep(reviews, batchSize, i, hi);
    var bs := Slices(reviews[i..], batchSize);
    assert bs[0] == reviews[i..hi] && bs[1..] == Slices(reviews[hi..], batchSize);
    DayStep(bs, client, decode, k, vocab);
    var r := Settled(reviews[i..hi], client(k), decode);
    var rest := RestAnalyses(reviews, batchSize, hi, client, decode, k + 1);
    assert acc + (r.reviewAnalysis + rest) == (acc + r.reviewAnalysis) + rest;
  }

  /** Every analysis of a day has at least one topic. */
  lemma {:induction false} DayAnalysesHaveTopics(batches: seq<seq<ProcessedReview>>, client: nat -> Reply,
                                                 decode: string -> Option<Payload>, k: nat)
    ensures forall a :: a in DayAnalyses(batches, client, decode, k) ==> a.topics != []
    decreases |batches|
  {
    if batches != [] {
      SettledHasTopics(batches[0], client(k), decode);
      DayAnalysesHaveTopics(batches[1..], client, decode, k + 1);
    }
  }

  /** The vocabulary never shrinks. */
  lemma {:induction false} DayVocabularyGrows(batches: seq<seq<ProcessedReview>>, client: nat -> Reply,
                                              decode: string -> Option<Payload>, k: nat, vocab: set<string>)
    ensures vocab <= DayVocabulary(batches, client, decode, k, vocab)
    decreases |batches|
  {
    if batches != [] {
      var grown := vocab + Elems(Settled(batches[0], client(k), decode).newCanonicalTopics);
      DayVocabularyGrows(batches[1..], client, decode, k + 1, grown);
    }
  }

  /** When every call of the day raises, the day yields one fallback analysis per review, in order. */
  lemma {:induction false} DayAnalysesAllRaised(batches: seq<seq<ProcessedReview>>, client: nat -> Reply,
                                                decode: string -> Option<Payload>, k: nat)
    requires forall b :: b in batches ==> b != []
    requires forall n :: k <= n < k + |batches| ==> client(n) == Raised
    ensures DayAnalyses(batches, client, decode, k) == Fallback(Flatten(batches))
    ensures DayVocabulary(batches, client, decode, k, {}) == {}
    decreases |batches|
  {
    if batches != [] {
      assert batches[0] in batches;
      assert client(k) == Raised;
      SettledRaised(batches[0], decode);
      assert forall b :: b in batches[1..] ==> b in batches;
      DayAnalysesAllRaised(batches[1..], client, decode, k + 1);
      FallbackAppend(batches[0], Flatten(batches[1..]));
      assert Settled(batches[0], client(k), decode).newCanonicalTopics == [];
      assert Elems<string>([]) == {};
    }
  }

  /** The batches are consecutive slices of `batchSize` reviews, the last possibly shorter, covering the day in order. */
  lemma DayBatchesCover(reviews: seq<ProcessedReview>, batchSize: int)
    requires batchSize > 0
    ensures Flatten(DayBatches(reviews, batchSize)) == reviews
    ensures forall b :: b in DayBatches(reviews, batchSize) ==> 0 < |b| <= batchSize
    ensures var bs := DayBatches(reviews, batchSize);
      forall i :: 0 <= i < |bs| - 1 ==> |bs[i]| == batchSize
  {
  }

  /** A day whose every call raises: one analysis per kept review, in file order. */
  lemma DayAllRaised(file: DayFile, batchSize: int, client: nat -> Reply, decode: string -> Option<Payload>, k: nat)
    requires batchSize > 0
    requires forall n :: n >= k ==> client(n) == Raised
    ensures var reviews := Loaded(file);
      var r := DayAnalyses(DayBatches(reviews, batchSize), client, decode, k);
      && |r| == |reviews|
      && forall i :: 0 <= i < |reviews| ==>
           r[i] == Analysis(reviews[i].reviewId, [GeneralFeedback], FallbackConfidence)
  {
    var reviews := Loaded(file);
    DayAnalysesAllRaised(DayBatches(reviews, batchSize), client, decode, k);
  }

  // ---------------------------------------------------------------- the loops of `extract_topics_with_llm`

  /** The validation loop: give every analysis without topics `GeneralFeedback`, in place. */
  method ValidateAnalyses(input: seq<Analysis>) returns (analyses: seq<Analysis>)
    ensures analyses == Coerced(input)
  {
    analyses := input;
    for i := 0 to |analyses|
      invariant |analyses| == |input|
      invariant forall n :: 0 <= n < i ==> analyses[n] == Coerce(input[n])
      invariant forall n :: i <= n < |analyses| ==> analyses[n] == input[n]
    {
      if analyses[i].topics == [] {
        analyses := analyses[i := analyses[i].(topics := [GeneralFeedback], confidence := FallbackConfidence)];
      }
    }
  }

  /** The fallback loop: one sentinel assignment per review, appended in order. */
  method FallbackAnalyses(batch: seq<ProcessedReview>) returns (fallback: seq<Analysis>)
    ensures fallback == Fallback(batch)
  {
    fallback := [];
    for i := 0 to |batch|
      invariant fallback == Fallback(batch[..i])
    {
      fallback := fallback + [Analysis(batch[i].reviewId, [GeneralFeedback], FallbackConfidence)];
    }
    assert batch[..|batch|] == batch;
  }

  /** What follows the call in `extract_topics_with_llm`: the reply is parsed, then validated or replaced by the fallback. */
  method SettleReply(batch: seq<ProcessedReview>, reply: Reply, decode: string -> Option<Payload>) returns (result: BatchResult)
    requires batch != []
    ensures result == Settled(batch, reply, decode)
  {
    var parsed := if reply.Text? then ExtractJson(decode, reply.content) else NotRecord;
    if parsed.Record? {
      var analyses := ValidateAnalyses(parsed.result.reviewAnalysis);
      result := parsed.result.(reviewAnalysis := analyses);
    } else {
      var fallback := FallbackAnalyses(batch);
      result := BatchResult(fallback, [], map[]);
    }
  }

  // ---------------------------------------------------------------- the analyzer object

  class AgenticTopicAnalyzer {
    /** The running vocabulary, `self.canonical_topics`. */
    var canonicalTopics: set<string>
    /** Every prompt sent to the model so far, in order. */
    var prompts: seq<string>
    const client: nat -> Reply
    const decode: string -> Option<Payload>
    /** The fixed text of every prompt this analyzer sends. */
    const frame: PromptFrame

    /** The vocabulary starts as the seed topics. */
    constructor(seedTopics: seq<string>, client: nat -> Reply, decode: string -> Option<Payload>)
      ensures canonicalTopics == Elems(seedTopics) && prompts == []
      ensures this.client == client && this.decode == decode && frame == SourceFrame
    {
      frame := SourceFrame;
      canonicalTopics := Elems(seedTopics);
      prompts := [];
      this.client := client;
      this.decode := decode;
    }

    /** `create_topic_extraction_prompt`, with the vocabulary in the iteration order `topics`. */
    method CreateTopicExtractionPrompt(batch: seq<ProcessedReview>, topics: seq<string>) returns (prompt: string)
      ensures prompt == PromptText(frame, batch, topics)
    {
      // The review lines are accumulated apart from the fixed head, then appended to it.
      var lines := "";
      for i := 0 to |batch|
        invariant lines == Flatten(ReviewLines(batch[..i]))
      {
        ReviewLinesSnoc(batch, i);
        FlattenSnoc(ReviewLines(batch[..i]), ReviewLine(i + 1, batch[i]));
        lines := lines + ReviewLine(i + 1, batch[i]);
      }
      assert batch[..|batch|] == batch;
      prompt := PromptHead(frame, topics) + lines;
    }

    /**
     * `extract_topics_with_llm`: one call for a non-empty batch, whose result
     * is validated or replaced by the fallback; the vocabulary grows by the
     * new topics of a decoded result.
     */
    method ExtractTopicsWithLlm(batch: seq<ProcessedReview>) returns (result: BatchResult)
      modifies this
      ensures result == Settled(batch, client(|old(prompts)|), decode)
      ensures canonicalTopics == old(canonicalTopics) + Elems(result.newCanonicalTopics)
      ensures batch == [] ==> prompts == old(prompts)
      ensures batch != [] ==>
        && |prompts| == |old(prompts)| + 1 && prompts[..|old(prompts)|] == old(prompts)
        && IsPromptFor(frame, prompts[|old(prompts)|], batch, old(canonicalTopics))
    {
      if batch == [] {
        assert Elems<string>([]) == {};
        return EmptyResult;
      }
      var reply := client(|prompts|);
      SendPrompt(batch);
      result := SettleReply(batch, reply, decode);
      canonicalTopics := canonicalTopics + Elems(result.newCanonicalTopics);
    }

    /** The prompt for `batch`, listing the current vocabulary, is sent as the next call. */
    method SendPrompt(batch: seq<ProcessedReview>)
      modifies this
      ensures canonicalTopics == old(canonicalTopics)
      ensures |prompts| == |old(prompts)| + 1 && prompts[..|old(prompts)|] == old(prompts)
      ensures IsPromptFor(frame, prompts[|old(prompts)|], batch, canonicalTopics)
    {
      var order := Enumerate(canonicalTopics);
      var prompt := CreateTopicExtractionPrompt(batch, order);
      prompts := prompts + [prompt];
      assert prompts[|old(prompts)|] == PromptText(frame, batch, order);
    }

    /**
     * `process_daily_reviews`: the kept reviews of the day, in consecutive
     * batches, each handled by `ExtractTopicsWithLlm`, the analyses concatenated.
     * A zero batch size makes `range` raise when there is anything to slice.
     */
    method ProcessDailyReviews(file: DayFile, batchSize: int) returns (results: seq<Analysis>)
      requires batchSize != 0 || Loaded(file) == []
      modifies this
      ensures var batches := DayBatches(Loaded(file), batchSize);
        && results == DayAnalyses(batches, client, decode, |old(prompts)|)
        && canonicalTopics == DayVocabulary(batches, client, decode, |old(prompts)|, old(canonicalTopics))
        && |prompts| == |old(prompts)| + |batches| && prompts[..|old(prompts)|] == old(prompts)
    {
      var reviews := LoadDailyReviews(file);
      if reviews == [] {
        return [];
      }
      results := AnalyzeBatches(reviews, batchSize);
    }

    /** The batch loop of `process_daily_reviews` over the day's kept reviews. */
    method AnalyzeBatches(reviews: seq<ProcessedReview>, batchSize: int) returns (results: seq<Analysis>)
      requires batchSize != 0 || reviews == []
      modifies this
      ensures var batches := DayBatches(reviews, batchSize);
        && results == DayAnalyses(batches, client, decode, |old(prompts)|)
        && canonicalTopics == DayVocabulary(batches, client, decode, |old(prompts)|, old(canonicalTopics))
        && |prompts| == |old(prompts)| + |batches| && prompts[..|old(prompts)|] == old(prompts)
    {
      results := [];
      if batchSize <= 0 {
        // `range` with a negative step is empty.
        return;
      }
      ghost var k0 := |prompts|;
      assert reviews[0..] == reviews;
      var i := 0;
      while i < |reviews|
        invariant 0 <= i <= |reviews| && old(prompts) <= prompts
        invariant results + RestAnalyses(reviews, batchSize, i, client, decode, |prompts|)
               == RestAnalyses(reviews, batchSize, 0, client, decode, k0)
        invariant RestVocabulary(reviews, batchSize, i, client, decode, |prompts|, canonicalTopics)
               == RestVocabulary(reviews, batchSize, 0, client, decode, k0, old(canonicalTopics))
        invariant |prompts| + RestBatches(reviews, batchSize, i) == k0 + RestBatches(reviews, batchSize, 0)
        decreases |reviews| - i
      {
        i, results := AdvanceBatch(reviews, batchSize, i, results);
      }
      assert reviews[|reviews|..] == [];
    }

    /** One pass of the batch loop: the batch from `i` is handled, so that what the remaining batches add afterwards completes the day. */
    method AdvanceBatch(reviews: seq<ProcessedReview>, batchSize: nat, i: nat, results: seq<Analysis>)
      returns (next: nat, extended: seq<Analysis>)
      requires batchSize > 0 && i < |reviews|
      modifies this
      ensures next == if i + batchSize <= |reviews| then i + batchSize else |reviews|
      ensures extended + RestAnalyses(reviews, batchSize, next, client, decode, |prompts|)
           == results + RestAnalyses(reviews, batchSize, i, client, decode, |old(prompts)|)
      ensures RestVocabulary(reviews, batchSize, next, client, decode, |prompts|, canonicalTopics)
           == RestVocabulary(reviews, batchSize, i, client, decode, |old(prompts)|, old(canonicalTopics))
      ensures |prompts| + RestBatches(reviews, batchSize, next) == |old(prompts)| + RestBatches(reviews, batchSize, i)
      ensures old(prompts) <= prompts
    {
      ghost var k, vocab := |prompts|, canonicalTopics;
      next, extended := AnalyzeBatch(reviews, batchSize, i, results);
      ghost var r := Settled(reviews[i..next], client(k), decode);
      assert extended == results + r.reviewAnalysis && canonicalTopics == vocab + Elems(r.newCanonicalTopics);
      assert |prompts| == k + 1;
      BatchStep(reviews, batchSize, i, next, client, decode, k, vocab, results);
    }

    /** `all_results.extend(...)` for the batch from `i`. */
    method AnalyzeBatch(reviews: seq<ProcessedReview>, batchSize: nat, i: nat, results: seq<Analysis>)
      returns (next: nat, extended: seq<Analysis>)
      requires batchSize > 0 && i < |reviews|
      modifies this
      ensures next == if i + batchSize <= |reviews| then i + batchSize else |reviews|
      ensures var r := Settled(reviews[i..next], client(|old(prompts)|), decode);
        && extended == results + r.reviewAnalysis
        && canonicalTopics == old(canonicalTopics) + Elems(r.newCanonicalTopics)
      ensures |prompts| == |old(prompts)| + 1 && old(prompts) <= prompts
    {
      next := if i + batchSize <= |reviews| then i + batchSize else |reviews|;
      var batchResult := ExtractTopicsWithLlm(reviews[i..next]);
      extended := results + batchResult.reviewAnalysis;
    }
  }
}

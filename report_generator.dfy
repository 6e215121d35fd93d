/**
 * The trend report: walk a range of days, analyse each day's kept reviews,
 * merge the labels found with one taxonomy, count the canonical labels per
 * day into the generator's running frequency table, and lay that table out
 * as rows of counts, one column per day, the busiest labels first.
 */
module ReportGenerator {
  import opened Wrappers
  import opened Seqs
  import opened Llm
  import opened Preprocessor
  import opened TopicAnalyzer
  import opened Deduplicator

  /** `Config.BATCH_SIZE`. */
  const DefaultBatchSize := 10

  /** A batch size the generator can hold: `batch_size or Config.BATCH_SIZE` is never 0. */
  type NonZero = n: int | n != 0 witness DefaultBatchSize

  /** `batch_size or Config.BATCH_SIZE`: an absent or zero batch size falls back to the default. */
  function EffectiveBatchSize(batchSize: Option<int>): (r: NonZero)
    ensures batchSize == None || batchSize == Some(0) ==> r == DefaultBatchSize
    ensures batchSize != None && batchSize != Some(0) ==> r == batchSize.value
  {
    match batchSize
    case Some(b) => if b != 0 then b else DefaultBatchSize
    case None => DefaultBatchSize
  }

  /**
   * Everything the pipeline reads from outside: each day's review file, the
   * seed topics, and the two language-model endpoints with their JSON decoders
   * (the analyser's and the deduplicator's), each answering by call number.
   */
  datatype Environment = Environment(
    store: Day -> DayFile,
    seedTopics: seq<string>,
    analysisClient: nat -> Reply,
    decodeAnalysis: string -> Option<Payload>,
    groupingClient: nat -> Reply,
    decodeGroups: string -> Option<GroupsPayload>)

  /** One entry of `daily_results`: a day and its analyses. */
  datatype DayResult = DayResult(day: Day, analyses: seq<Analysis>)

  // ---------------------------------------------------------------- the day range

  /** The days from `start` to `end`, both included; none when `start` is after `end`. */
  function DaysBetween(start: Day, end: Day): (days: seq<Day>)
    decreases end - start
  {
    if start > end then [] else DaysBetween(start, end - 1) + [end]
  }

  lemma {:induction false} DaysBetweenSpec(start: Day, end: Day)
    ensures |DaysBetween(start, end)| == if start <= end then end - start + 1 else 0
    ensures forall i :: 0 <= i < |DaysBetween(start, end)| ==> DaysBetween(start, end)[i] == start + i
    decreases end - start
  {
    if start <= end {
      DaysBetweenSpec(start, end - 1);
    }
  }

  /** The `while current <= end_date_obj` loop that lists the dates of the table. */
  method DatesInRange(start: Day, end: Day) returns (dates: seq<Day>)
    ensures dates == DaysBetween(start, end)
  {
    dates := [];
    var current := start;
    while current <= end
      invariant start <= current <= end + 1 || (current == start && start > end)
      invariant dates == DaysBetween(start, current - 1)
      decreases end + 1 - current
    {
      dates := dates + [current];
      current := current + 1;
    }
  }

  // ---------------------------------------------------------------- walking the days

  /** What the walk has produced so far: `daily_results`, the analyser's calls and vocabulary. */
  datatype Walked = Walked(results: seq<DayResult>, calls: nat, vocab: set<string>)

  /** The kept reviews of each day: `load_daily_reviews` on that day's file. */
  function KeptReviews(env: Environment): Day -> seq<ProcessedReview>
  {
    d => Loaded(env.store(d))
  }

  /** One day of the walk: a day without kept reviews is skipped, any other is analysed in batches. */
  function VisitDay(env: Environment, kept: Day -> seq<ProcessedReview>, batchSize: int, w: Walked, d: Day): Walked
  {
    if kept(d) == [] then w
    else
      var batches := DayBatches(kept(d), batchSize);
      Walked(w.results + [DayResult(d, DayAnalyses(batches, env.analysisClient, env.decodeAnalysis, w.calls))],
             w.calls + |batches|,
             DayVocabulary(batches, env.analysisClient, env.decodeAnalysis, w.calls, w.vocab))
  }

  /** The walk over `days` by a fresh analyser, which starts from the seed topics. */
  function Walk(env: Environment, kept: Day -> seq<ProcessedReview>, batchSize: int, days: seq<Day>): Walked
  {
    if days == [] then Walked([], 0, Elems(env.seedTopics))
    else VisitDay(env, kept, batchSize, Walk(env, kept, batchSize, days[..|days| - 1]), days[|days| - 1])
  }

  /** `daily_results` for the days from `start` to `end`. */
  function DailyResults(env: Environment, batchSize: int, start: Day, end: Day): seq<DayResult>
  {
    Walk(env, KeptReviews(env), batchSize, DaysBetween(start, end)).results
  }

  /**
   * `rs` lists results for increasing days of the range from `start` to
   * `end`, all with kept reviews, and every such day of the range has one.
   */
  ghost predicate VisitsInOrder(rs: seq<DayResult>, kept: Day -> seq<ProcessedReview>, start: Day, end: Day)
  {
    && (forall i, j :: 0 <= i < j < |rs| ==> rs[i].day < rs[j].day)
    && (forall i :: 0 <= i < |rs| ==> start <= rs[i].day <= end && kept(rs[i].day) != [])
    && (forall d :: start <= d <= end && kept(d) != [] ==> exists i :: 0 <= i < |rs| && rs[i].day == d)
  }

  /** Every day of the range is visited once, in order; days without kept reviews leave no result. */
  lemma {:induction false} WalkDays(env: Environment, kept: Day -> seq<ProcessedReview>, batchSize: int, start: Day, end: Day)
    ensures VisitsInOrder(Walk(env, kept, batchSize, DaysBetween(start, end)).results, kept, start, end)
    decreases end - start
  {
    if start <= end {
      WalkDays(env, kept, batchSize, start, end - 1);
      var w := Walk(env, kept, batchSize, DaysBetween(start, end - 1));
      WalkSnoc(env, kept, batchSize, start, end);
      VisitDayResults(env, kept, batchSize, w, end);
      VisitsStep(w.results, VisitDay(env, kept, batchSize, w, end).results, kept, start, end);
    }
  }

  /** The walk over a range is the walk over all but its last day, then a visit of that day. */
  lemma WalkSnoc(env: Environment, kept: Day -> seq<ProcessedReview>, batchSize: int, start: Day, end: Day)
    requires start <= end
    ensures Walk(env, kept, batchSize, DaysBetween(start, end))
         == VisitDay(env, kept, batchSize, Walk(env, kept, batchSize, DaysBetween(start, end - 1)), end)
  {
    var days := DaysBetween(start, end);
    assert days[..|days| - 1] == DaysBetween(start, end - 1) && days[|days| - 1] == end;
  }

  /** A visit adds one result, for its day, exactly when the day has kept reviews. */
  lemma VisitDayResults(env: Environment, kept: Day -> seq<ProcessedReview>, batchSize: int, w: Walked, d: Day)
    ensures var rs := VisitDay(env, kept, batchSize, w, d).results;
      && (kept(d) == [] ==> rs == w.results)
      && (kept(d) != [] ==> |rs| == |w.results| + 1 && rs == w.results + [rs[|rs| - 1]] && rs[|rs| - 1].day == d)
  {
  }

  /** The results after the day following a range: the same ones, plus one for that day when it has kept reviews. */
  lemma VisitsStep(before: seq<DayResult>, rs: seq<DayResult>, kept: Day -> seq<ProcessedReview>, start: Day, end: Day)
    requires start <= end && VisitsInOrder(before, kept, start, end - 1)
    requires kept(end) == [] ==> rs == before
    requires kept(end) != [] ==> rs != [] && rs == before + [rs[|rs| - 1]] && rs[|rs| - 1].day == end
    ensures VisitsInOrder(rs, kept, start, end)
  {
    assert forall i :: 0 <= i < |before| ==> rs[i] == before[i];
    forall d | start <= d <= end && kept(d) != [] ensures exists i :: 0 <= i < |rs| && rs[i].day == d {
      if d == end {
        assert rs[|rs| - 1].day == d;
      } else {
        var i :| 0 <= i < |before| && before[i].day == d;
        assert rs[i].day == d;
      }
    }
  }

  /** Every analysis of every visited day has a topic, and the analyser's vocabulary keeps the seed topics. */
  lemma {:induction false} WalkAnalyses(env: Environment, kept: Day -> seq<ProcessedReview>, batchSize: int, days: seq<Day>)
    ensures var w := Walk(env, kept, batchSize, days);
      forall i, a :: 0 <= i < |w.results| && a in w.results[i].analyses ==> a.topics != []
    ensures Elems(env.seedTopics) <= Walk(env, kept, batchSize, days).vocab
  {
    if days != [] {
      var init := days[..|days| - 1];
      WalkAnalyses(env, kept, batchSize, init);
      var w := Walk(env, kept, batchSize, init);
      var batches := DayBatches(kept(days[|days| - 1]), batchSize);
      DayAnalysesHaveTopics(batches, env.analysisClient, env.decodeAnalysis, w.calls);
      DayVocabularyGrows(batches, env.analysisClient, env.decodeAnalysis, w.calls, w.vocab);
    }
  }

  // ---------------------------------------------------------------- the labels found

  /** The labels of `analyses`: the union of their `identified_topics`. */
  function AnalysesTopics(analyses: seq<Analysis>): set<string>
  {
    if analyses == [] then {}
    else AnalysesTopics(analyses[..|analyses| - 1]) + Elems(analyses[|analyses| - 1].topics)
  }

  /** `all_topics`: the labels of every analysis of every visited day. */
  function TopicsOf(results: seq<DayResult>): set<string>
  {
    if results == [] then {}
    else TopicsOf(results[..|results| - 1]) + AnalysesTopics(results[|results| - 1].analyses)
  }

  lemma {:induction false} AnalysesTopicsSpec(analyses: seq<Analysis>, t: string)
    ensures t in AnalysesTopics(analyses) <==> exists j :: 0 <= j < |analyses| && t in analyses[j].topics
  {
    if analyses != [] {
      var init := analyses[..|analyses| - 1];
      AnalysesTopicsSpec(init, t);
      if t in AnalysesTopics(init) {
        var j :| 0 <= j < |init| && t in init[j].topics;
        assert analyses[j] == init[j];
      }
      if exists j :: 0 <= j < |analyses| && t in analyses[j].topics {
        var j :| 0 <= j < |analyses| && t in analyses[j].topics;
        if j < |init| {
          assert init[j] == analyses[j];
        }
      }
    }
  }

  /** A label is collected exactly when some analysis of some visited day names it. */
  lemma {:induction false} TopicsOfSpec(results: seq<DayResult>, t: string)
    ensures t in TopicsOf(results) <==>
      exists i, j :: 0 <= i < |results| && 0 <= j < |results[i].analyses| && t in results[i].analyses[j].topics
  {
    if results != [] {
      var init := results[..|results| - 1];
      var last := results[|results| - 1];
      TopicsOfSpec(init, t);
      AnalysesTopicsSpec(last.analyses, t);
      if t in TopicsOf(init) {
        var i, j :| 0 <= i < |init| && 0 <= j < |init[i].analyses| && t in init[i].analyses[j].topics;
        assert results[i] == init[i];
      }
      if exists i, j :: 0 <= i < |results| && 0 <= j < |results[i].analyses| && t in results[i].analyses[j].topics {
        var i, j :| 0 <= i < |results| && 0 <= j < |results[i].analyses| && t in results[i].analyses[j].topics;
        if i < |init| {
          assert init[i] == results[i];
        }
      }
    }
  }

  /** `for analysis in daily_analysis: all_topics.update(analysis.get('identified_topics', []))` */
  method CollectTopics(allTopics: set<string>, analyses: seq<Analysis>) returns (collected: set<string>)
    ensures collected == allTopics + AnalysesTopics(analyses)
  {
    collected := allTopics;
    for j := 0 to |analyses|
      invariant collected == allTopics + AnalysesTopics(analyses[..j])
    {
      assert analyses[..j + 1][..j] == analyses[..j];
      collected := collected + Elems(analyses[j].topics);
    }
    assert analyses[..|analyses|] == analyses;
  }

  // ---------------------------------------------------------------- counting

  /** `topic_frequency`: canonical label to day to count; a missing entry counts 0. */
  type Frequency = map<string, map<Day, nat>>

  /** `topic_frequency[t][d]` read without creating entries. */
  function Count(freq: Frequency, t: string, d: Day): nat
  {
    if t in freq && d in freq[t] then freq[t][d] else 0
  }

  /** `topic_frequency[t][d] += 1` on the nested `defaultdict`. */
  function Bump(freq: Frequency, t: string, d: Day): Frequency
  {
    var row := if t in freq then freq[t] else map[];
    freq[t := row[d := Count(freq, t, d) + 1]]
  }

  /** One increment raises exactly the count of `t` on `d`, by one, and makes `t` a row key. */
  lemma BumpSpec(freq: Frequency, t: string, d: Day)
    ensures var r := Bump(freq, t, d);
      && Count(r, t, d) == Count(freq, t, d) + 1
      && (forall t', d' :: t' != t || d' != d ==> Count(r, t', d') == Count(freq, t', d'))
      && r.Keys == freq.Keys + {t}
  {
  }

  /** `taxonomy.get(t, t)`: a label the taxonomy does not know stands for itself. */
  function Canonical(taxonomy: Taxonomy, t: string): string
  {
    if t in taxonomy then taxonomy[t] else t
  }

  /** One entry of an analysis's topic list, on its day. */
  datatype Occurrence = Occurrence(day: Day, topic: string)

  function TopicOccurrences(d: Day, topics: seq<string>): (occs: seq<Occurrence>)
    ensures |occs| == |topics|
    ensures forall k :: 0 <= k < |occs| ==> occs[k] == Occurrence(d, topics[k])
  {
    if topics == [] then [] else TopicOccurrences(d, topics[..|topics| - 1]) + [Occurrence(d, topics[|topics| - 1])]
  }

  function AnalysesOccurrences(d: Day, analyses: seq<Analysis>): seq<Occurrence>
  {
    if analyses == [] then []
    else AnalysesOccurrences(d, analyses[..|analyses| - 1]) + TopicOccurrences(d, analyses[|analyses| - 1].topics)
  }

  /** Every (day, analysis, topic-list entry) of the results, in the order the counting loops meet them. */
  function Occurrences(results: seq<DayResult>): seq<Occurrence>
  {
    if results == [] then []
    else Occurrences(results[..|results| - 1]) + AnalysesOccurrences(results[|results| - 1].day, results[|results| - 1].analyses)
  }

  /** Counting `occs`, each under its canonical label, on top of `freq`. */
  function Tally(freq: Frequency, occs: seq<Occurrence>, taxonomy: Taxonomy): Frequency
  {
    if occs == [] then freq
    else
      var o := occs[|occs| - 1];
      Bump(Tally(freq, occs[..|occs| - 1], taxonomy), Canonical(taxonomy, o.topic), o.day)
  }

  /** How many of `occs` fall on day `d` under canonical label `t`. */
  function Hits(occs: seq<Occurrence>, taxonomy: Taxonomy, t: string, d: Day): nat
  {
    if occs == [] then 0
    else
      var o := occs[|occs| - 1];
      Hits(occs[..|occs| - 1], taxonomy, t, d) + if o.day == d && Canonical(taxonomy, o.topic) == t then 1 else 0
  }

  lemma {:induction false} TallyAppend(freq: Frequency, a: seq<Occurrence>, b: seq<Occurrence>, taxonomy: Taxonomy)
    ensures Tally(freq, a + b, taxonomy) == Tally(Tally(freq, a, taxonomy), b, taxonomy)
    decreases |b|
  {
    if b == [] {
      assert a + b == a;
    } else {
      var init := b[..|b| - 1];
      assert (a + b)[..|a + b| - 1] == a + init;
      TallyAppend(freq, a, init, taxonomy);
    }
  }

  /**
   * Each occurrence adds exactly one to the count of its canonical label on
   * its day: every count is the earlier count plus the hits.
   */
  lemma {:induction false} TallyCounts(freq: Frequency, occs: seq<Occurrence>, taxonomy: Taxonomy, t: string, d: Day)
    ensures Count(Tally(freq, occs, taxonomy), t, d) == Count(freq, t, d) + Hits(occs, taxonomy, t, d)
  {
    if occs != [] {
      var init := occs[..|occs| - 1];
      var o := occs[|occs| - 1];
      TallyCounts(freq, init, taxonomy, t, d);
      var before := Tally(freq, init, taxonomy);
      assert Tally(freq, occs, taxonomy) == Bump(before, Canonical(taxonomy, o.topic), o.day);
      BumpSpec(before, Canonical(taxonomy, o.topic), o.day);
      assert Hits(occs, taxonomy, t, d) == Hits(init, taxonomy, t, d) + if o.day == d && Canonical(taxonomy, o.topic) == t then 1 else 0;
    }
  }

  /** The labels counted are the earlier ones plus the canonical labels of the occurrences. */
  lemma {:induction false} TallyLabels(freq: Frequency, occs: seq<Occurrence>, taxonomy: Taxonomy, t: string)
    ensures t in Tally(freq, occs, taxonomy) <==> t in freq || MapsTo(occs, taxonomy, t)
  {
    if occs != [] {
      var init := occs[..|occs| - 1];
      var o := occs[|occs| - 1];
      TallyLabels(freq, init, taxonomy, t);
      BumpSpec(Tally(freq, init, taxonomy), Canonical(taxonomy, o.topic), o.day);
      assert Tally(freq, occs, taxonomy).Keys == Tally(freq, init, taxonomy).Keys + {Canonical(taxonomy, o.topic)};
      MapsToSnoc(occs, taxonomy, t);
    }
  }

  /** Some occurrence of `occs` has the canonical label `t`. */
  ghost predicate MapsTo(occs: seq<Occurrence>, taxonomy: Taxonomy, t: string)
  {
    exists k :: 0 <= k < |occs| && Canonical(taxonomy, occs[k].topic) == t
  }

  lemma MapsToSnoc(occs: seq<Occurrence>, taxonomy: Taxonomy, t: string)
    requires occs != []
    ensures MapsTo(occs, taxonomy, t)
        <==> MapsTo(occs[..|occs| - 1], taxonomy, t) || Canonical(taxonomy, occs[|occs| - 1].topic) == t
  {
    var init := occs[..|occs| - 1];
    if MapsTo(init, taxonomy, t) {
      var k :| 0 <= k < |init| && Canonical(taxonomy, init[k].topic) == t;
      assert occs[k] == init[k];
    }
    if MapsTo(occs, taxonomy, t) {
      var k :| 0 <= k < |occs| && Canonical(taxonomy, occs[k].topic) == t;
      if k < |init| {
        assert init[k] == occs[k];
      }
    }
  }

  /** A second run on the same table adds its counts to the first run's instead of replacing them. */
  lemma RerunAccumulates(freq: Frequency, first: seq<Occurrence>, second: seq<Occurrence>,
                         tax1: Taxonomy, tax2: Taxonomy, t: string, d: Day)
    ensures Count(Tally(Tally(freq, first, tax1), second, tax2), t, d)
         == Count(freq, t, d) + Hits(first, tax1, t, d) + Hits(second, tax2, t, d)
  {
    TallyCounts(freq, first, tax1, t, d);
    TallyCounts(Tally(freq, first, tax1), second, tax2, t, d);
  }

  // ---------------------------------------------------------------- the total count

  /** The sum of the values of a map. */
  ghost function MapSum<K>(m: map<K, nat>): nat
    decreases |m.Keys|
  {
    if m == map[] then 0
    else
      var k :| k in m;
      assert (m - {k}).Keys < m.Keys;
      m[k] + MapSum(m - {k})
  }

  lemma {:induction false} MapSumRemove<K>(m: map<K, nat>, k: K)
    requires k in m
    ensures MapSum(m) == m[k] + MapSum(m - {k})
    decreases |m.Keys|
  {
    var j :| j in m && MapSum(m) == m[j] + MapSum(m - {j});
    if j != k {
      assert (m - {j}).Keys < m.Keys;
      assert (m - {k}).Keys < m.Keys;
      MapSumRemove(m - {j}, k);
      MapSumRemove(m - {k}, j);
      assert m - {j} - {k} == m - {k} - {j};
    }
  }

  lemma MapSumUpdate<K>(m: map<K, nat>, k: K, v: nat)
    ensures MapSum(m[k := v]) + (if k in m then m[k] else 0) == MapSum(m) + v
  {
    MapSumRemove(m[k := v], k);
    assert m[k := v] - {k} == m - {k};
    if k in m {
      MapSumRemove(m, k);
    } else {
      assert m - {k} == m;
    }
  }

  /** The count of every label over all days. */
  ghost function Totals(freq: Frequency): map<string, nat>
  {
    map t | t in freq :: MapSum(freq[t])
  }

  /** The sum of all counts of the table. */
  ghost function GrandTotal(freq: Frequency): nat
  {
    MapSum(Totals(freq))
  }

  lemma BumpTotal(freq: Frequency, t: string, d: Day)
    ensures GrandTotal(Bump(freq, t, d)) == GrandTotal(freq) + 1
  {
    var row: map<Day, nat> := if t in freq then freq[t] else map[];
    var row': map<Day, nat> := row[d := Count(freq, t, d) + 1];
    MapSumUpdate(row, d, Count(freq, t, d) + 1);
    assert Totals(Bump(freq, t, d)) == Totals(freq)[t := MapSum(row')];
    MapSumUpdate(Totals(freq), t, MapSum(row'));
    if t !in freq {
      assert MapSum(row) == 0;
    }
  }

  /** The counting adds exactly as much as there are occurrences. */
  lemma {:induction false} TallyTotal(freq: Frequency, occs: seq<Occurrence>, taxonomy: Taxonomy)
    ensures GrandTotal(Tally(freq, occs, taxonomy)) == GrandTotal(freq) + |occs|
  {
    if occs != [] {
      var init := occs[..|occs| - 1];
      var o := occs[|occs| - 1];
      TallyTotal(freq, init, taxonomy);
      BumpTotal(Tally(freq, init, taxonomy), Canonical(taxonomy, o.topic), o.day);
    }
  }

  /** Every occurrence names a collected label, so without any label there is nothing to count. */
  lemma {:induction false} OccurrencesTopics(results: seq<DayResult>, k: nat)
    requires k < |Occurrences(results)|
    ensures Occurrences(results)[k].topic in TopicsOf(results)
  {
    var init := results[..|results| - 1];
    var last := results[|results| - 1];
    if k < |Occurrences(init)| {
      OccurrencesTopics(init, k);
    } else {
      AnalysesOccurrencesTopics(last.day, last.analyses, k - |Occurrences(init)|);
    }
  }

  lemma {:induction false} AnalysesOccurrencesTopics(d: Day, analyses: seq<Analysis>, k: nat)
    requires k < |AnalysesOccurrences(d, analyses)|
    ensures AnalysesOccurrences(d, analyses)[k] == Occurrence(d, AnalysesOccurrences(d, analyses)[k].topic)
    ensures AnalysesOccurrences(d, analyses)[k].topic in AnalysesTopics(analyses)
  {
    var init := analyses[..|analyses| - 1];
    var last := analyses[|analyses| - 1];
    if k < |AnalysesOccurrences(d, init)| {
      AnalysesOccurrencesTopics(d, init, k);
    } else {
      var m := k - |AnalysesOccurrences(d, init)|;
      assert AnalysesOccurrences(d, analyses)[k] == TopicOccurrences(d, last.topics)[m];
      assert last.topics[m] in last.topics;
    }
  }

  // ---------------------------------------------------------------- the table

  /** One row of the table: a label and its count on each day of the range. */
  datatype Row = Row(topic: string, counts: seq<nat>)

  /** The table: the day columns and the rows (no rows and no columns when there is nothing to show). */
  datatype Frame = Frame(columns: seq<Day>, rows: seq<Row>)

  /** The row of label `t`: `date_counts.get(date, 0)` for each date. */
  function RowOf(freq: Frequency, t: string, dates: seq<Day>): (r: Row)
    ensures r.topic == t && |r.counts| == |dates|
    ensures forall j :: 0 <= j < |dates| ==> r.counts[j] == Count(freq, t, dates[j])
  {
    Row(t, seq(|dates|, j requires 0 <= j < |dates| => Count(freq, t, dates[j])))
  }

  /** The row total used as sort key. */
  function Total(r: Row): nat
  {
    Sum(r.counts)
  }

  ghost predicate NonIncreasing(rows: seq<Row>)
  {
    forall i, j :: 0 <= i < j < |rows| ==> Total(rows[i]) >= Total(rows[j])
  }

  function Topics(rows: seq<Row>): (ts: seq<string>)
    ensures |ts| == |rows| && forall i :: 0 <= i < |rows| ==> ts[i] == rows[i].topic
  {
    seq(|rows|, i requires 0 <= i < |rows| => rows[i].topic)
  }

  /** Places `r` after every row with a larger total. */
  function Insert(r: Row, rows: seq<Row>): (out: seq<Row>)
    requires NonIncreasing(rows)
    ensures NonIncreasing(out)
    ensures multiset(out) == multiset(rows) + multiset{r}
    ensures forall x :: x in out ==> x == r || x in rows
  {
    if rows == [] then [r]
    else
      HeadIsLargest(rows);
      if Total(r) >= Total(rows[0]) then
        ConsNonIncreasing(r, rows);
        [r] + rows
      else
        var rest := Insert(r, rows[1..]);
        assert rows == [rows[0]] + rows[1..];
        ConsNonIncreasing(rows[0], rest);
        [rows[0]] + rest
  }

  /** The first row of a table sorted by non-increasing total has the largest total. */
  lemma HeadIsLargest(rows: seq<Row>)
    requires rows != [] && NonIncreasing(rows)
    ensures forall y :: y in rows ==> Total(rows[0]) >= Total(y)
  {
    forall y | y in rows ensures Total(rows[0]) >= Total(y) {
      var k :| 0 <= k < |rows| && rows[k] == y;
      if k > 0 {
        assert Total(rows[0]) >= Total(rows[k]);
      }
    }
  }

  /** A row whose total is at least every other total may head a sorted table. */
  lemma ConsNonIncreasing(x: Row, rest: seq<Row>)
    requires NonIncreasing(rest)
    requires forall y :: y in rest ==> Total(x) >= Total(y)
    ensures NonIncreasing([x] + rest)
  {
    var out := [x] + rest;
    forall i, j | 0 <= i < j < |out| ensures Total(out[i]) >= Total(out[j]) {
      assert out[j] == rest[j - 1];
      if i > 0 {
        assert out[i] == rest[i - 1];
      } else {
        assert rest[j - 1] in rest;
      }
    }
  }

  /** `sort_values("Total", ascending=False)`: the same rows, by non-increasing total, ties in no particular order. */
  function SortByTotal(rows: seq<Row>): (out: seq<Row>)
    ensures NonIncreasing(out)
    ensures multiset(out) == multiset(rows)
  {
    if rows == [] then []
    else
      assert rows == [rows[0]] + rows[1..];
      Insert(rows[0], SortByTotal(rows[1..]))
  }

  /**
   * The table `generate_trend_table_range` returns for `freq` and the day
   * columns `dates`: no rows and no columns for an empty table; otherwise the
   * columns are the dates and the rows list every label once, each with its
   * zero-filled counts, totals not increasing down the table.
   */
  ghost predicate IsTrendTable(frame: Frame, freq: Frequency, dates: seq<Day>)
  {
    if freq == map[] then frame == Frame([], [])
    else
      && frame.columns == dates
      && IsEnumeration(Topics(frame.rows), freq.Keys)
      && (forall i :: 0 <= i < |frame.rows| ==> frame.rows[i] == RowOf(freq, frame.rows[i].topic, dates))
      && NonIncreasing(frame.rows)
  }

  /** In a sequence without repetitions every element is counted at most once ... */
  lemma {:induction false} DistinctCount<T>(xs: seq<T>, x: T)
    requires Distinct(xs)
    ensures multiset(xs)[x] <= 1
  {
    if xs != [] {
      var init := xs[..|xs| - 1];
      assert xs == init + [xs[|xs| - 1]];
      assert Distinct(init) by {
        forall i, j | 0 <= i < j < |init| ensures init[i] != init[j] {
          assert init[i] == xs[i] && init[j] == xs[j];
        }
      }
      DistinctCount(init, x);
      if x == xs[|xs| - 1] {
        assert x !in init by {
          forall i | 0 <= i < |init| ensures init[i] != x {
            assert init[i] == xs[i];
          }
        }
      }
    }
  }

  /** ... and an element found at two places is counted at least twice. */
  lemma RepeatCount<T>(xs: seq<T>, i: nat, j: nat)
    requires i < j < |xs| && xs[i] == xs[j]
    ensures multiset(xs)[xs[i]] >= 2
  {
    assert xs == xs[..i] + [xs[i]] + xs[i + 1..j] + [xs[j]] + xs[j + 1..];
  }

  /** Reordering rows that each list a different label of `keys` keeps every label listed once. */
  lemma PermutedRows(rows: seq<Row>, sorted: seq<Row>, freq: Frequency, dates: seq<Day>, keys: set<string>)
    requires multiset(sorted) == multiset(rows)
    requires IsEnumeration(Topics(rows), keys)
    requires forall i :: 0 <= i < |rows| ==> rows[i] == RowOf(freq, rows[i].topic, dates)
    ensures IsEnumeration(Topics(sorted), keys)
    ensures forall i :: 0 <= i < |sorted| ==> sorted[i] == RowOf(freq, sorted[i].topic, dates)
  {
    forall i | 0 <= i < |sorted| ensures sorted[i] in rows {
      assert sorted[i] in multiset(sorted);
    }
    forall i | 0 <= i < |sorted| ensures sorted[i] == RowOf(freq, sorted[i].topic, dates) && sorted[i].topic in keys {
      var p :| 0 <= p < |rows| && rows[p] == sorted[i];
      assert Topics(rows)[p] == rows[p].topic;
    }
    forall t | t in keys ensures t in Topics(sorted) {
      var p :| 0 <= p < |rows| && Topics(rows)[p] == t;
      assert rows[p] in multiset(sorted);
      var i :| 0 <= i < |sorted| && sorted[i] == rows[p];
      assert Topics(sorted)[i] == t;
    }
    assert Distinct(rows) by {
      forall i, j | 0 <= i < j < |rows| ensures rows[i] != rows[j] {
        assert Topics(rows)[i] != Topics(rows)[j];
      }
    }
    forall i, j | 0 <= i < j < |sorted| ensures Topics(sorted)[i] != Topics(sorted)[j] {
      if sorted[i].topic == sorted[j].topic {
        RepeatCount(sorted, i, j);
        DistinctCount(rows, sorted[i]);
      }
    }
  }

  /** The table is empty exactly when nothing was ever counted. */
  lemma TrendTableEmpty(frame: Frame, freq: Frequency, dates: seq<Day>)
    requires IsTrendTable(frame, freq, dates)
    ensures frame.rows == [] <==> freq == map[]
  {
    if freq != map[] {
      var t :| t in freq;
      assert t in Elems(Topics(frame.rows));
    }
  }

  /** The path `save_report` writes to. */
  function ReportPath(startDate: string, endDate: string, fmt: string): string
  {
    "output/trend_report_" + startDate + "_to_" + endDate + "." + fmt
  }

  /**
   * `save_report`: nothing is saved for an empty table; otherwise the file is
   * written (only "csv" and "xlsx" are written at all) and its path returned,
   * unless the write fails.
   */
  function SaveReport(frame: Frame, startDate: string, endDate: string, fmt: string, writeFails: bool): (path: Option<string>)
    ensures path.Some? <==> frame.rows != [] && !(writeFails && (fmt == "csv" || fmt == "xlsx"))
    ensures path.Some? ==> path.value == ReportPath(startDate, endDate, fmt)
  {
    if frame.rows == [] then None
    else if (fmt == "csv" || fmt == "xlsx") && writeFails then None
    else Some(ReportPath(startDate, endDate, fmt))
  }

  /** `BuildRows`'s inner loop: the counts of one label on each date. */
  method RowCounts(freq: Frequency, t: string, dates: seq<Day>) returns (row: Row)
    ensures row == RowOf(freq, t, dates)
  {
    var counts: seq<nat> := [];
    for j := 0 to |dates|
      invariant |counts| == j
      invariant forall m :: 0 <= m < j ==> counts[m] == Count(freq, t, dates[m])
    {
      counts := counts + [Count(freq, t, dates[j])];
    }
    row := Row(t, counts);
  }

  /** The row loop: one zero-filled row per label, in the order `keys`. */
  method BuildRows(freq: Frequency, keys: seq<string>, dates: seq<Day>) returns (rows: seq<Row>)
    ensures |rows| == |keys|
    ensures forall i :: 0 <= i < |keys| ==> rows[i] == RowOf(freq, keys[i], dates)
  {
    rows := [];
    for i := 0 to |keys|
      invariant |rows| == i
      invariant forall m :: 0 <= m < i ==> rows[m] == RowOf(freq, keys[m], dates)
    {
      var row := RowCounts(freq, keys[i], dates);
      rows := rows + [row];
    }
  }

  /**
   * One pass of the day loop of `aggregate_topic_data_range`: a day without
   * kept reviews is skipped; otherwise the analyser handles it, its analyses
   * join `daily_results` and their labels join `all_topics`.
   */
  method AnalyzeDay(analyzer: AgenticTopicAnalyzer, env: Environment, batchSize: NonZero, d: Day,
                    dailyResults: seq<DayResult>, allTopics: set<string>)
    returns (results: seq<DayResult>, topics: set<string>)
    requires analyzer.client == env.analysisClient && analyzer.decode == env.decodeAnalysis
    requires allTopics == TopicsOf(dailyResults)
    modifies analyzer
    ensures var w := VisitDay(env, KeptReviews(env), batchSize,
                              Walked(dailyResults, |old(analyzer.prompts)|, old(analyzer.canonicalTopics)), d);
      results == w.results && |analyzer.prompts| == w.calls && analyzer.canonicalTopics == w.vocab
    ensures topics == TopicsOf(results)
  {
    var processed := LoadDailyReviews(env.store(d));
    if processed == [] {
      return dailyResults, allTopics;
    }
    var dailyAnalysis := analyzer.ProcessDailyReviews(env.store(d), batchSize);
    results := dailyResults + [DayResult(d, dailyAnalysis)];
    assert results[..|results| - 1] == dailyResults;
    topics := CollectTopics(allTopics, dailyAnalysis);
  }

  /** The day loop of `aggregate_topic_data_range`, from `start` to `end` inclusive, by a fresh analyser. */
  method WalkRange(analyzer: AgenticTopicAnalyzer, env: Environment, batchSize: NonZero, start: Day, end: Day)
    returns (dailyResults: seq<DayResult>, allTopics: set<string>)
    requires analyzer.client == env.analysisClient && analyzer.decode == env.decodeAnalysis
    requires analyzer.prompts == [] && analyzer.canonicalTopics == Elems(env.seedTopics)
    modifies analyzer
    ensures dailyResults == DailyResults(env, batchSize, start, end)
    ensures allTopics == TopicsOf(dailyResults)
  {
    allTopics := {};
    dailyResults := [];
    var current := start;
    while current <= end
      invariant start <= current <= end + 1 || (current == start && start > end)
      invariant var w := Walk(env, KeptReviews(env), batchSize, DaysBetween(start, current - 1));
        dailyResults == w.results && |analyzer.prompts| == w.calls && analyzer.canonicalTopics == w.vocab
      invariant allTopics == TopicsOf(dailyResults)
      decreases end + 1 - current
    {
      ghost var w := Walk(env, KeptReviews(env), batchSize, DaysBetween(start, current - 1));
      assert Walked(dailyResults, |analyzer.prompts|, analyzer.canonicalTopics) == w;
      WalkSnoc(env, KeptReviews(env), batchSize, start, current);
      dailyResults, allTopics := AnalyzeDay(analyzer, env, batchSize, current, dailyResults, allTopics);
      current := current + 1;
    }
  }

  /** The first half of `aggregate_topic_data_range`: a fresh analyser walks the days. */
  method AnalyzeRange(env: Environment, batchSize: NonZero, start: Day, end: Day)
    returns (dailyResults: seq<DayResult>, allTopics: set<string>)
    ensures dailyResults == DailyResults(env, batchSize, start, end)
    ensures allTopics == TopicsOf(dailyResults)
  {
    var analyzer := FreshAnalyzer(env);
    dailyResults, allTopics := WalkRange(analyzer, env, batchSize, start, end);
  }

  /** `AgenticTopicAnalyzer(seed_topics)` with the environment's model: no call made yet, the vocabulary the seed topics. */
  method FreshAnalyzer(env: Environment) returns (analyzer: AgenticTopicAnalyzer)
    ensures fresh(analyzer)
    ensures analyzer.client == env.analysisClient && analyzer.decode == env.decodeAnalysis
    ensures analyzer.prompts == [] && analyzer.canonicalTopics == Elems(env.seedTopics)
  {
    analyzer := new AgenticTopicAnalyzer(env.seedTopics, env.analysisClient, env.decodeAnalysis);
  }

  /** `build_topic_taxonomy` by a fresh deduplicator, for the iteration order `topicList` of the labels. */
  method MergeLabels(env: Environment, allTopics: set<string>) returns (taxonomy: Taxonomy, ghost topicList: seq<string>)
    ensures IsEnumeration(topicList, allTopics)
    ensures taxonomy == TopicTaxonomy(topicList, env.groupingClient, env.decodeGroups, 0)
  {
    var deduplicator := new OptimizedTopicDeduplicator(env.groupingClient, env.decodeGroups);
    taxonomy, topicList := deduplicator.BuildTopicTaxonomy(allTopics);
  }

  // ---------------------------------------------------------------- the generator object

  class TrendReportGenerator {
    const batchSize: NonZero
    /** `self.topic_frequency`, never reset. */
    var topicFrequency: Frequency

    constructor(batchSize: Option<int>)
      ensures this.batchSize == EffectiveBatchSize(batchSize) && topicFrequency == map[]
    {
      this.batchSize := EffectiveBatchSize(batchSize);
      topicFrequency := map[];
    }

    /**
     * `aggregate_topic_data_range`: a fresh analyser walks the days; when any
     * label was found, a fresh deduplicator merges them all with one taxonomy
     * (for the order `topicList` the label set is iterated in), and every
     * occurrence is counted under its canonical label on top of the table.
     */
    method AggregateTopicDataRange(env: Environment, start: Day, end: Day)
      returns (ghost results: seq<DayResult>, ghost taxonomy: Taxonomy, ghost topicList: seq<string>)
      modifies this
      ensures results == DailyResults(env, batchSize, start, end)
      ensures IsEnumeration(topicList, TopicsOf(results))
      ensures taxonomy == TopicTaxonomy(topicList, env.groupingClient, env.decodeGroups, 0)
      ensures topicFrequency == Tally(old(topicFrequency), Occurrences(results), taxonomy)
      ensures TopicsOf(results) == {} ==> topicFrequency == old(topicFrequency)
    {
      var dailyResults, allTopics := AnalyzeRange(env, batchSize, start, end);
      results := dailyResults;
      if allTopics == {} {
        assert Occurrences(results) == [] by {
          if Occurrences(results) != [] {
            OccurrencesTopics(results, 0);
          }
        }
        return results, map[], [];
      }
      var topicTaxonomy;
      topicTaxonomy, topicList := MergeLabels(env, allTopics);
      taxonomy := topicTaxonomy;
      CountOccurrences(dailyResults, topicTaxonomy);
    }

    /** The counting loops: every topic-list entry of every analysis of every day, under its canonical label. */
    method CountOccurrences(dailyResults: seq<DayResult>, taxonomy: Taxonomy)
      modifies this
      ensures topicFrequency == Tally(old(topicFrequency), Occurrences(dailyResults), taxonomy)
    {
      for i := 0 to |dailyResults|
        invariant topicFrequency == Tally(old(topicFrequency), Occurrences(dailyResults[..i]), taxonomy)
      {
        assert dailyResults[..i + 1][..i] == dailyResults[..i];
        ghost var before := topicFrequency;
        CountDay(dailyResults[i].day, dailyResults[i].analyses, taxonomy);
        TallyAppend(old(topicFrequency), Occurrences(dailyResults[..i]),
                    AnalysesOccurrences(dailyResults[i].day, dailyResults[i].analyses), taxonomy);
      }
      assert dailyResults[..|dailyResults|] == dailyResults;
    }

    method CountDay(d: Day, analyses: seq<Analysis>, taxonomy: Taxonomy)
      modifies this
      ensures topicFrequency == Tally(old(topicFrequency), AnalysesOccurrences(d, analyses), taxonomy)
    {
      for j := 0 to |analyses|
        invariant topicFrequency == Tally(old(topicFrequency), AnalysesOccurrences(d, analyses[..j]), taxonomy)
      {
        assert analyses[..j + 1][..j] == analyses[..j];
        CountTopics(d, analyses[j].topics, taxonomy);
        TallyAppend(old(topicFrequency), AnalysesOccurrences(d, analyses[..j]),
                    TopicOccurrences(d, analyses[j].topics), taxonomy);
      }
      assert analyses[..|analyses|] == analyses;
    }

    method CountTopics(d: Day, topics: seq<string>, taxonomy: Taxonomy)
      modifies this
      ensures topicFrequency == Tally(old(topicFrequency), TopicOccurrences(d, topics), taxonomy)
    {
      for k := 0 to |topics|
        invariant topicFrequency == Tally(old(topicFrequency), TopicOccurrences(d, topics[..k]), taxonomy)
      {
        var occs := TopicOccurrences(d, topics[..k + 1]);
        assert occs[..k] == TopicOccurrences(d, topics[..k]);
        var canonical := Canonical(taxonomy, topics[k]);
        topicFrequency := Bump(topicFrequency, canonical, d);
      }
      assert topics[..|topics|] == topics;
    }

    /**
     * `generate_trend_table_range`: run the aggregation, then lay the whole
     * running table out over the days from `start` to `end`.
     */
    method GenerateTrendTableRange(env: Environment, start: Day, end: Day)
      returns (frame: Frame, ghost results: seq<DayResult>, ghost taxonomy: Taxonomy, ghost topicList: seq<string>)
      modifies this
      ensures results == DailyResults(env, batchSize, start, end)
      ensures IsEnumeration(topicList, TopicsOf(results))
      ensures taxonomy == TopicTaxonomy(topicList, env.groupingClient, env.decodeGroups, 0)
      ensures topicFrequency == Tally(old(topicFrequency), Occurrences(results), taxonomy)
      ensures IsTrendTable(frame, topicFrequency, DaysBetween(start, end))
    {
      results, taxonomy, topicList := AggregateTopicDataRange(env, start, end);
      var dates := DatesInRange(start, end);
      var keys := Enumerate(topicFrequency.Keys);
      var rows := BuildRows(topicFrequency, keys, dates);
      if rows == [] {
        frame := Frame([], []);
      } else {
        var sorted := SortByTotal(rows);
        assert Topics(rows) == keys;
        PermutedRows(rows, sorted, topicFrequency, dates, topicFrequency.Keys);
        frame := Frame(dates, sorted);
      }
    }
  }
}

/**
 * The topic deduplicator: asks the model to group at most `ChunkSize` labels
 * at a time, turns the groups it returns (with 1-based member positions) into
 * a label -> canonical-name map, and merges the maps of consecutive chunks.
 *
 * The model is the oracle `client` (the reply to the n-th call, counting from
 * 0); `decode` stands for `json.loads` followed by reading the `groups` list,
 * yielding `None` for text that is not JSON and `Unshaped` for JSON on which
 * reading the groups raises.
 */
module Deduplicator {
  import opened Wrappers
  import opened Seqs
  import opened Strings
  import opened Llm

  /** Lists of at most this many labels are not sent to the model. */
  const MinTopics := 5

  /** The labels are sent in chunks of this many. */
  const ChunkSize := 20

  /** One entry of `groups`; a missing name is "" and missing members are none. */
  datatype Group = Group(canonicalName: string, members: seq<int>)

  datatype GroupsPayload = Groups(groups: seq<Group>) | Unshaped

  type Taxonomy = map<string, string>

  // ---------------------------------------------------------------- the prompt

  /** The labels, one `i. label` line each, numbered from 1. */
  function NumberedLines(topics: seq<string>): seq<string>
  {
    seq(|topics|, i requires 0 <= i < |topics| => NatToString(i + 1) + ". " + topics[i])
  }

  /** Splitting the numbered block at newlines gives back one line per label, in order. */
  lemma NumberedLinesRoundTrip(topics: seq<string>)
    requires topics != []
    requires forall t :: t in topics ==> '\n' !in t
    ensures SplitOn('\n', Join("\n", NumberedLines(topics))) == NumberedLines(topics)
  {
    var lines := NumberedLines(topics);
    forall l | l in lines ensures '\n' !in l {
      var i :| 0 <= i < |lines| && lines[i] == l;
      assert topics[i] in topics;
      var num := NatToString(i + 1);
      assert l == num + ". " + topics[i];
      assert forall k :: 0 <= k < |num| ==> num[k] != '\n';
    }
    SplitJoin('\n', lines);
  }

  const GroupingIntro := "\nAnalyze these "

  const GroupingTopicsHeader :=
    " topics and identify groups that should be merged due to semantic similarity:\n"
    + "\n"
    + "TOPICS:\n"

  const GroupingInstructions :=
    "\n"
    + "\n"
    + "GROUP similar topics together. Only merge topics that are semantically the same issue/request.\n"
    + "\n"
    + "Examples of what SHOULD be grouped:\n"
    + "- \"App crashes\" and \"App keeps crashing\" \n"
    + "- \"Delivery late\" and \"Late delivery\"\n"
    + "- \"Bad food quality\" and \"Food quality poor\"\n"
    + "\n"
    + "Examples of what should NOT be grouped:\n"
    + "- \"App crashes\" and \"App slow\" (different issues)\n"
    + "- \"Food quality\" and \"Delivery issue\" (different categories)\n"
    + "\n"
    + "Respond with JSON only:\n"
    + "{\n"
    + "  \"groups\": [\n"
    + "    {\n"
    + "      \"canonical_name\": \"App crashes frequently\",\n"
    + "      \"members\": [1, 5, 12]\n"
    + "    },\n"
    + "    {\n"
    + "      \"canonical_name\": \"Late delivery\", \n"
    + "      \"members\": [3, 8]\n"
    + "    }\n"
    + "  ]\n"
    + "}\n"

  /** The grouping prompt for one chunk of labels. */
  function GroupingPrompt(topics: seq<string>): string
  {
    GroupingIntro + NatToString(|topics|) + GroupingTopicsHeader + Join("\n", NumberedLines(topics)) + GroupingInstructions
  }

  // ---------------------------------------------------------------- cleaning the reply

  /** Drops an opening "```json" or "```" and a closing "```" from the stripped reply, then strips again. */
  function StripFences(content: string): string
  {
    Strip(DropClosingFence(DropOpeningFence(Strip(content))))
  }

  function DropOpeningFence(s: string): string
  {
    if "```json" <= s then s[7..] else if "```" <= s then s[3..] else s
  }

  function DropClosingFence(s: string): string
  {
    if EndsWith(s, "```") then s[..|s| - 3] else s
  }

  /** A reply fenced as a JSON code block yields the stripped body. */
  lemma JsonFencedRoundTrip(body: string)
    ensures StripFences("```json\n" + body + "\n```") == Strip(body)
  {
    var tagged := "```json\n" + body + "\n```";
    assert tagged[0] == '`' && tagged[|tagged| - 1] == '`';
    assert Strip(tagged) == tagged;
    assert "```json" <= tagged;
    var rest := tagged[7..];
    assert rest == "\n" + body + "\n```";
    assert EndsWith(rest, "```");
    assert rest[..|rest| - 3] == ['\n'] + body + ['\n'];
    StripPadded(body, '\n', '\n');
  }

  /** A reply fenced as a plain code block yields the stripped body. */
  lemma PlainFencedRoundTrip(body: string)
    ensures StripFences("```\n" + body + "\n```") == Strip(body)
  {
    var plain := "```\n" + body + "\n```";
    assert plain[0] == '`' && plain[|plain| - 1] == '`';
    assert Strip(plain) == plain;
    assert plain[3] == '\n';
    assert !("```json" <= plain);
    assert "```" <= plain;
    var rest := plain[3..];
    assert rest == "\n" + body + "\n```";
    assert EndsWith(rest, "```");
    assert rest[..|rest| - 3] == ['\n'] + body + ['\n'];
    StripPadded(body, '\n', '\n');
  }

  /** A reply with no fence at either end is only stripped. */
  lemma UnfencedIsStripped(content: string)
    requires !("```" <= Strip(content)) && !EndsWith(Strip(content), "```")
    ensures StripFences(content) == Strip(content)
  {
  }

  // ---------------------------------------------------------------- groups to a mapping

  /** `taxonomy[topics_list[i - 1]] = canonical` for the in-range members `i`, in order. */
  function AssignMembers(m: Taxonomy, topics: seq<string>, canonical: string, members: seq<int>): Taxonomy
  {
    if members == [] then m
    else
      var before := AssignMembers(m, topics, canonical, members[..|members| - 1]);
      var i := members[|members| - 1];
      if 1 <= i <= |topics| then before[topics[i - 1] := canonical] else before
  }

  /** The mapping built from `groups`, group after group. */
  function GroupsMapping(topics: seq<string>, groups: seq<Group>): Taxonomy
  {
    if groups == [] then map[]
    else
      var g := groups[|groups| - 1];
      AssignMembers(GroupsMapping(topics, groups[..|groups| - 1]), topics, g.canonicalName, g.members)
  }

  /** Some in-range member of `g` points at the label `t`. */
  ghost predicate Claims(topics: seq<string>, g: Group, t: string)
  {
    exists k :: 0 <= k < |g.members| && 1 <= g.members[k] <= |topics| && topics[g.members[k] - 1] == t
  }

  lemma {:induction false} AssignMembersSpec(m: Taxonomy, topics: seq<string>, canonical: string, members: seq<int>, t: string)
    ensures var r := AssignMembers(m, topics, canonical, members);
      && (t in r <==> t in m || Claims(topics, Group(canonical, members), t))
      && (Claims(topics, Group(canonical, members), t) ==> r[t] == canonical)
      && (!Claims(topics, Group(canonical, members), t) && t in m ==> r[t] == m[t])
    decreases |members|
  {
    if members != [] {
      var n := |members| - 1;
      var init := members[..n];
      AssignMembersSpec(m, topics, canonical, init, t);
      ClaimsSnoc(topics, canonical, members, t);
    }
  }

  /** A group claims `t` when its members but the last do, or its last member points at `t`. */
  lemma ClaimsSnoc(topics: seq<string>, canonical: string, members: seq<int>, t: string)
    requires members != []
    ensures var n := |members| - 1; var i := members[n];
      (Claims(topics, Group(canonical, members), t)
       <==> Claims(topics, Group(canonical, members[..n]), t) || (1 <= i <= |topics| && topics[i - 1] == t))
  {
    var n := |members| - 1;
    var init := members[..n];
    var i := members[n];
    if Claims(topics, Group(canonical, init), t) {
      var k :| 0 <= k < |init| && 1 <= init[k] <= |topics| && topics[init[k] - 1] == t;
      assert members[k] == init[k];
    }
    if Claims(topics, Group(canonical, members), t) && !(1 <= i <= |topics| && topics[i - 1] == t) {
      var k :| 0 <= k < |members| && 1 <= members[k] <= |topics| && topics[members[k] - 1] == t;
      assert k < n && init[k] == members[k];
    }
    if 1 <= i <= |topics| && topics[i - 1] == t {
      assert members[n] == i;
    }
  }

  /**
   * The mapping has exactly the labels some group points at with an in-range
   * 1-based member; each is mapped to the name of the last group pointing at it.
   */
  lemma {:induction false} GroupsMappingSpec(topics: seq<string>, groups: seq<Group>, t: string)
    ensures t in GroupsMapping(topics, groups) <==> exists g :: 0 <= g < |groups| && Claims(topics, groups[g], t)
    ensures t in GroupsMapping(topics, groups) ==>
      exists g :: 0 <= g < |groups| && Claims(topics, groups[g], t)
        && GroupsMapping(topics, groups)[t] == groups[g].canonicalName
        && forall h :: g < h < |groups| ==> !Claims(topics, groups[h], t)
    decreases |groups|
  {
    if groups != [] {
      var n := |groups| - 1;
      var init := groups[..n];
      var last := groups[n];
      GroupsMappingSpec(topics, init, t);
      AssignMembersSpec(GroupsMapping(topics, init), topics, last.canonicalName, last.members, t);
      assert last == Group(last.canonicalName, last.members);
      assert forall g :: 0 <= g < n ==> groups[g] == init[g];
      var r := GroupsMapping(topics, groups);
      if t in r && !Claims(topics, last, t) {
        var g :| 0 <= g < n && Claims(topics, init[g], t)
          && GroupsMapping(topics, init)[t] == init[g].canonicalName
          && forall h :: g < h < n ==> !Claims(topics, init[h], t);
        assert forall h :: g < h < |groups| ==> !Claims(topics, groups[h], t);
      }
    }
  }

  /** Every label of the mapping is one of the chunk's labels. */
  lemma GroupsMappingKeys(topics: seq<string>, groups: seq<Group>)
    ensures forall t :: t in GroupsMapping(topics, groups) ==> t in topics
  {
    forall t | t in GroupsMapping(topics, groups) ensures t in topics {
      GroupsMappingSpec(topics, groups, t);
      var g :| 0 <= g < |groups| && Claims(topics, groups[g], t);
      var k :| 0 <= k < |groups[g].members| && 1 <= groups[g].members[k] <= |topics| && topics[groups[g].members[k] - 1] == t;
    }
  }

  /** The nested loops of `batch_merge_topics` that fill the mapping. */
  method GroupsToTaxonomy(topics: seq<string>, groups: seq<Group>) returns (taxonomy: Taxonomy)
    ensures taxonomy == GroupsMapping(topics, groups)
  {
    taxonomy := map[];
    for g := 0 to |groups|
      invariant taxonomy == GroupsMapping(topics, groups[..g])
    {
      var canonical := groups[g].canonicalName;
      var members := groups[g].members;
      ghost var base := taxonomy;
      for k := 0 to |members|
        invariant taxonomy == AssignMembers(base, topics, canonical, members[..k])
      {
        assert members[..k + 1][..k] == members[..k];
        var i := members[k];
        if 1 <= i <= |topics| {
          taxonomy := taxonomy[topics[i - 1] := canonical];
        }
      }
      assert members[..|members|] == members;
      assert groups[..g + 1][..g] == groups[..g];
    }
    assert groups[..|groups|] == groups;
  }

  // ---------------------------------------------------------------- one chunk

  /** What `batch_merge_topics` returns for `topics` when the model replies `reply`. */
  function ChunkMapping(topics: seq<string>, reply: Reply, decode: string -> Option<GroupsPayload>): Taxonomy
  {
    if |topics| <= MinTopics then map[]
    else
      match reply
      case Raised => map[]
      case Text(content) =>
        match decode(StripFences(content))
        case Some(Groups(groups)) => GroupsMapping(topics, groups)
        case _ => map[]
  }

  /** Each label is mapped to the name of a group of the decoded reply; small chunks and failures give nothing. */
  lemma ChunkMappingSpec(topics: seq<string>, reply: Reply, decode: string -> Option<GroupsPayload>)
    ensures |topics| <= MinTopics ==> ChunkMapping(topics, reply, decode) == map[]
    ensures reply == Raised ==> ChunkMapping(topics, reply, decode) == map[]
    ensures forall t :: t in ChunkMapping(topics, reply, decode) ==> t in topics
    ensures ChunkMapping(topics, reply, decode) != map[] ==>
      && |topics| > MinTopics && reply.Text?
      && decode(StripFences(reply.content)).Some? && decode(StripFences(reply.content)).value.Groups?
  {
    if |topics| > MinTopics && reply.Text? {
      var d := decode(StripFences(reply.content));
      if d.Some? && d.value.Groups? {
        assert ChunkMapping(topics, reply, decode) == GroupsMapping(topics, d.value.groups);
        GroupsMappingKeys(topics, d.value.groups);
      } else {
        assert ChunkMapping(topics, reply, decode) == map[];
      }
    }
  }

  // ---------------------------------------------------------------- all chunks

  /** Whether a chunk of this many labels is sent to the model. */
  function CallsFor(chunk: seq<string>): nat
  {
    if |chunk| > MinTopics then 1 else 0
  }

  /** The reply each chunk gets: every chunk that is sent takes the next call, the first being call `k`. */
  function ChunkReplies(chunks: seq<seq<string>>, client: nat -> Reply, k: nat): (rs: seq<Reply>)
    ensures |rs| == |chunks|
    decreases |chunks|
  {
    if chunks == [] then []
    else [client(k)] + ChunkReplies(chunks[1..], client, k + CallsFor(chunks[0]))
  }

  /** The mapping of each chunk, the first chunk answered by call `k`. */
  function ChunkMaps(chunks: seq<seq<string>>, client: nat -> Reply, decode: string -> Option<GroupsPayload>, k: nat): (ms: seq<Taxonomy>)
    ensures |ms| == |chunks|
  {
    var rs := ChunkReplies(chunks, client, k);
    seq(|chunks|, j requires 0 <= j < |chunks| => ChunkMapping(chunks[j], rs[j], decode))
  }

  /** `dict.update` of each map in turn: a later map wins. */
  function UnionAll(ms: seq<Taxonomy>): Taxonomy
  {
    if ms == [] then map[] else ms[0] + UnionAll(ms[1..])
  }

  /** Number of model calls the chunks make. */
  function Calls(chunks: seq<seq<string>>): nat
  {
    if chunks == [] then 0 else CallsFor(chunks[0]) + Calls(chunks[1..])
  }

  /** `build_topic_taxonomy` for the label order `topicList`, its first call being call `k`. */
  function TopicTaxonomy(topicList: seq<string>, client: nat -> Reply, decode: string -> Option<GroupsPayload>, k: nat): Taxonomy
  {
    if |topicList| <= MinTopics then map[] else UnionAll(ChunkMaps(Slices(topicList, ChunkSize), client, decode, k))
  }

  function TaxonomyCalls(topicList: seq<string>): nat
  {
    if |topicList| <= MinTopics then 0 else Calls(Slices(topicList, ChunkSize))
  }

  lemma MapUnionAssoc(a: Taxonomy, b: Taxonomy, c: Taxonomy)
    ensures (a + b) + c == a + (b + c)
  {
  }

  /** A map in `ms` other than the `j`-th that lacks `t` leaves the union's value at `t` to the `j`-th. */
  lemma {:induction false} UnionAllAt(ms: seq<Taxonomy>, j: nat, t: string)
    requires j < |ms|
    requires forall i :: 0 <= i < |ms| && i != j ==> t !in ms[i]
    ensures t in UnionAll(ms) <==> t in ms[j]
    ensures t in ms[j] ==> UnionAll(ms)[t] == ms[j][t]
    decreases |ms|
  {
    if j > 0 {
      UnionAllAt(ms[1..], j - 1, t);
    } else {
      UnionAllLacks(ms[1..], t);
    }
  }

  lemma {:induction false} UnionAllLacks(ms: seq<Taxonomy>, t: string)
    requires forall i :: 0 <= i < |ms| ==> t !in ms[i]
    ensures t !in UnionAll(ms)
    decreases |ms|
  {
    if ms != [] {
      UnionAllLacks(ms[1..], t);
    }
  }

  /** When every chunk but the last is large enough to be sent, chunk `j` is answered by call `k + j`. */
  lemma ChunkMapsAt(chunks: seq<seq<string>>, client: nat -> Reply, decode: string -> Option<GroupsPayload>, k: nat, j: nat)
    requires j < |chunks|
    requires forall i :: 0 <= i < |chunks| - 1 ==> |chunks[i]| > MinTopics
    ensures ChunkMaps(chunks, client, decode, k)[j] == ChunkMapping(chunks[j], client(k + j), decode)
  {
    CallsLarge(chunks, j);
    assert client(k + Calls(chunks[..j])) == client(k + j);
    ChunkMapsIndex(chunks, client, decode, k, j);
  }

  /** Chunk `j` is answered by the call that follows those of the chunks before it. */
  lemma ChunkMapsIndex(chunks: seq<seq<string>>, client: nat -> Reply, decode: string -> Option<GroupsPayload>, k: nat, j: nat)
    requires j < |chunks|
    ensures ChunkMaps(chunks, client, decode, k)[j] == ChunkMapping(chunks[j], client(k + Calls(chunks[..j])), decode)
  {
    ChunkRepliesIndex(chunks, client, k, j);
  }

  lemma {:induction false} ChunkRepliesIndex(chunks: seq<seq<string>>, client: nat -> Reply, k: nat, j: nat)
    requires j < |chunks|
    ensures ChunkReplies(chunks, client, k)[j] == client(k + Calls(chunks[..j]))
    decreases j
  {
    if j == 0 {
      assert chunks[..0] == [];
      assert client(k + Calls(chunks[..0])) == client(k);
    } else {
      var tail := chunks[1..];
      var k1 := k + CallsFor(chunks[0]);
      assert chunks[..j][1..] == tail[..j - 1];
      assert client(k + Calls(chunks[..j])) == client(k1 + Calls(tail[..j - 1]));
      ChunkRepliesIndex(tail, client, k1, j - 1);
    }
  }

  /** The first chunk is answered by call `k`; the others as if they came first from the next call on. */
  lemma ChunkMapsCons(chunks: seq<seq<string>>, client: nat -> Reply, decode: string -> Option<GroupsPayload>, k: nat)
    requires chunks != []
    ensures var ms := ChunkMaps(chunks, client, decode, k);
      && ms[0] == ChunkMapping(chunks[0], client(k), decode)
      && ms[1..] == ChunkMaps(chunks[1..], client, decode, k + CallsFor(chunks[0]))
  {
    var ms := ChunkMaps(chunks, client, decode, k);
    var rest := ChunkMaps(chunks[1..], client, decode, k + CallsFor(chunks[0]));
    var rs := ChunkReplies(chunks, client, k);
    var rs' := ChunkReplies(chunks[1..], client, k + CallsFor(chunks[0]));
    assert rs[0] == client(k) && rs[1..] == rs';
    forall i | 0 <= i < |rest| ensures ms[1..][i] == rest[i] {
      assert chunks[1..][i] == chunks[i + 1] && rs'[i] == rs[i + 1];
      assert rest[i] == ChunkMapping(chunks[i + 1], rs[i + 1], decode);
      assert ms[1..][i] == ms[i + 1] == ChunkMapping(chunks[i + 1], rs[i + 1], decode);
    }
  }

  /** Chunks all large enough to be sent make one call each. */
  lemma {:induction false} CallsLarge(chunks: seq<seq<string>>, j: nat)
    requires j <= |chunks|
    requires forall i :: 0 <= i < j ==> |chunks[i]| > MinTopics
    ensures Calls(chunks[..j]) == j
    decreases j
  {
    if j > 0 {
      var tail := chunks[1..];
      assert forall i :: 0 <= i < j - 1 ==> tail[i] == chunks[i + 1];
      CallsLarge(tail, j - 1);
      assert chunks[..j][1..] == tail[..j - 1];
    }
  }

  /** What the chunks of `list[i..]` merge to, the first answered by call `k`. */
  ghost function RestMerged(list: seq<string>, i: nat, client: nat -> Reply, decode: string -> Option<GroupsPayload>, k: nat): Taxonomy
    requires i <= |list|
  {
    UnionAll(ChunkMaps(Slices(list[i..], ChunkSize), client, decode, k))
  }

  ghost function RestCalls(list: seq<string>, i: nat): nat
    requires i <= |list|
  {
    Calls(Slices(list[i..], ChunkSize))
  }

  /** One pass of the chunk loop: the chunk from `i` to `hi` is merged first, then the rest. */
  lemma MergeStep(list: seq<string>, i: nat, hi: nat, client: nat -> Reply, decode: string -> Option<GroupsPayload>,
                  k: nat, acc: Taxonomy)
    requires i < |list| && hi == if i + ChunkSize <= |list| then i + ChunkSize else |list|
    ensures var m := ChunkMapping(list[i..hi], client(k), decode);
      && acc + RestMerged(list, i, client, decode, k) == (acc + m) + RestMerged(list, hi, client, decode, k + CallsFor(list[i..hi]))
      && RestCalls(list, i) == CallsFor(list[i..hi]) + RestCalls(list, hi)
  {
    SlicesStep(list, ChunkSize, i, hi);
    var cs := Slices(list[i..], ChunkSize);
    assert cs[0] == list[i..hi] && cs[1..] == Slices(list[hi..], ChunkSize);
    ChunkMapsCons(cs, client, decode, k);
    MapUnionAssoc(acc, ChunkMapping(list[i..hi], client(k), decode),
                  RestMerged(list, hi, client, decode, k + CallsFor(list[i..hi])));
  }

  lemma ChunkMapsKeys(chunks: seq<seq<string>>, client: nat -> Reply, decode: string -> Option<GroupsPayload>, k: nat, i: nat)
    requires i < |chunks|
    ensures forall t :: t in ChunkMaps(chunks, client, decode, k)[i] ==> t in chunks[i]
  {
    ChunkMappingSpec(chunks[i], ChunkReplies(chunks, client, k)[i], decode);
  }

  lemma {:induction false} DistinctAppendDisjoint<T>(a: seq<T>, b: seq<T>, x: T)
    requires Distinct(a + b)
    ensures Distinct(b)
    ensures x in a ==> x !in b
  {
    assert forall i :: 0 <= i < |b| ==> b[i] == (a + b)[|a| + i];
    forall i, j | 0 <= i < |a| && 0 <= j < |b| ensures a[i] != b[j] {
      assert (a + b)[i] == a[i] && (a + b)[|a| + j] == b[j];
    }
  }

  /** The pieces of a sequence without repetitions share no element. */
  lemma {:induction false} DistinctPiecesDisjoint<T>(ss: seq<seq<T>>, i: nat, j: nat, x: T)
    requires Distinct(Flatten(ss))
    requires i < |ss| && j < |ss| && i != j
    requires x in ss[i]
    ensures x !in ss[j]
    decreases |ss|
  {
    DistinctAppendDisjoint(ss[0], Flatten(ss[1..]), x);
    if i == 0 {
      FlattenMember(ss[1..], j - 1, x);
    } else if j == 0 {
      if x in ss[0] {
        FlattenMember(ss[1..], i - 1, x);
      }
    } else {
      DistinctPiecesDisjoint(ss[1..], i - 1, j - 1, x);
    }
  }

  lemma {:induction false} FlattenMember<T>(ss: seq<seq<T>>, i: nat, x: T)
    requires i < |ss|
    ensures x in ss[i] ==> x in Flatten(ss)
    decreases i
  {
    if i > 0 {
      FlattenMember(ss[1..], i - 1, x);
    }
  }

  /**
   * With distinct labels, chunks never mix: restricted to the labels of chunk
   * `j`, the merged taxonomy is exactly that chunk's mapping, answered by
   * call `k + j`; every label of the taxonomy comes from the list.
   */
  lemma TaxonomyChunkIsolation(topicList: seq<string>, client: nat -> Reply, decode: string -> Option<GroupsPayload>,
                               k: nat, j: nat, t: string)
    requires Distinct(topicList) && |topicList| > MinTopics
    requires j < |Slices(topicList, ChunkSize)| && t in Slices(topicList, ChunkSize)[j]
    ensures var m := ChunkMapping(Slices(topicList, ChunkSize)[j], client(k + j), decode);
      var tax := TopicTaxonomy(topicList, client, decode, k);
      && (t in tax <==> t in m)
      && (t in m ==> tax[t] == m[t])
  {
    var chunks := Slices(topicList, ChunkSize);
    var ms := ChunkMaps(chunks, client, decode, k);
    forall i | 0 <= i < |ms| && i != j ensures t !in ms[i] {
      DistinctPiecesDisjoint(chunks, j, i, t);
      ChunkMapsKeys(chunks, client, decode, k, i);
    }
    UnionAllAt(ms, j, t);
    ChunkMapsAt(chunks, client, decode, k, j);
  }

  /** Too few labels: no call and the empty taxonomy. Otherwise every label of the taxonomy is from the list. */
  lemma TopicTaxonomyKeys(topicList: seq<string>, client: nat -> Reply, decode: string -> Option<GroupsPayload>, k: nat)
    ensures |topicList| <= MinTopics ==> TopicTaxonomy(topicList, client, decode, k) == map[] && TaxonomyCalls(topicList) == 0
    ensures forall t :: t in TopicTaxonomy(topicList, client, decode, k) ==> t in topicList
  {
    if |topicList| > MinTopics {
      var chunks := Slices(topicList, ChunkSize);
      var ms := ChunkMaps(chunks, client, decode, k);
      forall t | t in UnionAll(ms) ensures t in topicList {
        var i := UnionAllSource(ms, t);
        ChunkMapsKeys(chunks, client, decode, k, i);
        FlattenMember(chunks, i, t);
      }
    }
  }

  lemma {:induction false} UnionAllSource(ms: seq<Taxonomy>, t: string) returns (i: nat)
    requires t in UnionAll(ms)
    ensures i < |ms| && t in ms[i]
    decreases |ms|
  {
    if t in ms[0] && t !in UnionAll(ms[1..]) {
      i := 0;
    } else {
      var i' := UnionAllSource(ms[1..], t);
      i := i' + 1;
    }
  }

  /** A final chunk of at most `MinTopics` labels contributes nothing: its labels stay unmapped. */
  lemma SmallLastChunkUnmapped(topicList: seq<string>, client: nat -> Reply, decode: string -> Option<GroupsPayload>,
                               k: nat, t: string)
    requires Distinct(topicList) && |topicList| > MinTopics
    requires var chunks := Slices(topicList, ChunkSize); |chunks[|chunks| - 1]| <= MinTopics && t in chunks[|chunks| - 1]
    ensures t !in TopicTaxonomy(topicList, client, decode, k)
  {
    var chunks := Slices(topicList, ChunkSize);
    TaxonomyChunkIsolation(topicList, client, decode, k, |chunks| - 1, t);
  }

  /** The reply cleaning of `batch_merge_topics`, one reassignment of `content` at a time. */
  method CleanFences(reply: string) returns (content: string)
    ensures content == StripFences(reply)
  {
    content := Strip(reply);
    ghost var stripped := content;
    if "```json" <= content {
      content := content[7..];
    } else if "```" <= content {
      content := content[3..];
    }
    assert content == DropOpeningFence(stripped);
    ghost var body := content;
    if EndsWith(content, "```") {
      content := content[..|content| - 3];
    }
    assert content == DropClosingFence(body);
    content := Strip(content);
  }

  // ---------------------------------------------------------------- the deduplicator object

  class OptimizedTopicDeduplicator {
    /** Every prompt sent to the model so far, in order. */
    var prompts: seq<string>
    const client: nat -> Reply
    const decode: string -> Option<GroupsPayload>

    constructor(client: nat -> Reply, decode: string -> Option<GroupsPayload>)
      ensures prompts == [] && this.client == client && this.decode == decode
    {
      prompts := [];
      this.client := client;
      this.decode := decode;
    }

    /** `batch_merge_topics`: at most `MinTopics` labels are not sent; any failure gives the empty mapping. */
    method BatchMergeTopics(topics: seq<string>) returns (taxonomy: Taxonomy)
      modifies this
      ensures taxonomy == ChunkMapping(topics, client(|old(prompts)|), decode)
      ensures prompts == old(prompts) + if |topics| > MinTopics then [GroupingPrompt(topics)] else []
      ensures |prompts| == |old(prompts)| + CallsFor(topics)
    {
      if |topics| <= MinTopics {
        return map[];
      }
      var prompt := GroupingPrompt(topics);
      var reply := client(|prompts|);
      prompts := prompts + [prompt];
      if reply.Raised? {
        return map[];
      }
      var content := CleanFences(reply.content);
      var result := decode(content);
      if result.None? || result.value.Unshaped? {
        return map[];
      }
      taxonomy := GroupsToTaxonomy(topics, result.value.groups);
    }

    /**
     * `build_topic_taxonomy`: the labels in the order the set yields them
     * (`topicList`), cut into chunks of `ChunkSize`, the chunk maps merged.
     */
    method BuildTopicTaxonomy(allTopics: set<string>) returns (taxonomy: Taxonomy, ghost topicList: seq<string>)
      modifies this
      ensures IsEnumeration(topicList, allTopics)
      ensures taxonomy == TopicTaxonomy(topicList, client, decode, |old(prompts)|)
      ensures |prompts| == |old(prompts)| + TaxonomyCalls(topicList) && prompts[..|old(prompts)|] == old(prompts)
    {
      var list := Enumerate(allTopics);
      topicList := list;
      if |list| <= MinTopics {
        return map[], topicList;
      }
      taxonomy := MergeChunks(list);
    }

    /** The chunk loop of `build_topic_taxonomy`. */
    method MergeChunks(list: seq<string>) returns (taxonomy: Taxonomy)
      requires |list| > MinTopics
      modifies this
      ensures taxonomy == TopicTaxonomy(list, client, decode, |old(prompts)|)
      ensures |prompts| == |old(prompts)| + TaxonomyCalls(list) && prompts[..|old(prompts)|] == old(prompts)
    {
      taxonomy := map[];
      ghost var k0 := |prompts|;
      assert list[0..] == list;
      var i := 0;
      while i < |list|
        invariant 0 <= i <= |list| && old(prompts) <= prompts
        invariant taxonomy + RestMerged(list, i, client, decode, |prompts|) == RestMerged(list, 0, client, decode, k0)
        invariant |prompts| + RestCalls(list, i) == k0 + RestCalls(list, 0)
        decreases |list| - i
      {
        i, taxonomy := AdvanceChunk(list, i, taxonomy);
      }
      assert list[|list|..] == [];
    }

    /**
     * One pass of the chunk loop: the chunk from `i` (`ChunkSize` labels or
     * what is left) is merged in, so that what the remaining chunks add
     * afterwards completes the same union.
     */
    method AdvanceChunk(list: seq<string>, i: nat, taxonomy: Taxonomy) returns (next: nat, merged: Taxonomy)
      requires i < |list|
      modifies this
      ensures next == if i + ChunkSize <= |list| then i + ChunkSize else |list|
      ensures merged + RestMerged(list, next, client, decode, |prompts|) == taxonomy + RestMerged(list, i, client, decode, |old(prompts)|)
      ensures |prompts| + RestCalls(list, next) == |old(prompts)| + RestCalls(list, i)
      ensures old(prompts) <= prompts
    {
      next, merged := MergeChunk(list, i, taxonomy);
      MergeStep(list, i, next, client, decode, |old(prompts)|, taxonomy);
    }

    /** `taxonomy.update(chunk_taxonomy)` for the chunk from `i`. */
    method MergeChunk(list: seq<string>, i: nat, taxonomy: Taxonomy) returns (next: nat, merged: Taxonomy)
      requires i < |list|
      modifies this
      ensures next == if i + ChunkSize <= |list| then i + ChunkSize else |list|
      ensures merged == taxonomy + ChunkMapping(list[i..next], client(|old(prompts)|), decode)
      ensures |prompts| == |old(prompts)| + CallsFor(list[i..next]) && old(prompts) <= prompts
    {
      next := if i + ChunkSize <= |list| then i + ChunkSize else |list|;
      var chunkTaxonomy := BatchMergeTopics(list[i..next]);
      merged := taxonomy + chunkTaxonomy;
    }
  }
}

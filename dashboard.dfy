/**
 * The statistics the dashboard derives from the document: role counts, the depth of the deepest
 * parent chain, a 20-slot activity histogram, the top keywords and the latest activity time.
 *
 * Timestamps are the integers `new Date(m.timestamp).getTime()` yields; `now` stands for
 * `Date.now()`.
 */
module Dashboard {
  import opened Wrappers
  import opened Types
  import opened Seqs
  import opened Sorting
  import opened Keywords

  // ----- role counts -----

  function IsHuman(): Message -> bool { (m: Message) => m.role == Human }

  function IsAssistant(): Message -> bool { (m: Message) => m.role == Assistant }

  /** Every message is either human or assistant, so the two counts make up the total. */
  lemma {:induction false} RoleCountsAddUp(ms: seq<Message>)
    ensures Count(ms, IsHuman()) + Count(ms, IsAssistant()) == |ms|
  {
    CountSplit(ms, IsHuman(), IsAssistant());
  }

  // ----- depth -----

  /** `new Map(messages.map(m => [m.id, m]))`: every id maps to the last message carrying it. */
  function MessageMap(ms: seq<Message>): (mm: map<string, Message>)
    ensures forall id :: id in mm ==> mm[id].id == id && mm[id] in ms
    ensures forall i :: 0 <= i < |ms| ==> ms[i].id in mm
    decreases |ms|
  {
    if ms == [] then map[] else MessageMap(ms[..|ms| - 1])[ms[|ms| - 1].id := ms[|ms| - 1]]
  }

  /** The map holds no more ids than there are messages. */
  lemma {:induction false} MessageMapSize(ms: seq<Message>)
    ensures |MessageMap(ms).Keys| <= |ms|
    decreases |ms|
  {
    if ms != [] {
      var init := ms[..|ms| - 1];
      MessageMapSize(init);
      var before, id := MessageMap(init).Keys, ms[|ms| - 1].id;
      assert MessageMap(ms).Keys == before + {id};
      if id in before {
        assert before + {id} == before;
      }
    }
  }

  /** A message no later message shares its id with is the one the map holds. */
  lemma {:induction false} MessageMapLastWins(ms: seq<Message>, i: nat)
    requires i < |ms|
    requires forall j :: i < j < |ms| ==> ms[j].id != ms[i].id
    ensures MessageMap(ms)[ms[i].id] == ms[i]
    decreases |ms|
  {
    if i < |ms| - 1 {
      MessageMapLastWins(ms[..|ms| - 1], i);
    }
  }

  /**
   * `getDepth(id)` with at most `fuel` steps up the parent chain: 0 for an id with no message,
   * 1 for a message without a (truthy) parent, else one more than the parent's depth; `None`
   * when the fuel runs out first.
   */
  function DepthWithin(mm: map<string, Message>, id: string, fuel: nat): Option<nat>
    decreases fuel
  {
    if id !in mm then Some(0)
    else if !Truthy(mm[id].parentId) then Some(1)
    else if fuel == 0 then None
    else match DepthWithin(mm, mm[id].parentId.value, fuel - 1)
      case None => None
      case Some(d) => Some(1 + d)
  }

  /** `getDepth(id)` returns: the parent chain from `id` ends (it has no visited set). */
  ghost predicate Terminates(mm: map<string, Message>, id: string) {
    exists fuel: nat :: DepthWithin(mm, id, fuel).Some?
  }

  /** More fuel than needed changes nothing. */
  lemma {:induction false} DepthFuelMonotone(mm: map<string, Message>, id: string, f: nat, g: nat)
    requires f <= g && DepthWithin(mm, id, f).Some?
    ensures DepthWithin(mm, id, g) == DepthWithin(mm, id, f)
    decreases f
  {
    if id in mm && Truthy(mm[id].parentId) {
      DepthFuelMonotone(mm, mm[id].parentId.value, f - 1, g - 1);
    }
  }

  /** The depth of a message whose chain ends. */
  ghost function Depth(mm: map<string, Message>, id: string): nat
    requires Terminates(mm, id)
  {
    var fuel: nat :| DepthWithin(mm, id, fuel).Some?; DepthWithin(mm, id, fuel).value
  }

  /** Any sufficient fuel gives `Depth`. */
  lemma {:induction false} DepthIsFuelFree(mm: map<string, Message>, id: string, f: nat)
    requires DepthWithin(mm, id, f).Some?
    ensures Terminates(mm, id) && Depth(mm, id) == DepthWithin(mm, id, f).value
  {
    var g: nat :| DepthWithin(mm, id, g).Some? && Depth(mm, id) == DepthWithin(mm, id, g).value;
    if f <= g { DepthFuelMonotone(mm, id, f, g); } else { DepthFuelMonotone(mm, id, g, f); }
  }

  /**
   * The recursion of `getDepth`: 0 for an unknown id, 1 without a parent, otherwise the
   * parent's chain ends too and the depth is one more than its depth (so a parent with no
   * message gives 1).
   */
  lemma {:induction false} DepthRecurrence(mm: map<string, Message>, id: string)
    requires Terminates(mm, id)
    ensures id !in mm ==> Depth(mm, id) == 0
    ensures id in mm && !Truthy(mm[id].parentId) ==> Depth(mm, id) == 1
    ensures id in mm && Truthy(mm[id].parentId) ==>
      Terminates(mm, mm[id].parentId.value) && Depth(mm, id) == 1 + Depth(mm, mm[id].parentId.value)
  {
    var f: nat :| DepthWithin(mm, id, f).Some?;
    DepthIsFuelFree(mm, id, f);
    if id in mm && Truthy(mm[id].parentId) {
      DepthIsFuelFree(mm, mm[id].parentId.value, f - 1);
    }
  }

  /** Every value in the `depthMap` memo is the depth of its id. */
  ghost predicate MemoValid(mm: map<string, Message>, memo: map<string, nat>) {
    forall k :: k in memo ==> Terminates(mm, k) && memo[k] == Depth(mm, k)
  }

  /**
   * `getDepth(id)` over the memo `depthMap`: a memoised value is returned as is; a computed
   * value is recorded for a message without a parent and for a message whose parent's depth was
   * computed, never for an unknown id.
   */
  method GetDepth(mm: map<string, Message>, id: string, memo: map<string, nat>)
    returns (d: nat, memo': map<string, nat>)
    requires Terminates(mm, id) && MemoValid(mm, memo)
    ensures d == Depth(mm, id)
    ensures MemoValid(mm, memo') && memo.Keys <= memo'.Keys
    decreases Depth(mm, id)
  {
    if id in memo {
      return memo[id], memo;
    }
    DepthRecurrence(mm, id);
    if id !in mm {
      return 0, memo;
    }
    var msg := mm[id];
    if !Truthy(msg.parentId) {
      return 1, memo[id := 1];
    }
    var parentDepth, memo1 := GetDepth(mm, msg.parentId.value, memo);
    d := 1 + parentDepth;
    memo' := memo1[id := d];
  }

  /** The id `k` steps up the parent chain from `id` (it stays put where the chain ends). */
  function Ancestor(mm: map<string, Message>, id: string, k: nat): string
    decreases k
  {
    if k == 0 then id
    else
      var a := Ancestor(mm, id, k - 1);
      if a in mm && Truthy(mm[a].parentId) then mm[a].parentId.value else a
  }

  /** Below the depth, every step of the chain has a message, and the depth drops by one per step. */
  lemma {:induction false} AncestorDepth(mm: map<string, Message>, id: string, k: nat)
    requires Terminates(mm, id) && k < Depth(mm, id)
    ensures Terminates(mm, Ancestor(mm, id, k)) && Ancestor(mm, id, k) in mm
    ensures Depth(mm, Ancestor(mm, id, k)) == Depth(mm, id) - k
    decreases k
  {
    if k == 0 {
      DepthRecurrence(mm, id);
    } else {
      AncestorDepth(mm, id, k - 1);
      var a := Ancestor(mm, id, k - 1);
      DepthRecurrence(mm, a);
      DepthRecurrence(mm, Ancestor(mm, id, k));
    }
  }

  /** `d` pairwise different values drawn from `pool` need a pool of at least `d` elements. */
  lemma {:induction false} InjectiveBound(f: nat -> string, d: nat, pool: set<string>)
    requires forall k :: 0 <= k < d ==> f(k) in pool
    requires forall i, j :: 0 <= i < j < d ==> f(i) != f(j)
    ensures d <= |pool|
    decreases d
  {
    if d > 0 {
      var x := f(d - 1);
      InjectiveBound(f, d - 1, pool - {x});
      assert pool == (pool - {x}) + {x};
    }
  }

  /** The steps of a chain that ends are distinct messages, so no depth exceeds the number of messages. */
  lemma {:induction false} DepthBound(ms: seq<Message>, id: string)
    requires Terminates(MessageMap(ms), id)
    ensures Depth(MessageMap(ms), id) <= |ms|
  {
    var mm := MessageMap(ms);
    var d := Depth(mm, id);
    var step := (k: nat) => Ancestor(mm, id, k);
    forall k | 0 <= k < d ensures Terminates(mm, step(k)) && step(k) in mm && Depth(mm, step(k)) == d - k {
      AncestorDepth(mm, id, k);
    }
    forall i, j | 0 <= i < j < d ensures step(i) != step(j) {
      assert Depth(mm, step(i)) != Depth(mm, step(j));
    }
    InjectiveBound(step, d, mm.Keys);
    MessageMapSize(ms);
  }

  /** Every message's chain ends, so `getDepth` returns for each of them. */
  ghost predicate Acyclic(ms: seq<Message>) {
    forall i :: 0 <= i < |ms| ==> Terminates(MessageMap(ms), ms[i].id)
  }

  /** `maxDepth` after the `forEach` over `ms`: the greater of each message's depth and the running maximum. */
  ghost function MaxDepthOf(mm: map<string, Message>, ms: seq<Message>): nat
    requires forall i :: 0 <= i < |ms| ==> Terminates(mm, ms[i].id)
    decreases |ms|
  {
    if ms == [] then 0
    else
      var d := Depth(mm, ms[|ms| - 1].id);
      var r := MaxDepthOf(mm, ms[..|ms| - 1]);
      if d > r then d else r
  }

  /** The running maximum is the largest depth, and 0 only for no messages or depths of 0. */
  lemma {:induction false} MaxDepthIsMax(mm: map<string, Message>, ms: seq<Message>)
    requires forall i :: 0 <= i < |ms| ==> Terminates(mm, ms[i].id)
    ensures forall i :: 0 <= i < |ms| ==> Depth(mm, ms[i].id) <= MaxDepthOf(mm, ms)
    ensures ms == [] ==> MaxDepthOf(mm, ms) == 0
    ensures ms != [] ==> exists i :: 0 <= i < |ms| && MaxDepthOf(mm, ms) == Depth(mm, ms[i].id)
    decreases |ms|
  {
    if ms != [] {
      var init := ms[..|ms| - 1];
      MaxDepthIsMax(mm, init);
      forall i | 0 <= i < |ms| ensures Depth(mm, ms[i].id) <= MaxDepthOf(mm, ms) {
        if i < |init| { assert ms[i] == init[i]; }
      }
      if init != [] && MaxDepthOf(mm, ms) == MaxDepthOf(mm, init) {
        var j :| 0 <= j < |init| && MaxDepthOf(mm, init) == Depth(mm, init[j].id);
        assert ms[j] == init[j];
      } else {
        assert MaxDepthOf(mm, ms) == Depth(mm, ms[|ms| - 1].id);
      }
    }
  }

  /** With every chain ending, the maximum depth is at most the number of messages. */
  lemma {:induction false} MaxDepthBound(ms: seq<Message>)
    requires Acyclic(ms)
    ensures MaxDepthOf(MessageMap(ms), ms) <= |ms|
  {
    MaxDepthIsMax(MessageMap(ms), ms);
    if ms != [] {
      var i :| 0 <= i < |ms| && MaxDepthOf(MessageMap(ms), ms) == Depth(MessageMap(ms), ms[i].id);
      DepthBound(ms, ms[i].id);
    }
  }

  /** The `forEach` computing `maxDepth`, sharing one `depthMap` across all calls of `getDepth`. */
  method MaxDepth(ms: seq<Message>) returns (maxDepth: nat)
    requires Acyclic(ms)
    ensures maxDepth == MaxDepthOf(MessageMap(ms), ms)
  {
    var messageMap := MessageMap(ms);
    var depthMap: map<string, nat> := map[];
    maxDepth := 0;
    for i := 0 to |ms|
      invariant MemoValid(messageMap, depthMap)
      invariant maxDepth == MaxDepthOf(messageMap, ms[..i])
    {
      assert ms[..i + 1][..i] == ms[..i];
      var depth;
      depth, depthMap := GetDepth(messageMap, ms[i].id, depthMap);
      if depth > maxDepth {
        maxDepth := depth;
      }
    }
    assert ms[..|ms|] == ms;
  }

  // ----- activity bins -----

  const BinCount := 20

  /** `Math.min(Math.floor((relative / timeSpan) * binCount), binCount - 1)`, on integers. */
  function BinIndex(t: int, start: int, span: int): (k: nat)
    requires span > 0 && start <= t
    ensures k < BinCount
    ensures k == BinCount - 1 || k * span <= (t - start) * BinCount < (k + 1) * span
  {
    var q := (t - start) * BinCount / span;
    if q < BinCount - 1 then q else BinCount - 1
  }

  /** The message falls in bin `k`. */
  function InBin(k: nat, start: int, span: int): Message -> bool {
    (m: Message) => span > 0 && start <= m.timestamp && BinIndex(m.timestamp, start, span) == k
  }

  /** The bins after `bins[idx]++` for every message of `ms`, in order. */
  function Binned(ms: seq<Message>, start: int, span: int): (r: seq<nat>)
    requires span > 0 && forall i :: 0 <= i < |ms| ==> start <= ms[i].timestamp
    ensures |r| == BinCount
    decreases |ms|
  {
    if ms == [] then seq(BinCount, _ => 0)
    else
      var r0 := Binned(ms[..|ms| - 1], start, span);
      var k := BinIndex(ms[|ms| - 1].timestamp, start, span);
      r0[k := r0[k] + 1]
  }

  function Sum(s: seq<nat>): nat
    decreases |s|
  {
    if s == [] then 0 else s[0] + Sum(s[1..])
  }

  lemma {:induction false} SumIncrement(s: seq<nat>, k: nat)
    requires k < |s|
    ensures Sum(s[k := s[k] + 1]) == Sum(s) + 1
    decreases |s|
  {
    if k > 0 {
      assert s[k := s[k] + 1][1..] == s[1..][k - 1 := s[k] + 1];
      SumIncrement(s[1..], k - 1);
    }
  }

  lemma {:induction false} SumZeros(n: nat)
    ensures Sum(seq(n, _ => 0)) == 0
    decreases n
  {
    if n > 0 {
      assert seq(n, _ => 0)[1..] == seq(n - 1, _ => 0);
      SumZeros(n - 1);
    }
  }

  /** Each message lands in exactly one bin: the bins add up to the number of messages. */
  lemma {:induction false} BinnedSum(ms: seq<Message>, start: int, span: int)
    requires span > 0 && forall i :: 0 <= i < |ms| ==> start <= ms[i].timestamp
    ensures Sum(Binned(ms, start, span)) == |ms|
    decreases |ms|
  {
    if ms == [] {
      SumZeros(BinCount);
    } else {
      BinnedSum(ms[..|ms| - 1], start, span);
      SumIncrement(Binned(ms[..|ms| - 1], start, span), BinIndex(ms[|ms| - 1].timestamp, start, span));
    }
  }

  /** Bin `k` counts exactly the messages whose index is `k`. */
  lemma {:induction false} BinnedCounts(ms: seq<Message>, start: int, span: int, k: nat)
    requires span > 0 && forall i :: 0 <= i < |ms| ==> start <= ms[i].timestamp
    requires k < BinCount
    ensures Binned(ms, start, span)[k] == Count(ms, InBin(k, start, span))
    decreases |ms|
  {
    if ms != [] {
      var init, last := ms[..|ms| - 1], ms[|ms| - 1];
      BinnedCounts(init, start, span, k);
      assert ms == init + [last];
      FilterAppend(init, [last], InBin(k, start, span));
    }
  }

  /** The `forEach` over the sorted messages incrementing `bins[idx]`, on an array of 20 zeros. */
  method ComputeBins(sorted: seq<Message>, start: int, span: int) returns (bins: seq<nat>)
    requires span > 0 && forall i :: 0 <= i < |sorted| ==> start <= sorted[i].timestamp
    ensures bins == Binned(sorted, start, span)
  {
    var a := new nat[BinCount](_ => 0);
    assert a[..] == seq(BinCount, _ => 0);
    for i := 0 to |sorted|
      invariant a[..] == Binned(sorted[..i], start, span)
    {
      assert sorted[..i + 1][..i] == sorted[..i];
      var idx := BinIndex(sorted[i].timestamp, start, span);
      a[idx] := a[idx] + 1;
    }
    assert sorted[..|sorted|] == sorted;
    bins := a[..];
  }

  /** `startTime`: the earliest timestamp, or `now` with no messages. */
  function StartTime(sorted: seq<Message>, now: int): int {
    if |sorted| > 0 then sorted[0].timestamp else now
  }

  /** `endTime - startTime || 1`, with `endTime` the latest timestamp or `now`. */
  function Span(sorted: seq<Message>, now: int): int {
    var end := if |sorted| > 0 then sorted[|sorted| - 1].timestamp else now;
    if end - StartTime(sorted, now) != 0 then end - StartTime(sorted, now) else 1
  }

  /** Along a sorted sequence no timestamp precedes the first, so the span is positive. */
  lemma {:induction false} SortedFromStart(sorted: seq<Message>, now: int)
    requires SortedBy(sorted, TimestampOf)
    ensures Span(sorted, now) > 0
    ensures forall i :: 0 <= i < |sorted| ==> StartTime(sorted, now) <= sorted[i].timestamp
  {
    assert forall i :: 0 <= i < |sorted| ==> TimestampOf(sorted[0]) <= TimestampOf(sorted[i]);
  }

  /** The histogram over the messages sorted by time, from the first timestamp across the whole span. */
  ghost function ActivityBins(ms: seq<Message>, now: int): seq<nat> {
    var sorted := SortBy(ms, TimestampOf);
    SortBySorted(ms, TimestampOf);
    SortedFromStart(sorted, now);
    Binned(sorted, StartTime(sorted, now), Span(sorted, now))
  }

  /** The bins over the messages sorted by time, as `ComputeBins` fills them. */
  method Activity(messages: seq<Message>, now: int) returns (bins: seq<nat>, lastActive: Option<int>)
    ensures bins == ActivityBins(messages, now)
    ensures lastActive == LastActive(SortBy(messages, TimestampOf))
  {
    var sortedMessages := SortBy(messages, TimestampOf);
    SortBySorted(messages, TimestampOf);
    SortedFromStart(sortedMessages, now);
    bins := ComputeBins(sortedMessages, StartTime(sortedMessages, now), Span(sortedMessages, now));
    lastActive := LastActive(sortedMessages);
  }

  /** Every message lands in exactly one of the 20 bins, so they add up to the number of messages. */
  lemma {:induction false} ActivityBinsSum(ms: seq<Message>, now: int)
    ensures |ActivityBins(ms, now)| == BinCount
    ensures Sum(ActivityBins(ms, now)) == |ms|
  {
    var sorted := SortBy(ms, TimestampOf);
    SortBySorted(ms, TimestampOf);
    SortedFromStart(sorted, now);
    BinnedSum(sorted, StartTime(sorted, now), Span(sorted, now));
  }

  // ----- the statistics -----

  /** `allContent`: the messages' contents, in order. */
  function Contents(ms: seq<Message>): (r: seq<string>)
    ensures |r| == |ms| && forall i :: 0 <= i < |ms| ==> r[i] == ms[i].content
  {
    seq(|ms|, i requires 0 <= i < |ms| => ms[i].content)
  }

  /** `lastActive`: the last timestamp of the sorted messages, none for no messages. */
  function LastActive(sorted: seq<Message>): Option<int> {
    if |sorted| > 0 then Some(sorted[|sorted| - 1].timestamp) else None
  }

  /** `lastActive` is the latest timestamp of all messages, and it is absent exactly for no messages. */
  lemma {:induction false} LastActiveIsLatest(ms: seq<Message>)
    ensures LastActive(SortBy(ms, TimestampOf)).None? <==> ms == []
    ensures ms != [] ==>
      && (forall i :: 0 <= i < |ms| ==> ms[i].timestamp <= LastActive(SortBy(ms, TimestampOf)).value)
      && (exists i :: 0 <= i < |ms| && ms[i].timestamp == LastActive(SortBy(ms, TimestampOf)).value)
  {
    if ms != [] {
      var sorted := SortBy(ms, TimestampOf);
      SortedFirstIsLeast(ms, TimestampOf);
      assert sorted[|sorted| - 1] in multiset(ms);
    }
  }

  /** The values of `stats` that are not floating point. */
  datatype Stats = Stats(
    totalMessages: nat,
    totalBranches: nat,
    userMessages: nat,
    aiMessages: nat,
    maxDepth: nat,
    topKeywords: seq<string>,
    bins: seq<nat>,
    lastActive: Option<int>)

  /** What the `useMemo` block computes for a document. */
  ghost function StatsOf(data: Data, now: int): Stats
    requires Acyclic(data.messages)
  {
    var ms := data.messages;
    Stats(|ms|, |data.branches|, Count(ms, IsHuman()), Count(ms, IsAssistant()),
          MaxDepthOf(MessageMap(ms), ms), KeywordsOf(Contents(ms), 10), ActivityBins(ms, now),
          LastActive(SortBy(ms, TimestampOf)))
  }

  /** The `useMemo` block: no statistics without a document. */
  method ComputeStats(data: Option<Data>, now: int) returns (stats: Option<Stats>)
    requires data.Some? ==> Acyclic(data.value.messages)
    ensures data.None? ==> stats == None
    ensures data.Some? ==> stats == Some(StatsOf(data.value, now))
  {
    if data.None? {
      return None;
    }
    var messages := data.value.messages;
    var maxDepth := MaxDepth(messages);
    var topKeywords := ExtractKeywords(Contents(messages), 10);
    var bins, lastActive := Activity(messages, now);
    stats := Some(Stats(|messages|, |data.value.branches|, Count(messages, IsHuman()), Count(messages, IsAssistant()),
                        maxDepth, topKeywords, bins, lastActive));
  }

  /**
   * The counts of a document's statistics: user and assistant messages add up to the total,
   * and so do the 20 bins.
   */
  lemma {:induction false} StatsCounts(data: Data, now: int)
    requires Acyclic(data.messages)
    ensures StatsOf(data, now).userMessages + StatsOf(data, now).aiMessages == StatsOf(data, now).totalMessages
    ensures |StatsOf(data, now).bins| == BinCount && Sum(StatsOf(data, now).bins) == StatsOf(data, now).totalMessages
  {
    RoleCountsAddUp(data.messages);
    ActivityBinsSum(data.messages, now);
  }

  /**
   * The maximum depth of a document's statistics is the largest depth of any message, 0
   * without messages and at most the number of messages.
   */
  lemma {:induction false} StatsMaxDepth(data: Data, now: int)
    requires Acyclic(data.messages)
    ensures forall i :: 0 <= i < |data.messages| ==>
      Depth(MessageMap(data.messages), data.messages[i].id) <= StatsOf(data, now).maxDepth
    ensures data.messages == [] ==> StatsOf(data, now).maxDepth == 0
    ensures StatsOf(data, now).maxDepth <= |data.messages|
  {
    MaxDepthIsMax(MessageMap(data.messages), data.messages);
    MaxDepthBound(data.messages);
  }

  /** `lastActive` of a document's statistics is its latest timestamp, absent without messages. */
  lemma {:induction false} StatsLastActive(data: Data, now: int)
    requires Acyclic(data.messages)
    ensures StatsOf(data, now).lastActive.None? <==> data.messages == []
    ensures data.messages != [] ==>
      forall i :: 0 <= i < |data.messages| ==> data.messages[i].timestamp <= StatsOf(data, now).lastActive.value
  {
    LastActiveIsLatest(data.messages);
  }
}

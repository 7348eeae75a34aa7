/**
  * `GET /api/analytics/overview`: a histogram of transaction types over the recent
  * transactions (top six, with rounded percentages), the mean block time over the recent
  * blocks, and the first ten blocks as volume points.
  */
module Overview {
  import opened Wrappers
  import opened Numeric
  import opened Seqs
  import opened NodeApi
  import opened Babylon
  import opened Classify

  /** The histogram key of a transaction with a message: its first message's type. */
  function TypeKey(tx: NodeTx): string
    requires tx.messages != []
  {
    OverviewTypeOf(tx.messages[0].typeUrl)
  }

  /** The histogram key of each transaction that has a first message, in order. */
  function TypesOf(txs: seq<NodeTx>): (types: seq<string>)
    ensures |types| <= |txs|
    decreases |txs|
  {
    if txs == [] then []
    else
      var last := txs[|txs| - 1];
      TypesOf(txs[..|txs| - 1]) + (if last.messages != [] then [TypeKey(last)] else [])
  }

  /** How often `t` occurs in `s`. */
  function Occurrences(s: seq<string>, t: string): nat
    decreases |s|
  {
    if s == [] then 0 else Occurrences(s[..|s| - 1], t) + (if s[|s| - 1] == t then 1 else 0)
  }

  /** The distinct elements of `s` in order of first appearance (the dictionary's key order). */
  function Distinct(s: seq<string>): (d: seq<string>)
    ensures forall t :: t in d <==> t in s
    ensures forall i, j :: 0 <= i < j < |d| ==> d[i] != d[j]
    decreases |s|
  {
    if s == [] then []
    else
      var prefix := Distinct(s[..|s| - 1]);
      var last := s[|s| - 1];
      assert forall t :: t in s <==> t in s[..|s| - 1] || t == last by {
        assert s == s[..|s| - 1] + [last];
      }
      if last in prefix then prefix else prefix + [last]
  }

  datatype TypeCount = TypeCount(txType: string, count: nat)

  /** `Object.entries(txTypeCounts)`: each key with its count, in key order. */
  function Entries(counts: map<string, nat>, keys: seq<string>): seq<TypeCount>
    requires forall k :: k in keys ==> k in counts
  {
    seq(|keys|, i requires 0 <= i < |keys| => TypeCount(keys[i], counts[keys[i]]))
  }

  /** Each of `keys` with its number of occurrences in `types`. */
  function HistogramOver(keys: seq<string>, types: seq<string>): seq<TypeCount> {
    seq(|keys|, i requires 0 <= i < |keys| => TypeCount(keys[i], Occurrences(types, keys[i])))
  }

  /** The histogram of `types`: every distinct key with its number of occurrences. */
  function Histogram(types: seq<string>): seq<TypeCount> {
    HistogramOver(Distinct(types), types)
  }

  /** Counting one more transaction of type `t`: its count goes up, or it becomes a new key. */
  function Tally(counts: map<string, nat>, keys: seq<string>, t: string): (map<string, nat>, seq<string>) {
    if t in counts then (counts[t := counts[t] + 1], keys) else (counts[t := 1], keys + [t])
  }

  /** The counts and key order that the dictionary holds after counting `types`. */
  ghost predicate Counted(counts: map<string, nat>, keys: seq<string>, types: seq<string>) {
    && keys == Distinct(types)
    && (forall t :: t in counts <==> t in keys)
    && (forall t :: t in counts ==> counts[t] == Occurrences(types, t))
  }

  lemma TallyCounts(counts: map<string, nat>, keys: seq<string>, types: seq<string>, t: string)
    requires Counted(counts, keys, types)
    ensures Counted(Tally(counts, keys, t).0, Tally(counts, keys, t).1, types + [t])
  {
    var s := types + [t];
    assert s[..|s| - 1] == types;
    forall u
      ensures Occurrences(s, u) == Occurrences(types, u) + (if u == t then 1 else 0)
    {
    }
    if t !in counts {
      OccurrencesAbsent(types, t);
    }
  }

  /** The dictionary after counting `types` one after the other from an empty one. */
  function TallyAll(types: seq<string>): (map<string, nat>, seq<string>)
    decreases |types|
  {
    if types == [] then (map[], [])
    else
      var (counts, keys) := TallyAll(types[..|types| - 1]);
      Tally(counts, keys, types[|types| - 1])
  }

  lemma {:induction false} TallyAllCounted(types: seq<string>)
    ensures Counted(TallyAll(types).0, TallyAll(types).1, types)
    decreases |types|
  {
    if types != [] {
      var init := types[..|types| - 1];
      TallyAllCounted(init);
      TallyCounts(TallyAll(init).0, TallyAll(init).1, init, types[|types| - 1]);
      assert init + [types[|types| - 1]] == types;
    }
  }

  lemma TallyAllStep(types: seq<string>, t: string)
    ensures TallyAll(types + [t]) == Tally(TallyAll(types).0, TallyAll(types).1, t)
  {
    assert (types + [t])[..|types|] == types;
  }

  /** The dictionary's entries are the histogram of what was counted. */
  lemma CountedEntries(counts: map<string, nat>, keys: seq<string>, types: seq<string>)
    requires Counted(counts, keys, types)
    ensures Entries(counts, keys) == Histogram(types)
  {
  }

  lemma TypesOfStep(txs: seq<NodeTx>, i: nat)
    requires i < |txs|
    ensures txs[i].messages == [] ==> TypesOf(txs[..i + 1]) == TypesOf(txs[..i])
    ensures txs[i].messages != [] ==>
      TypesOf(txs[..i + 1]) == TypesOf(txs[..i]) + [TypeKey(txs[i])]
  {
    assert txs[..i + 1][..i] == txs[..i];
    assert TypesOf(txs[..i]) + [] == TypesOf(txs[..i]);
  }

  /**
    * The `forEach` that fills `txTypeCounts`: one increment per transaction with a message,
    * under its classified type; `keys` records the order in which keys were created.
    */
  method CountTxTypes(txs: seq<NodeTx>) returns (counts: map<string, nat>, keys: seq<string>)
    ensures keys == Distinct(TypesOf(txs))
    ensures forall t :: t in counts <==> t in keys
    ensures forall t :: t in counts ==> counts[t] == Occurrences(TypesOf(txs), t)
    ensures Entries(counts, keys) == Histogram(TypesOf(txs))
  {
    counts := map[];
    keys := [];
    var i := 0;
    while i < |txs|
      invariant 0 <= i <= |txs|
      invariant (counts, keys) == TallyAll(TypesOf(txs[..i]))
    {
      var tx := txs[i];
      TypesOfStep(txs, i);
      if tx.messages != [] {
        var t := TypeKey(tx);
        TallyAllStep(TypesOf(txs[..i]), t);
        if t in counts {
          counts := counts[t := counts[t] + 1];
        } else {
          counts := counts[t := 1];
          keys := keys + [t];
        }
      }
      i := i + 1;
    }
    assert txs[..i] == txs;
    TallyAllCounted(TypesOf(txs));
    CountedEntries(counts, keys, TypesOf(txs));
  }

  /** Total of the counts (`Object.values(txTypeCounts).reduce((a, b) => a + b, 0)`). */
  function TotalCount(entries: seq<TypeCount>): nat
    decreases |entries|
  {
    if entries == [] then 0 else entries[0].count + TotalCount(entries[1..])
  }

  /** The sum of the occurrences in `s` of each of `keys`. */
  function SumOccurrences(keys: seq<string>, s: seq<string>): nat
    decreases |keys|
  {
    if keys == [] then 0 else Occurrences(s, keys[0]) + SumOccurrences(keys[1..], s)
  }

  lemma {:induction false} SumOccurrencesAppend(keys: seq<string>, s: seq<string>, x: string)
    requires forall i, j :: 0 <= i < j < |keys| ==> keys[i] != keys[j]
    ensures SumOccurrences(keys, s + [x]) == SumOccurrences(keys, s) + (if x in keys then 1 else 0)
    decreases |keys|
  {
    if keys != [] {
      assert (s + [x])[..|s|] == s;
      SumOccurrencesAppend(keys[1..], s, x);
      assert x in keys <==> x == keys[0] || x in keys[1..] by {
        assert keys == [keys[0]] + keys[1..];
      }
      if x == keys[0] {
        assert x !in keys[1..] by {
          forall j | 0 <= j < |keys[1..]|
            ensures keys[1..][j] != x
          {
            assert keys[1..][j] == keys[j + 1];
          }
        }
      }
    }
  }

  lemma {:induction false} SumOccurrencesSnoc(keys: seq<string>, s: seq<string>, x: string)
    ensures SumOccurrences(keys + [x], s) == SumOccurrences(keys, s) + Occurrences(s, x)
    decreases |keys|
  {
    if keys == [] {
      assert [] + [x] == [x];
    } else {
      assert (keys + [x])[1..] == keys[1..] + [x];
      SumOccurrencesSnoc(keys[1..], s, x);
    }
  }

  lemma {:induction false} OccurrencesAbsent(s: seq<string>, x: string)
    requires x !in s
    ensures Occurrences(s, x) == 0
    decreases |s|
  {
    if s != [] {
      OccurrencesAbsent(s[..|s| - 1], x);
    }
  }

  /** Every counted transaction is counted under exactly one key. */
  lemma {:induction false} SumOccurrencesDistinct(s: seq<string>)
    ensures SumOccurrences(Distinct(s), s) == |s|
    decreases |s|
  {
    if s != [] {
      var init := s[..|s| - 1];
      var x := s[|s| - 1];
      assert s == init + [x];
      SumOccurrencesDistinct(init);
      SumOccurrencesAppend(Distinct(init), init, x);
      if x !in Distinct(init) {
        SumOccurrencesSnoc(Distinct(init), s, x);
        OccurrencesAbsent(init, x);
      }
    }
  }

  lemma {:induction false} TotalCountOver(keys: seq<string>, types: seq<string>)
    ensures TotalCount(HistogramOver(keys, types)) == SumOccurrences(keys, types)
    decreases |keys|
  {
    if keys != [] {
      assert HistogramOver(keys, types)[1..] == HistogramOver(keys[1..], types);
      TotalCountOver(keys[1..], types);
    }
  }

  lemma {:induction false} OccurrencesBounds(s: seq<string>, t: string)
    ensures Occurrences(s, t) <= |s|
    ensures t in s ==> Occurrences(s, t) >= 1
    decreases |s|
  {
    if s != [] {
      var init := s[..|s| - 1];
      OccurrencesBounds(init, t);
      assert s == init + [s[|s| - 1]];
      assert t in s ==> t in init || t == s[|s| - 1];
    }
  }

  /**
    * The histogram counts every classified transaction exactly once: its counts add up to the
    * number of types, each count is at least one and at most that number, and the keys are
    * distinct.
    */
  lemma HistogramCounts(types: seq<string>)
    ensures TotalCount(Histogram(types)) == |types|
    ensures forall e :: e in Histogram(types) ==> 1 <= e.count <= |types|
    ensures forall i, j :: 0 <= i < j < |Histogram(types)| ==> Histogram(types)[i].txType != Histogram(types)[j].txType
  {
    TotalCountOver(Distinct(types), types);
    SumOccurrencesDistinct(types);
    forall e | e in Histogram(types)
      ensures 1 <= e.count <= |types|
    {
      var i :| 0 <= i < |Histogram(types)| && Histogram(types)[i] == e;
      OccurrencesBounds(types, Distinct(types)[i]);
    }
  }

  /** One row of `txTypes` before the cut: a type, its count and its rounded percentage. */
  datatype TypeStat = TypeStat(txType: string, count: nat, percent: int)

  /** `Math.round((count / total) * 100)`, computed exactly. */
  function Percent(count: nat, total: nat): (p: int)
    requires total > 0
    ensures count <= total ==> 0 <= p <= 100
    ensures 2 * total * p - total <= 200 * count < 2 * total * p + total
  {
    var p := RoundDiv(count * 100, total);
    RoundedShareBounds(count, total, p);
    p
  }

  /** A share of at most the whole, rounded to the nearest percent, lies in 0..100. */
  lemma RoundedShareBounds(count: nat, total: nat, p: int)
    requires total > 0
    requires 2 * total * p - total <= 200 * count < 2 * total * p + total
    ensures count <= total ==> 0 <= p <= 100
  {
    if count <= total && p > 100 {
      NonNegProduct(total, p - 101);
    }
    if p < 0 {
      NonNegProduct(total, -p - 1);
      assert total * (-p - 1) == -(total * p) - total;
    }
  }

  lemma NonNegProduct(a: nat, b: nat)
    ensures a * b >= 0
  {
  }

  /** Each histogram entry with its percentage of `total`. */
  function WithPercents(entries: seq<TypeCount>, total: nat): (stats: seq<TypeStat>)
    requires entries != [] ==> total > 0
    ensures |stats| == |entries|
    ensures forall i :: 0 <= i < |entries| ==>
      stats[i].txType == entries[i].txType && stats[i].count == entries[i].count
      && (entries[i].count <= total ==> 0 <= stats[i].percent <= 100)
  {
    seq(|entries|, i requires 0 <= i < |entries| => TypeStat(entries[i].txType, entries[i].count, Percent(entries[i].count, total)))
  }

  function StatCount(e: TypeStat): int {
    e.count
  }

  /**
    * `.sort((a, b) => b.count - a.count).slice(0, 6)`: six rows of the input (all of them when
    * there are fewer), largest count first; which rows they are is `TopTypesLargest`.
    */
  function TopTypes(stats: seq<TypeStat>): (top: seq<TypeStat>)
    ensures |top| == if |stats| < 6 then |stats| else 6
    ensures multiset(top) <= multiset(stats)
    ensures SortedDesc(top, StatCount)
  {
    var sorted := SortDesc(stats, StatCount);
    var top := SliceTo(sorted, 6);
    SplitMultiset(sorted, |top|);
    assert top == sorted[..|top|];
    top
  }

  /**
    * The rows kept are the largest: the input is the kept rows plus the rows left out, and no
    * row left out has a larger count than a kept row.
    */
  lemma TopTypesLargest(stats: seq<TypeStat>)
    ensures var sorted := SortDesc(stats, StatCount);
      var top := TopTypes(stats);
      var rest := sorted[|top|..];
      && multiset(top) + multiset(rest) == multiset(stats)
      && forall e, d :: e in top && d in rest ==> d.count <= e.count
  {
    var sorted := SortDesc(stats, StatCount);
    var top := TopTypes(stats);
    assert top == sorted[..|top|];
    SplitMultiset(sorted, |top|);
    SortedDescCut(sorted, |top|, StatCount);
  }

  /** A row whose type is not among the kept rows has a count no larger than any kept row's. */
  lemma TopTypesLeftOut(stats: seq<TypeStat>, i: int)
    requires 0 <= i < |stats|
    requires forall d :: d in TopTypes(stats) ==> d.txType != stats[i].txType
    ensures forall e :: e in TopTypes(stats) ==> stats[i].count <= e.count
  {
    var top := TopTypes(stats);
    var rest := SortDesc(stats, StatCount)[|top|..];
    TopTypesLargest(stats);
    var st := stats[i];
    assert st !in top;
    SplitMember(st, stats, top, rest);
  }

  /** The top six never reorder rows of equal count. */
  lemma TopTypesStable(stats: seq<TypeStat>, k: int)
    ensures WithKey(TopTypes(stats), StatCount, k) <= WithKey(stats, StatCount, k)
  {
    var sorted := SortDesc(stats, StatCount);
    SortDescStable(stats, StatCount, k);
    WithKeyPrefix(sorted, SliceTo(sorted, 6), k);
  }

  lemma {:induction false} WithKeyPrefix(s: seq<TypeStat>, p: seq<TypeStat>, k: int)
    requires p <= s
    ensures WithKey(p, StatCount, k) <= WithKey(s, StatCount, k)
    decreases |p|
  {
    if p != [] {
      assert p[1..] <= s[1..];
      WithKeyPrefix(s[1..], p[1..], k);
    }
  }

  /** The instants of the blocks' header times, in ms. */
  function BlockTimes(blocks: seq<Block>): (ts: seq<int>)
    ensures |ts| == |blocks|
  {
    seq(|blocks|, i requires 0 <= i < |blocks| => blocks[i].header.time.ms)
  }

  /** The `reduce` over `slice(0, -1)`: the sum of the first `k` differences `ts[i] - ts[i + 1]`. */
  function DeltaSum(ts: seq<int>, k: nat): int
    requires k < |ts|
  {
    if k == 0 then 0 else DeltaSum(ts, k - 1) + (ts[k - 1] - ts[k])
  }

  /** The differences telescope: their sum is the first instant minus the last one. */
  lemma {:induction false} DeltaSumTelescopes(ts: seq<int>, k: nat)
    requires k < |ts|
    ensures DeltaSum(ts, k) == ts[0] - ts[k]
  {
    if k > 0 {
      DeltaSumTelescopes(ts, k - 1);
    }
  }

  /** `avgBlockTime`, in seconds: the mean gap between consecutive blocks, or 6 for one block. */
  function AvgBlockTime(blocks: seq<Block>): real {
    var ts := BlockTimes(blocks);
    if |ts| > 1 then (DeltaSum(ts, |ts| - 1) as real) / ((|ts| - 1) as real) / 1000.0 else 6.0
  }

  /** The mean gap is the time spanned by the window over the number of gaps. */
  lemma AvgBlockTimeSpan(blocks: seq<Block>)
    ensures |blocks| > 1 ==>
      AvgBlockTime(blocks)
        == ((blocks[0].header.time.ms - blocks[|blocks| - 1].header.time.ms) as real) / ((|blocks| - 1) as real) / 1000.0
    ensures |blocks| <= 1 ==> AvgBlockTime(blocks) == 6.0
  {
    if |blocks| > 1 {
      DeltaSumTelescopes(BlockTimes(blocks), |blocks| - 1);
    }
  }

  datatype VolumePoint = VolumePoint(height: Num, txCount: nat, time: string)

  /** `blocks.slice(0, 10).map(...)`. */
  function VolumeByBlock(blocks: seq<Block>): (points: seq<VolumePoint>)
    ensures |points| <= 10 && |points| <= |blocks|
    ensures forall i :: 0 <= i < |points| ==>
      points[i] == VolumePoint(ParseInt(blocks[i].header.height), TxCount(blocks[i]), blocks[i].header.time.iso)
  {
    var first := SliceTo(blocks, 10);
    seq(|first|, i requires 0 <= i < |first| =>
      VolumePoint(ParseInt(first[i].header.height), TxCount(first[i]), first[i].header.time.iso))
  }

  datatype Metrics = Metrics(latestBlock: Num, totalValidators: nat, avgBlockTime: real, chainId: string, bondedTokens: string)

  datatype OverviewData = OverviewData(
    metrics: Metrics,
    txTypes: seq<TypeStat>,
    recentBlocks: seq<VolumePoint>,
    totalTransactions: nat,
    mock: bool)

  /** The fixed answer when any of the three reads fails. */
  const MockOverview: OverviewData := OverviewData(
    Metrics(Int(409000), 36, 6.0, "bbn-test-6", "173557359134742"),
    [TypeStat("Finality Sig", 50, 50), TypeStat("Transfer", 25, 25), TypeStat("Delegate", 15, 15), TypeStat("Other", 10, 10)],
    [], 100, true)

  /** The answer from the histogram of the transactions and the live reads. */
  function LiveOverview(stats: NetworkStats, histogram: seq<TypeCount>, blocks: seq<Block>): OverviewData
    requires histogram != [] ==> TotalCount(histogram) > 0
  {
    var total := TotalCount(histogram);
    OverviewData(
      Metrics(stats.latestBlock.height, stats.totalValidators, AvgBlockTime(blocks), stats.chainId, stats.bondedTokens),
      TopTypes(WithPercents(histogram, total)),
      VolumeByBlock(blocks),
      total,
      false)
  }

  /** The handler given what `getNetworkStats()`, `getRecentTransactions(100)` and `getRecentBlocks(20)` produced. */
  function OverviewOf(stats: Result<NetworkStats, FetchError>, txs: Result<seq<NodeTx>, FetchError>,
                      blocks: Result<seq<Block>, FetchError>): OverviewData
  {
    if stats.Failure? || txs.Failure? || blocks.Failure? then MockOverview
    else
      HistogramCounts(TypesOf(txs.value));
      LiveOverview(stats.value, Histogram(TypesOf(txs.value)), blocks.value)
  }

  /**
    * The live answer: the total counts every transaction with a message once and so is at most
    * the number fetched, at most six types are shown, by count descending, each counted at
    * least once with a percentage in 0..100, and at most ten volume points.
    */
  lemma OverviewShape(stats: Result<NetworkStats, FetchError>, txs: Result<seq<NodeTx>, FetchError>,
                      blocks: Result<seq<Block>, FetchError>)
    requires stats.Success? && txs.Success? && blocks.Success?
    ensures var r := OverviewOf(stats, txs, blocks);
      && !r.mock
      && r.totalTransactions == |TypesOf(txs.value)| <= |txs.value|
      && SortedDesc(r.txTypes, StatCount)
      && (forall e :: e in r.txTypes ==> 1 <= e.count <= r.totalTransactions && 0 <= e.percent <= 100)
      && |r.recentBlocks| <= 10
  {
    var types := TypesOf(txs.value);
    HistogramCounts(types);
    var h := Histogram(types);
    var stats' := WithPercents(h, |types|);
    forall e | e in stats'
      ensures 1 <= e.count <= |types| && 0 <= e.percent <= 100
    {
      var i :| 0 <= i < |stats'| && stats'[i] == e;
      assert h[i] in h;
    }
    SubMultisetMembers(TopTypes(stats'), stats');
  }

  /**
    * The types shown are the six most frequent: six of them (all when there are fewer), each
    * with its count from the histogram, and a type not shown occurs no more often than any type
    * shown.
    */
  lemma OverviewTopSix(stats: Result<NetworkStats, FetchError>, txs: Result<seq<NodeTx>, FetchError>,
                       blocks: Result<seq<Block>, FetchError>)
    requires stats.Success? && txs.Success? && blocks.Success?
    ensures var r := OverviewOf(stats, txs, blocks);
      var h := Histogram(TypesOf(txs.value));
      && |r.txTypes| == (if |h| < 6 then |h| else 6)
      && (forall e :: e in r.txTypes ==> TypeCount(e.txType, e.count) in h)
      && forall e, c :: e in r.txTypes && c in h && (forall d :: d in r.txTypes ==> d.txType != c.txType) ==>
           c.count <= e.count
  {
    var types := TypesOf(txs.value);
    HistogramCounts(types);
    var h := Histogram(types);
    assert OverviewOf(stats, txs, blocks).txTypes == TopTypes(WithPercents(h, |types|));
    TopOfHistogram(h, |types|);
  }

  /** The six most frequent entries of a histogram, as `TopTypes` picks them from its rows. */
  lemma TopOfHistogram(h: seq<TypeCount>, total: nat)
    requires h != [] ==> total > 0
    ensures var top := TopTypes(WithPercents(h, total));
      && |top| == (if |h| < 6 then |h| else 6)
      && (forall e :: e in top ==> TypeCount(e.txType, e.count) in h)
      && forall e, c :: e in top && c in h && (forall d :: d in top ==> d.txType != c.txType) ==>
           c.count <= e.count
  {
    var stats' := WithPercents(h, total);
    var top := TopTypes(stats');
    SubMultisetMembers(top, stats');
    forall e | e in top
      ensures TypeCount(e.txType, e.count) in h
    {
      var i :| 0 <= i < |stats'| && stats'[i] == e;
      assert h[i] == TypeCount(e.txType, e.count);
    }
    forall e, c | e in top && c in h && (forall d :: d in top ==> d.txType != c.txType)
      ensures c.count <= e.count
    {
      var i :| 0 <= i < |h| && h[i] == c;
      HistogramEntryLeftOut(h, total, i);
    }
  }

  /** An entry whose type is not shown counts no more than any entry shown. */
  lemma HistogramEntryLeftOut(h: seq<TypeCount>, total: nat, i: int)
    requires h != [] ==> total > 0
    requires 0 <= i < |h|
    requires forall d :: d in TopTypes(WithPercents(h, total)) ==> d.txType != h[i].txType
    ensures forall e :: e in TopTypes(WithPercents(h, total)) ==> h[i].count <= e.count
  {
    var stats' := WithPercents(h, total);
    assert stats'[i].txType == h[i].txType && stats'[i].count == h[i].count;
    TopTypesLeftOut(stats', i);
  }

  /**
    * The handler: the three reads, then the counting loop over the transactions. The block
    * window is read as blocks; an entry of another shape throws and the mock is answered.
    */
  method Overview(stats: Result<NetworkStats, FetchError>, txs: Result<seq<NodeTx>, FetchError>,
                  window: Result<seq<Payload>, FetchError>) returns (r: OverviewData)
    ensures r == OverviewOf(stats, txs, AsBlocks(window))
  {
    var blocks := AsBlocks(window);
    if stats.Failure? || txs.Failure? || blocks.Failure? {
      return MockOverview;
    }
    var counts, keys := CountTxTypes(txs.value);
    var entries := Entries(counts, keys);
    HistogramCounts(TypesOf(txs.value));
    r := LiveOverview(stats.value, entries, blocks.value);
  }
}

/**
  * The node client (`BabylonLCDClient`): a cached `fetch`, the aggregate reads built on it
  * (recent blocks, recent transactions, network statistics) and the Babylon-specific reads
  * that never fail.
  *
  * `respond` stands for the node: `respond(path)` is what it answers to a request for `path`
  * during one call. `now` is the clock reading, in milliseconds, taken for that call.
  */
module Babylon {
  import opened Wrappers
  import opened Numeric
  import opened Seqs
  import opened NodeApi
  import opened NodeCache

  function Max0(x: int): nat {
    if x > 0 then x else 0
  }

  /**
    * How many heights the loop of `getRecentBlocks` requests: it asks for `latest - i` while
    * `i < count && latest - i > 0`, so for `latest - 1, latest - 2, …, latest - n`.
    */
  function WindowSize(latest: int, count: int): (n: nat)
    ensures n <= Max0(count - 1) && n <= Max0(latest - 1)
    ensures n == Max0(count - 1) || n == Max0(latest - 1)
    ensures n > 0 ==> latest - n >= 1
  {
    if count < latest then Max0(count - 1) else Max0(latest - 1)
  }

  /** The loop of `getRecentBlocks` goes on exactly while fewer than `WindowSize` heights were requested. */
  lemma WindowGuard(latest: int, count: int, i: int)
    requires i >= 1
    ensures (i < count && latest - i > 0) <==> i - 1 < WindowSize(latest, count)
  {
  }

  /** The number of requested heights for a parsed latest height: none when it is NaN. */
  function SizeBelow(latest: Num, count: int): nat {
    match latest
    case Int(h) => WindowSize(h, count)
    case NaN => 0
  }

  /**
    * What a request contributes to the window: a fulfilled one its body, whatever its shape
    * (the window is not checked to hold blocks); a rejected one nothing.
    */
  function Arrived(r: Result<Payload, FetchError>): (w: seq<Payload>)
    ensures r.Success? ==> w == [r.value]
    ensures r.Failure? ==> w == []
  {
    if r.Success? then [r.value] else []
  }

  /** The block a fetch produced, if it produced one. */
  function BlockOf(r: Result<Payload, FetchError>): Option<Block> {
    if r.Success? && r.value.BlockData? then Some(r.value.block) else None
  }

  /**
    * Requesting heights `latest - 1` down to `latest - n` one after the other with the cache
    * on: the bodies that arrived, in request order, and the cache afterwards.
    */
  function FetchRange(c: Cache, latest: int, n: nat, now: int, respond: string -> HttpOutcome): (r: (seq<Payload>, Cache))
    ensures |r.0| <= n
    decreases n
  {
    if n == 0 then ([], c)
    else
      var prev := FetchRange(c, latest, n - 1, now, respond);
      var path := BlockPath(latest - n);
      (prev.0 + Arrived(Served(prev.1, path, true, now, respond(path))), CacheAfter(prev.1, path, true, now, respond(path)))
  }

  /** One more height: its body, if it arrives, goes after the earlier ones. */
  lemma FetchRangeNext(c: Cache, latest: int, i: nat, now: int, respond: string -> HttpOutcome,
                       fetched: seq<Payload>, before: Cache, got: Result<Payload, FetchError>, after: Cache)
    requires i >= 1
    requires (fetched, before) == FetchRange(c, latest, i - 1, now, respond)
    requires got == Served(before, BlockPath(latest - i), true, now, respond(BlockPath(latest - i)))
    requires after == CacheAfter(before, BlockPath(latest - i), true, now, respond(BlockPath(latest - i)))
    ensures (fetched + Arrived(got), after) == FetchRange(c, latest, i, now, respond)
  {
  }

  /** Requesting those heights leaves the cache entries of every other path as they were. */
  lemma {:induction false} FetchRangeFrame(c: Cache, latest: int, n: nat, now: int, respond: string -> HttpOutcome, q: string)
    requires forall j :: latest - n <= j < latest ==> q != BlockPath(j)
    ensures var c' := FetchRange(c, latest, n, now, respond).1;
      (q in c' <==> q in c) && (q in c ==> c'[q] == c[q])
    decreases n
  {
    if n > 0 {
      FetchRangeFrame(c, latest, n - 1, now, respond, q);
      var c1 := FetchRange(c, latest, n - 1, now, respond).1;
      CacheAfterFrame(c1, BlockPath(latest - n), true, now, respond(BlockPath(latest - n)), q);
    }
  }

  /**
    * The same blocks when every request reads the cache as it was before any of them, which is
    * what `Promise.allSettled` over requests started together does.
    */
  function SnapshotRange(c: Cache, latest: int, n: nat, now: int, respond: string -> HttpOutcome): seq<Payload>
    decreases n
  {
    if n == 0 then []
    else
      var path := BlockPath(latest - n);
      SnapshotRange(c, latest, n - 1, now, respond) + Arrived(Served(c, path, true, now, respond(path)))
  }

  /** The heights are distinct, so the sequential and the concurrent reading give the same bodies. */
  lemma {:induction false} FetchRangeReadsSnapshot(c: Cache, latest: int, n: nat, now: int, respond: string -> HttpOutcome)
    ensures FetchRange(c, latest, n, now, respond).0 == SnapshotRange(c, latest, n, now, respond)
    decreases n
  {
    if n > 0 {
      FetchRangeReadsSnapshot(c, latest, n - 1, now, respond);
      var path := BlockPath(latest - n);
      var prev := FetchRange(c, latest, n - 1, now, respond);
      NextServedFromSnapshot(c, latest, n, now, respond);
      assert FetchRange(c, latest, n, now, respond).0 == prev.0 + Arrived(Served(prev.1, path, true, now, respond(path)));
    }
  }

  /** The next height down is served as it would be from the cache before the earlier requests. */
  lemma NextServedFromSnapshot(c: Cache, latest: int, n: nat, now: int, respond: string -> HttpOutcome)
    requires n > 0
    ensures var path := BlockPath(latest - n);
      Served(FetchRange(c, latest, n - 1, now, respond).1, path, true, now, respond(path))
      == Served(c, path, true, now, respond(path))
  {
    var path := BlockPath(latest - n);
    LowerPathIsNew(latest, n);
    FetchRangeFrame(c, latest, n - 1, now, respond, path);
    ServedSameEntry(c, FetchRange(c, latest, n - 1, now, respond).1, path, true, now, respond(path));
  }

  /** The next height down is requested under a path none of the heights above it used. */
  lemma LowerPathIsNew(latest: int, n: nat)
    requires n > 0
    ensures forall j :: latest - (n - 1) <= j < latest ==> BlockPath(latest - n) != BlockPath(j)
  {
    forall j | latest - (n - 1) <= j < latest
      ensures BlockPath(latest - n) != BlockPath(j)
    {
      BlockPathInjective(latest - n, j);
    }
  }

  /**
    * `getRecentBlocks(count)`: the latest block (read past the cache), then the bodies that
    * arrived for the heights below it; the result and the cache afterwards. A latest-block
    * body of another shape throws when its height is read.
    */
  function RecentBlocks(c: Cache, count: int, now: int, respond: string -> HttpOutcome): (Result<seq<Payload>, FetchError>, Cache) {
    var latest := Served(c, LatestBlockPath, false, now, respond(LatestBlockPath));
    match BlockOf(latest)
    case None => (Failure(if latest.Failure? then latest.error else Malformed), c)
    case Some(b) =>
      match ParseInt(b.header.height)
      case NaN => (Success([BlockData(b)]), c)
      case Int(h) =>
        var (rest, c') := FetchRange(c, h, WindowSize(h, count), now, respond);
        (Success([BlockData(b)] + rest), c')
  }

  /**
    * The window is the latest block, read past the cache, followed by the bodies that arrived
    * for heights `h - 1, h - 2, …`, in that order, each read from the cache as it was before the
    * call; it fails exactly when the latest block does.
    */
  lemma RecentBlocksShape(c: Cache, count: int, now: int, respond: string -> HttpOutcome)
    ensures var r := RecentBlocks(c, count, now, respond).0;
      var latest := BlockOf(Transport(respond(LatestBlockPath)));
      && (r.Success? <==> latest.Some?)
      && (r.Success? ==> |r.value| >= 1 && r.value[0] == BlockData(latest.value))
      && (r.Success? && ParseInt(latest.value.header.height).NaN? ==> |r.value| == 1)
      && (r.Success? && ParseInt(latest.value.header.height).Int? ==>
            var h := ParseInt(latest.value.header.height).value;
            r.value[1..] == SnapshotRange(c, h, WindowSize(h, count), now, respond))
  {
    var latest := Transport(respond(LatestBlockPath));
    if BlockOf(latest).Some? {
      var b := BlockOf(latest).value;
      if ParseInt(b.header.height).Int? {
        var h := ParseInt(b.header.height).value;
        var rest := FetchRange(c, h, WindowSize(h, count), now, respond).0;
        FetchRangeReadsSnapshot(c, h, WindowSize(h, count), now, respond);
        assert ([BlockData(b)] + rest)[1..] == rest;
      }
    }
  }

  /** The body of the first height below the latest leads the snapshot of any non-empty range. */
  lemma {:induction false} SnapshotRangeFirst(c: Cache, latest: int, n: nat, now: int, respond: string -> HttpOutcome)
    requires n >= 1
    ensures var path := BlockPath(latest - 1);
      Arrived(Served(c, path, true, now, respond(path))) <= SnapshotRange(c, latest, n, now, respond)
    decreases n
  {
    if n > 1 {
      SnapshotRangeFirst(c, latest, n - 1, now, respond);
    }
  }

  /**
    * A 2xx body that is not a block, answered for the height just below the latest, stays in
    * the window, and the window then does not read as blocks.
    */
  lemma WindowKeepsNonBlock(c: Cache, count: int, now: int, respond: string -> HttpOutcome, h: int, body: Payload)
    requires BlockOf(Transport(respond(LatestBlockPath))).Some?
    requires ParseInt(BlockOf(Transport(respond(LatestBlockPath))).value.header.height) == Int(h)
    requires count >= 2 && h >= 2 && BlockPath(h - 1) !in c
    requires respond(BlockPath(h - 1)) == Response(200, body) && !body.BlockData?
    ensures var r := RecentBlocks(c, count, now, respond).0;
      r.Success? && |r.value| >= 2 && r.value[1] == body && AsBlocks(r).Failure?
  {
    RecentBlocksShape(c, count, now, respond);
    var n := WindowSize(h, count);
    SnapshotRangeFirst(c, h, n, now, respond);
    var r := RecentBlocks(c, count, now, respond).0;
    assert r.value[1..][0] == body;
  }

  /**
    * The window as the handlers read it: every entry's block, or `Malformed` when an entry is
    * not a block (reading `block.block.header` on it throws); a failed window stays failed.
    */
  function AsBlocks(r: Result<seq<Payload>, FetchError>): (b: Result<seq<Block>, FetchError>)
    ensures b.Success? <==> r.Success? && forall i :: 0 <= i < |r.value| ==> r.value[i].BlockData?
    ensures r.Failure? ==> b == Failure(r.error)
    ensures r.Success? && b.Failure? ==> b.error == Malformed
    ensures b.Success? ==> |b.value| == |r.value| && forall i :: 0 <= i < |r.value| ==> r.value[i] == BlockData(b.value[i])
  {
    match r
    case Failure(e) => Failure(e)
    case Success(w) =>
      if forall i :: 0 <= i < |w| ==> w[i].BlockData? then
        Success(seq(|w|, i requires 0 <= i < |w| => w[i].block))
      else Failure(Malformed)
  }

  lemma RecentBlocksUnfold(c: Cache, count: int, now: int, respond: string -> HttpOutcome, b: Block, h: int)
    requires BlockOf(Transport(respond(LatestBlockPath))) == Some(b)
    requires ParseInt(b.header.height) == Int(h)
    ensures RecentBlocks(c, count, now, respond)
      == (Success([BlockData(b)] + FetchRange(c, h, WindowSize(h, count), now, respond).0),
          FetchRange(c, h, WindowSize(h, count), now, respond).1)
  {
  }

  /** The window holds at most `max(1, min(count, latestHeight))` entries. */
  lemma RecentBlocksBound(c: Cache, count: int, now: int, respond: string -> HttpOutcome)
    requires BlockOf(Transport(respond(LatestBlockPath))).Some?
    ensures var r := RecentBlocks(c, count, now, respond).0;
      var b := BlockOf(Transport(respond(LatestBlockPath))).value;
      && r.Success?
      && (ParseInt(b.header.height).Int? ==>
            var h := ParseInt(b.header.height).value;
            |r.value| <= if count < h then (if count > 1 then count else 1) else (if h > 1 then h else 1))
  {
    var b := BlockOf(Transport(respond(LatestBlockPath))).value;
    if ParseInt(b.header.height).Int? {
      var h := ParseInt(b.header.height).value;
      assert |FetchRange(c, h, WindowSize(h, count), now, respond).0| <= WindowSize(h, count);
    }
  }

  /** The transactions of a block's `txs?events=tx.height=…` answer; nothing if it failed. */
  function TxsOf(r: Result<Payload, FetchError>): seq<NodeTx> {
    if r.Success? && r.value.TxsData? && r.value.txResponses.Some? then r.value.txResponses.value else []
  }

  function TxsPathOf(b: Block): string {
    TxsPath(ParseInt(b.header.height))
  }

  /**
    * The loop of `getRecentTransactions` from the state `(c, acc)` over the window: stop once
    * `limit` transactions are collected; skip an entry that is not a block (reading its height
    * throws inside the loop's `try`); otherwise fetch the block's transactions (cached) and
    * append them. The collected transactions and the cache afterwards.
    */
  function TxWindow(c: Cache, blocks: seq<Payload>, limit: int, acc: seq<NodeTx>, now: int, respond: string -> HttpOutcome): (seq<NodeTx>, Cache)
    decreases |blocks|
  {
    if blocks == [] || |acc| >= limit then (acc, c)
    else if !blocks[0].BlockData? then TxWindow(c, blocks[1..], limit, acc, now, respond)
    else
      var path := TxsPathOf(blocks[0].block);
      var got := Served(c, path, true, now, respond(path));
      TxWindow(CacheAfter(c, path, true, now, respond(path)), blocks[1..], limit, acc + TxsOf(got), now, respond)
  }

  /** Every block's transactions, fetched in order with no limit; entries that are not blocks give none. */
  function AllTxs(c: Cache, blocks: seq<Payload>, now: int, respond: string -> HttpOutcome): seq<NodeTx>
    decreases |blocks|
  {
    if blocks == [] then []
    else if !blocks[0].BlockData? then AllTxs(c, blocks[1..], now, respond)
    else
      var path := TxsPathOf(blocks[0].block);
      TxsOf(Served(c, path, true, now, respond(path)))
        + AllTxs(CacheAfter(c, path, true, now, respond(path)), blocks[1..], now, respond)
  }

  /**
    * Stopping early loses nothing: the first `limit` transactions collected are the first
    * `limit` of all the blocks' transactions, in block order and then node order.
    */
  lemma {:induction false} TxWindowIsPrefix(c: Cache, blocks: seq<Payload>, limit: int, acc: seq<NodeTx>, now: int, respond: string -> HttpOutcome)
    requires limit >= 0
    ensures SliceTo(TxWindow(c, blocks, limit, acc, now, respond).0, limit)
      == SliceTo(acc + AllTxs(c, blocks, now, respond), limit)
    decreases |blocks|
  {
    var all := AllTxs(c, blocks, now, respond);
    if blocks == [] {
      assert acc + all == acc;
    } else if |acc| >= limit {
      assert TxWindow(c, blocks, limit, acc, now, respond).0 == acc;
      SliceToExtended(acc, all, limit);
    } else if !blocks[0].BlockData? {
      TxWindowIsPrefix(c, blocks[1..], limit, acc, now, respond);
    } else {
      var path := TxsPathOf(blocks[0].block);
      var got := TxsOf(Served(c, path, true, now, respond(path)));
      var c1 := CacheAfter(c, path, true, now, respond(path));
      var rest := AllTxs(c1, blocks[1..], now, respond);
      assert TxWindow(c, blocks, limit, acc, now, respond).0 == TxWindow(c1, blocks[1..], limit, acc + got, now, respond).0;
      assert all == got + rest;
      TxWindowIsPrefix(c1, blocks[1..], limit, acc + got, now, respond);
      assert acc + got + rest == acc + all;
    }
  }

  lemma TxWindowFromStart(c: Cache, blocks: seq<Payload>, limit: int, now: int, respond: string -> HttpOutcome)
    ensures limit >= 0 ==>
      SliceTo(TxWindow(c, blocks, limit, [], now, respond).0, limit) == SliceTo(AllTxs(c, blocks, now, respond), limit)
  {
    if limit >= 0 {
      TxWindowIsPrefix(c, blocks, limit, [], now, respond);
      assert [] + AllTxs(c, blocks, now, respond) == AllTxs(c, blocks, now, respond);
    }
  }

  /** `getRecentTransactions(limit)`: the outcome and the cache afterwards. */
  function RecentTransactions(c: Cache, limit: int, now: int, respond: string -> HttpOutcome): (r: (Result<seq<NodeTx>, FetchError>, Cache))
    ensures r.0.Success? <==> RecentBlocks(c, 5, now, respond).0.Success?
    ensures r.0.Success? && limit >= 0 ==> |r.0.value| <= limit
    ensures r.0.Success? && limit >= 0 ==>
      var (blocks, c1) := RecentBlocks(c, 5, now, respond);
      r.0.value == SliceTo(AllTxs(c1, blocks.value, now, respond), limit)
  {
    var (blocks, c1) := RecentBlocks(c, 5, now, respond);
    match blocks
    case Failure(e) => (Failure(e), c1)
    case Success(bs) =>
      var (txs, c2) := TxWindow(c1, bs, limit, [], now, respond);
      TxWindowFromStart(c1, bs, limit, now, respond);
      (Success(SliceTo(txs, limit)), c2)
  }

  function ProvidersOf(r: Result<Payload, FetchError>): seq<FinalityProvider> {
    if r.Success? && r.value.ProvidersData? then r.value.providers else []
  }

  const EmptyEpoch: Epoch := Epoch("0", "0", "0")

  function ValidatorsOf(r: Result<Payload, FetchError>): seq<Validator> {
    if r.Success? && r.value.ValidatorsData? then r.value.validators else []
  }

  datatype LatestBlockSummary = LatestBlockSummary(height: Num, time: string, hash: string, txCount: nat, proposer: string)

  datatype NetworkStats = NetworkStats(
    latestBlock: LatestBlockSummary,
    chainId: string,
    nodeVersion: string,
    totalValidators: nat,
    bondedTokens: string)

  /** `block.data.txs?.length || 0`. */
  function TxCount(b: Block): (n: nat)
    ensures b.txs.None? ==> n == 0
    ensures b.txs.Some? ==> n == |b.txs.value|
  {
    match b.txs
    case Some(t) => |t|
    case None => 0
  }

  /** A validators read `getNetworkStats` can count: caught (no validators) or a validator list. */
  predicate ValidatorsReadable(r: Result<Payload, FetchError>) {
    r.Failure? || r.value.ValidatorsData?
  }

  /** A pool read `getNetworkStats` can use: caught ('0' bonded) or a pool. */
  predicate PoolReadable(r: Result<Payload, FetchError>) {
    r.Failure? || r.value.PoolData?
  }

  /**
    * `getNetworkStats` from its four reads: a failed latest-block read fails the whole call,
    * the other three fall back to 'unknown', no validators and '0' bonded tokens; a 2xx body
    * of another shape for the block, validators or pool throws when it is read.
    */
  function StatsOf(latest: Result<Payload, FetchError>, nodeInfo: Result<Payload, FetchError>,
                   validators: Result<Payload, FetchError>, pool: Result<Payload, FetchError>): (r: Result<NetworkStats, FetchError>)
    ensures r.Success? <==> BlockOf(latest).Some? && ValidatorsReadable(validators) && PoolReadable(pool)
    ensures r.Failure? ==> r.error == (if latest.Failure? then latest.error else Malformed)
    ensures r.Success? ==> r.value.nodeVersion != ""
    ensures (r.Success? && nodeInfo.Success? && nodeInfo.value.NodeInfoData? && nodeInfo.value.appVersion.Some?
             && nodeInfo.value.appVersion.value != "") ==> r.value.nodeVersion == nodeInfo.value.appVersion.value
    ensures r.Success? && validators.Success? ==> r.value.totalValidators == |validators.value.validators|
    ensures r.Success? && validators.Failure? ==> r.value.totalValidators == 0
    ensures r.Success? && pool.Success? ==> r.value.bondedTokens == pool.value.bondedTokens
    ensures r.Success? && pool.Failure? ==> r.value.bondedTokens == "0"
    ensures r.Success? ==> var b := BlockOf(latest).value;
      r.value.latestBlock == LatestBlockSummary(ParseInt(b.header.height), b.header.time.iso, b.hash, TxCount(b), b.header.proposer)
      && r.value.chainId == b.header.chainId
  {
    match BlockOf(latest)
    case None => Failure(if latest.Failure? then latest.error else Malformed)
    case Some(b) =>
      if !ValidatorsReadable(validators) || !PoolReadable(pool) then Failure(Malformed)
      else
        var version :=
          if nodeInfo.Success? && nodeInfo.value.NodeInfoData? && nodeInfo.value.appVersion.Some?
             && nodeInfo.value.appVersion.value != ""
          then nodeInfo.value.appVersion.value else "unknown";
        var total := if validators.Success? then |validators.value.validators| else 0;
        var bonded := if pool.Success? then pool.value.bondedTokens else "0";
        Success(NetworkStats(
          LatestBlockSummary(ParseInt(b.header.height), b.header.time.iso, b.hash, TxCount(b), b.header.proposer),
          b.header.chainId, version, total, bonded))
  }

  /** A caught read: the body as it came on success, `fallback` when the read threw. */
  function BodyOr(r: Result<Payload, FetchError>, fallback: Payload): (p: Payload)
    ensures r.Success? ==> p == r.value
    ensures r.Failure? ==> p == fallback
  {
    match r
    case Success(v) => v
    case Failure(_) => fallback
  }

  /**
    * The labeling jobs read a caught provider list as they read the raw fetch: the fallback
    * and a body without a provider list both give no providers.
    */
  lemma CaughtProvidersRead(r: Result<Payload, FetchError>)
    ensures ProvidersOf(Success(BodyOr(r, ProvidersData([])))) == ProvidersOf(r)
    ensures |ProvidersOf(r)| > 0 ==> r.Success? && r.value.ProvidersData?
  {
  }

  class Client {
    /** `cache`: path to decoded body and storage time. */
    var cache: Cache

    constructor ()
      ensures cache == map[]
    {
      cache := map[];
    }

    /** `fetch(path, useCache)`: answer from the cache when fresh, otherwise ask the node. */
    method Fetch(path: string, useCache: bool, now: int, respond: string -> HttpOutcome) returns (r: Result<Payload, FetchError>)
      modifies this
      ensures r == Served(old(cache), path, useCache, now, respond(path))
      ensures cache == CacheAfter(old(cache), path, useCache, now, respond(path))
    {
      if useCache && path in cache {
        var cached := cache[path];
        if now - cached.timestamp < CacheTtl {
          return Success(cached.data);
        }
      }
      var resp := respond(path);
      match resp
      case NetworkError =>
        return Failure(Unreachable);
      case Response(status, body) =>
        if !IsOk(status) {
          return Failure(HttpStatus(status));
        }
        if useCache {
          cache := cache[path := CacheEntry(body, now)];
        }
        return Success(body);
    }

    method GetRecentBlocks(count: int, now: int, respond: string -> HttpOutcome) returns (r: Result<seq<Payload>, FetchError>)
      modifies this
      ensures (r, cache) == RecentBlocks(old(cache), count, now, respond)
    {
      var latest := Fetch(LatestBlockPath, false, now, respond);
      if BlockOf(latest).None? {
        return Failure(if latest.Failure? then latest.error else Malformed);
      }
      var b := BlockOf(latest).value;
      var latestHeight := ParseInt(b.header.height);
      if latestHeight.NaN? {
        // `NaN - i > 0` is false: no height is requested.
        return Success([BlockData(b)]);
      }
      var fetched := FetchBelow(latestHeight.value, count, now, respond);
      RecentBlocksUnfold(old(cache), count, now, respond, b, latestHeight.value);
      return Success([BlockData(b)] + fetched);
    }

    /** The loop of `getRecentBlocks`: request each height below the latest, keep every body that arrives. */
    method FetchBelow(latestHeight: int, count: int, now: int, respond: string -> HttpOutcome) returns (fetched: seq<Payload>)
      modifies this
      ensures (fetched, cache) == FetchRange(old(cache), latestHeight, WindowSize(latestHeight, count), now, respond)
    {
      ghost var c0 := cache;
      ghost var n := WindowSize(latestHeight, count);
      fetched := [];
      var i := 1;
      while i < count && latestHeight - i > 0
        invariant 1 <= i <= n + 1
        invariant (fetched, cache) == FetchRange(c0, latestHeight, i - 1, now, respond)
        decreases n + 1 - i
      {
        WindowGuard(latestHeight, count, i);
        ghost var before := cache;
        var got := Fetch(BlockPath(latestHeight - i), true, now, respond);
        FetchRangeNext(c0, latestHeight, i, now, respond, fetched, before, got, cache);
        fetched := fetched + Arrived(got);
        i := i + 1;
      }
      WindowGuard(latestHeight, count, i);
    }

    method GetRecentTransactions(limit: int, now: int, respond: string -> HttpOutcome) returns (r: Result<seq<NodeTx>, FetchError>)
      modifies this
      ensures (r, cache) == RecentTransactions(old(cache), limit, now, respond)
    {
      var blocks := GetRecentBlocks(5, now, respond);
      if blocks.Failure? {
        return Failure(blocks.error);
      }
      ghost var c1 := cache;
      var transactions: seq<NodeTx> := [];
      var i := 0;
      while i < |blocks.value|
        invariant 0 <= i <= |blocks.value|
        invariant TxWindow(cache, blocks.value[i..], limit, transactions, now, respond)
          == TxWindow(c1, blocks.value, limit, [], now, respond)
      {
        if |transactions| >= limit {
          break;
        }
        if blocks.value[i].BlockData? {
          var got := Fetch(TxsPathOf(blocks.value[i].block), true, now, respond);
          transactions := transactions + TxsOf(got);
        }
        i := i + 1;
      }
      return Success(SliceTo(transactions, limit));
    }

    /** `getFinalityProviders`: the body as served; an empty provider list when the read threw. */
    method GetFinalityProviders(now: int, respond: string -> HttpOutcome) returns (body: Payload)
      modifies this
      ensures var got := Served(old(cache), ProvidersPath, true, now, respond(ProvidersPath));
        && (got.Success? ==> body == got.value)
        && (got.Failure? ==> body == ProvidersData([]))
      ensures cache == CacheAfter(old(cache), ProvidersPath, true, now, respond(ProvidersPath))
    {
      var got := Fetch(ProvidersPath, true, now, respond);
      body := BodyOr(got, ProvidersData([]));
    }

    /** `getBTCDelegations(status)`: the body as served; an empty list when the read threw. */
    method GetBTCDelegations(status: string, now: int, respond: string -> HttpOutcome) returns (body: Payload)
      modifies this
      ensures var path := DelegationsPath(status);
        var got := Served(old(cache), path, true, now, respond(path));
        && (got.Success? ==> body == got.value)
        && (got.Failure? ==> body == DelegationsData([]))
        && cache == CacheAfter(old(cache), path, true, now, respond(path))
    {
      var got := Fetch(DelegationsPath(status), true, now, respond);
      body := BodyOr(got, DelegationsData([]));
    }

    /** `getCurrentEpoch`: the body as served; epoch '0' when the read threw. */
    method GetCurrentEpoch(now: int, respond: string -> HttpOutcome) returns (body: Payload)
      modifies this
      ensures var got := Served(old(cache), EpochPath, true, now, respond(EpochPath));
        && (got.Success? ==> body == got.value)
        && (got.Failure? ==> body == EpochData(EmptyEpoch))
      ensures cache == CacheAfter(old(cache), EpochPath, true, now, respond(EpochPath))
    {
      var got := Fetch(EpochPath, true, now, respond);
      body := BodyOr(got, EpochData(EmptyEpoch));
    }

    method GetValidators(now: int, respond: string -> HttpOutcome) returns (r: Result<Payload, FetchError>)
      modifies this
      ensures var path := ValidatorsPath(BondedStatus);
        r == Served(old(cache), path, true, now, respond(path))
        && cache == CacheAfter(old(cache), path, true, now, respond(path))
    {
      r := Fetch(ValidatorsPath(BondedStatus), true, now, respond);
    }

    /**
      * `getNetworkStats`: all four requests are made; the three optional ones read distinct
      * paths, and each of them (not the latest block, read past the cache) updates the cache.
      */
    method GetNetworkStats(now: int, respond: string -> HttpOutcome) returns (r: Result<NetworkStats, FetchError>)
      modifies this
      ensures r == StatsOf(
        Transport(respond(LatestBlockPath)),
        Served(old(cache), NodeInfoPath, true, now, respond(NodeInfoPath)),
        Served(old(cache), ValidatorsPath(BondedStatus), true, now, respond(ValidatorsPath(BondedStatus))),
        Served(old(cache), PoolPath, true, now, respond(PoolPath)))
      ensures cache == CacheAfter(CacheAfter(CacheAfter(old(cache),
          NodeInfoPath, true, now, respond(NodeInfoPath)),
          ValidatorsPath(BondedStatus), true, now, respond(ValidatorsPath(BondedStatus))),
          PoolPath, true, now, respond(PoolPath))
    {
      ghost var c0 := cache;
      var latest := Fetch(LatestBlockPath, false, now, respond);
      var nodeInfo := Fetch(NodeInfoPath, true, now, respond);
      ghost var c1 := cache;
      var validators := GetValidators(now, respond);
      ghost var c2 := cache;
      var pool := Fetch(PoolPath, true, now, respond);
      assert |ValidatorsPath(BondedStatus)| != |NodeInfoPath|;
      CacheAfterFrame(c0, NodeInfoPath, true, now, respond(NodeInfoPath), ValidatorsPath(BondedStatus));
      ServedSameEntry(c0, c1, ValidatorsPath(BondedStatus), true, now, respond(ValidatorsPath(BondedStatus)));
      assert |PoolPath| != |NodeInfoPath| && |PoolPath| != |ValidatorsPath(BondedStatus)|;
      CacheAfterFrame(c0, NodeInfoPath, true, now, respond(NodeInfoPath), PoolPath);
      CacheAfterFrame(c1, ValidatorsPath(BondedStatus), true, now, respond(ValidatorsPath(BondedStatus)), PoolPath);
      ServedSameEntry(c0, c2, PoolPath, true, now, respond(PoolPath));
      r := StatsOf(latest, nodeInfo, validators, pool);
    }
  }
}

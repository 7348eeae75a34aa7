/** `GET /api/blockchain/blocks`: the most recent blocks as display rows. */
module BlocksView {
  import opened Wrappers
  import opened Numeric
  import opened NodeApi
  import opened NodeCache
  import opened Format
  import opened Query
  import opened Babylon

  datatype BlockView = BlockView(height: Num, hash: string, time: string, timeAgo: string, txCount: nat, proposer: string, chainId: string)

  /** `Math.min(parseInt(limit) || 10, 50)`. */
  function Limit(param: Option<string>): (limit: int)
    ensures limit <= 50
    ensures QueryInt(param).NaN? || QueryInt(param) == Int(0) ==> limit == 10
  {
    ClampLimit(param, 10, 50)
  }

  /** One row of a fetched block, with its age at `now`. */
  function ViewOf(b: Block, now: int): (v: BlockView)
    ensures v.height == ParseInt(b.header.height) && v.hash == b.hash && v.time == b.header.time.iso
    ensures v.proposer == b.header.proposer && v.chainId == b.header.chainId
    ensures v.txCount == TxCount(b) && v.timeAgo == TimeAgo(b.header.time.ms, now)
  {
    BlockView(ParseInt(b.header.height), b.hash, b.header.time.iso, TimeAgo(b.header.time.ms, now), TxCount(b),
              b.header.proposer, b.header.chainId)
  }

  const MockTopHeight: int := 1847293

  /**
    * The `i`-th mock block: heights count down from 1847293 and times step back six seconds;
    * `isoOf` renders a time as ISO 8601 text and `draw(i)` is the random draw for its transaction
    * count.
    */
  function MockBlock(i: nat, now: int, isoOf: int -> string, draw: nat -> nat): (v: BlockView)
    ensures v.height == Int(MockTopHeight - i) && v.txCount < 10
  {
    BlockView(Int(MockTopHeight - i), "BLOCK" + ShowInt(MockTopHeight - i) + "HASH", isoOf(now - i * 6000),
              ShowInt(i * 6) + "s ago", draw(i) % 10, "bbnvaloper1...", "bbn-test-6")
  }

  /** `Array.from({ length: limit }, …)`: a negative length gives no entries. */
  function MockBlocks(limit: int, now: int, isoOf: int -> string, draw: nat -> nat): (r: seq<BlockView>)
    ensures |r| == Max0(limit)
    ensures forall i :: 0 <= i < |r| ==> r[i] == MockBlock(i, now, isoOf, draw)
  {
    seq(Max0(limit), i requires 0 <= i < Max0(limit) => MockBlock(i, now, isoOf, draw))
  }

  datatype BlocksReply = BlocksReply(data: seq<BlockView>, mock: bool)

  /**
    * The handler, given what `getRecentBlocks(Limit(param))` returned: one row per block in the
    * order the client returned them, or, when it threw, the mock rows.
    */
  function BlocksGet(param: Option<string>, blocks: Result<seq<Block>, FetchError>, now: int,
                     isoOf: int -> string, draw: nat -> nat): (r: BlocksReply)
    ensures blocks.Failure? ==> r.mock && r.data == MockBlocks(Limit(param), now, isoOf, draw)
    ensures blocks.Success? ==>
      && !r.mock && |r.data| == |blocks.value|
      && forall i :: 0 <= i < |blocks.value| ==> r.data[i] == ViewOf(blocks.value[i], now)
  {
    match blocks
    case Success(bs) => BlocksReply(seq(|bs|, i requires 0 <= i < |bs| => ViewOf(bs[i], now)), false)
    case Failure(_) => BlocksReply(MockBlocks(Limit(param), now, isoOf, draw), true)
  }

  /** The mock rows are at most 50, with strictly falling heights, and none for a negative limit. */
  lemma MockBlocksShape(param: Option<string>, now: int, isoOf: int -> string, draw: nat -> nat)
    ensures var r := MockBlocks(Limit(param), now, isoOf, draw);
      && |r| <= 50
      && (QueryInt(param).Int? && QueryInt(param).value < 0 ==> r == [])
      && (forall i, j :: 0 <= i < j < |r| ==> r[i].height.value > r[j].height.value)
  {
    ClampLimitRange(param, 10, 50);
  }

  /** For the first ten mock rows the fixed age text is what `getTimeAgo` reports for their time. */
  lemma MockAgeMatches(i: nat, now: int, isoOf: int -> string, draw: nat -> nat)
    requires i < 10
    ensures MockBlock(i, now, isoOf, draw).timeAgo == TimeAgo(now - i * 6000, now)
  {
    assert (i * 6000) / 1000 == i * 6;
  }

  /**
    * The handler with the client call: it asks for `Limit(param)` blocks, and the answer is
    * `BlocksGet` of what the client returns, read as blocks (an entry of another shape
    * throws when its height is read, and the mock is answered).
    */
  method BlocksHandler(client: Client, param: Option<string>, now: int, respond: string -> HttpOutcome,
                       isoOf: int -> string, draw: nat -> nat) returns (r: BlocksReply)
    modifies client
    ensures var (got, c) := RecentBlocks(old(client.cache), Limit(param), now, respond);
      r == BlocksGet(param, AsBlocks(got), now, isoOf, draw) && client.cache == c
  {
    var got := client.GetRecentBlocks(Limit(param), now, respond);
    r := BlocksGet(param, AsBlocks(got), now, isoOf, draw);
  }
}

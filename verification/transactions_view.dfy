/**
  * `GET /api/blockchain/transactions`: the recent transactions, one row per transaction,
  * described by its first message; a mock list of `limit` rows when the node read fails.
  */
module TransactionsView {
  import opened Wrappers
  import opened Numeric
  import opened Text
  import opened Seqs
  import opened NodeApi
  import opened NodeCache
  import opened Babylon
  import opened Classify
  import opened Format
  import opened Query

  /** What the handler reads off the first message: type, parties and amount. */
  datatype FirstMsgFields = FirstMsgFields(txType: string, from: string, to: string, amount: string, denom: string)

  /** The fields of a transaction without messages. */
  const NoMessage: FirstMsgFields := FirstMsgFields("Unknown", "", "", "", "ubbn")

  /** `msg.amount?.amount || ''`: the amount of a single-coin field, if there is one. */
  function CoinAmount(a: Amount): string {
    if a.OneCoin? then a.coin.amount else ""
  }

  /** `msg.amount?.denom || 'ubbn'`. */
  function CoinDenom(a: Amount): string {
    if a.OneCoin? && a.coin.denom != "" then a.coin.denom else "ubbn"
  }

  /**
    * The branch chain over the first message's type URL: a bank send gives sender, recipient
    * and its first coin; a delegation or undelegation gives delegator, validator and amount;
    * a BTC staking message its staker; a vote its voter; anything else only a type name.
    */
  function ReadFirstMessage(messages: seq<Msg>): (f: FirstMsgFields)
    ensures messages == [] ==> f == NoMessage
    ensures messages != [] ==> f.txType == TxTypeOf(messages[0].typeUrl)
  {
    if messages == [] then NoMessage
    else
      var msg := messages[0];
      var url := msg.typeUrl;
      if Contains(url, "MsgSend") then
        if msg.amount.CoinList? && |msg.amount.coins| > 0 then
          FirstMsgFields("Transfer", msg.fromAddress, msg.toAddress, msg.amount.coins[0].amount, msg.amount.coins[0].denom)
        else FirstMsgFields("Transfer", msg.fromAddress, msg.toAddress, "", "ubbn")
      else if Contains(url, "MsgDelegate") then
        FirstMsgFields("Delegate", msg.delegatorAddress, msg.validatorAddress, CoinAmount(msg.amount), CoinDenom(msg.amount))
      else if Contains(url, "MsgUndelegate") then
        FirstMsgFields("Undelegate", msg.delegatorAddress, msg.validatorAddress, CoinAmount(msg.amount), "ubbn")
      else if Contains(url, "MsgCreateBTCDelegation") then
        FirstMsgFields("BTC Stake", msg.stakerAddr, "", "", "ubbn")
      else if Contains(url, "MsgVote") then
        FirstMsgFields("Vote", msg.voter, "", "", "ubbn")
      else FirstMsgFields(FallbackType(url), "", "", "", "ubbn")
  }

  /**
    * Where the amount and denomination come from: a denomination other than 'ubbn' is always
    * the first message's coin (a transfer's first coin or a delegation's coin), an amount only
    * comes from a transfer, delegation or undelegation, and an unrecognised message has no
    * parties and no amount.
    */
  lemma FirstMessageSources(messages: seq<Msg>)
    ensures var f := ReadFirstMessage(messages);
      && (f.denom != "ubbn" ==>
            messages != [] &&
            ((messages[0].amount.CoinList? && |messages[0].amount.coins| > 0 && f.denom == messages[0].amount.coins[0].denom)
             || (messages[0].amount.OneCoin? && f.denom == messages[0].amount.coin.denom)))
      && (f.amount != "" ==>
            messages != [] && (f.txType == "Transfer" || f.txType == "Delegate" || f.txType == "Undelegate"))
      && (messages != [] && !NamesListedMsg(messages[0].typeUrl) ==>
            f.from == "" && f.to == "" && f.amount == "" && f.denom == "ubbn")
      && (messages != [] && Contains(messages[0].typeUrl, "MsgSend") ==>
            f.from == messages[0].fromAddress && f.to == messages[0].toAddress
            && (messages[0].amount.CoinList? && |messages[0].amount.coins| > 0 ==>
                  f.amount == messages[0].amount.coins[0].amount && f.denom == messages[0].amount.coins[0].denom))
  {
  }

  /** `amount ? formatAmount(amount, denom) : '-'`; the number formatting itself is not modelled. */
  datatype AmountCell = Dash | Formatted(raw: string, denom: string)

  datatype TxRow = TxRow(
    hash: string,
    height: Num,
    txType: string,
    from: string,
    fromFull: string,
    to: string,
    toFull: string,
    amount: AmountCell,
    denom: string,
    success: bool,
    time: string,
    timeAgo: string,
    gasUsed: string,
    gasWanted: string)

  /** `x || '0'`. */
  function OrZero(s: string): string {
    if s != "" then s else "0"
  }

  /** One row of the list, at clock reading `now`. */
  function FormatTx(tx: NodeTx, now: int): (row: TxRow)
    ensures row.hash == tx.txhash && row.height == ParseInt(tx.height)
    ensures row.txType != ""
    ensures var f := ReadFirstMessage(tx.messages);
      && row.txType == f.txType && row.fromFull == f.from && row.toFull == f.to && row.denom == f.denom
      && (row.amount.Formatted? ==> row.amount == Formatted(f.amount, f.denom))
    ensures tx.response.Some? ==>
      && row.time == tx.response.value.timestamp.iso
      && row.gasUsed == OrZero(tx.response.value.gasUsed)
      && row.gasWanted == OrZero(tx.response.value.gasWanted)
    ensures row.success <==> tx.response.Some? && tx.response.value.code == Some(0)
    ensures row.amount.Dash? <==> ReadFirstMessage(tx.messages).amount == ""
    ensures row.from == ShortenAddress(row.fromFull, 8) && row.to == ShortenAddress(row.toFull, 8)
    ensures row.gasUsed != "" && row.gasWanted != ""
    ensures tx.response.None? ==> row.gasUsed == "0" && row.gasWanted == "0" && row.time == ""
    ensures row.timeAgo == "" <==> row.time == ""
  {
    var f := ReadFirstMessage(tx.messages);
    var time := if tx.response.Some? then tx.response.value.timestamp else Timestamp("", 0);
    TxRow(
      tx.txhash,
      ParseInt(tx.height),
      f.txType,
      ShortenAddress(f.from, 8), f.from,
      ShortenAddress(f.to, 8), f.to,
      if f.amount != "" then Formatted(f.amount, f.denom) else Dash,
      f.denom,
      tx.response.Some? && tx.response.value.code == Some(0),
      time.iso,
      if time.iso != "" then TimeAgo(time.ms, now) else "",
      if tx.response.Some? then OrZero(tx.response.value.gasUsed) else "0",
      if tx.response.Some? then OrZero(tx.response.value.gasWanted) else "0")
  }

  /** The rows of the fetched transactions, one each, in order. */
  function FormatTxs(txs: seq<NodeTx>, now: int): (rows: seq<TxRow>)
    ensures |rows| == |txs|
    ensures forall i :: 0 <= i < |txs| ==> rows[i] == FormatTx(txs[i], now)
  {
    seq(|txs|, i requires 0 <= i < |txs| => FormatTx(txs[i], now))
  }

  /** The answer: the rows, or `limit` mock rows (whose random contents are not modelled). */
  datatype TxListResponse = TxList(rows: seq<TxRow>) | MockTxList(count: nat)

  /** The handler's limit: 20 by default, at most 100. */
  function TxListLimit(param: Option<string>): int {
    ClampLimit(param, 20, 100)
  }

  /** The handler given what `getRecentTransactions(limit)` produced. */
  function TransactionsResponse(limit: int, fetched: Result<seq<NodeTx>, FetchError>, now: int): (r: TxListResponse)
    ensures fetched.Failure? <==> r.MockTxList?
    ensures fetched.Failure? ==> r.count == Max0(limit)
    ensures fetched.Success? ==> r == TxList(FormatTxs(fetched.value, now))
    ensures fetched.Success? ==>
      |r.rows| == |fetched.value| && forall i :: 0 <= i < |r.rows| ==> r.rows[i].hash == fetched.value[i].txhash
  {
    match fetched
    case Success(txs) => TxList(FormatTxs(txs, now))
    case Failure(_) => MockTxList(Max0(limit))
  }

  /**
    * Each live row describes its own transaction by the first message: the classifier's type
    * ('Unknown' without messages), and for a bank send its sender, recipient and first coin.
    */
  lemma TransactionsRowsDescribe(limit: int, txs: seq<NodeTx>, now: int, i: int)
    requires 0 <= i < |txs|
    ensures var r := TransactionsResponse(limit, Success(txs), now);
      var row := r.rows[i];
      var ms := txs[i].messages;
      && row.hash == txs[i].txhash
      && (ms == [] ==> row.txType == "Unknown" && row.fromFull == "" && row.toFull == "" && row.amount == Dash)
      && (ms != [] ==> row.txType == TxTypeOf(ms[0].typeUrl) && row.txType != "")
      && (ms != [] && Contains(ms[0].typeUrl, "MsgSend") ==>
            && row.txType == "Transfer"
            && row.fromFull == ms[0].fromAddress && row.toFull == ms[0].toAddress
            && row.from == ShortenAddress(ms[0].fromAddress, 8)
            && (ms[0].amount.CoinList? && |ms[0].amount.coins| > 0 && ms[0].amount.coins[0].amount != "" ==>
                  row.amount == Formatted(ms[0].amount.coins[0].amount, ms[0].amount.coins[0].denom)))
  {
    var row := TransactionsResponse(limit, Success(txs), now).rows[i];
    assert row == FormatTx(txs[i], now);
    FirstMessageSources(txs[i].messages);
    if txs[i].messages != [] {
      TxTypePriority(txs[i].messages[0].typeUrl);
    }
  }

  /**
    * Whatever the query says, the handler answers at most 100 rows, live or mock: the live rows
    * are at most `limit`, and a negative limit makes the loop stop before its first block.
    */
  lemma TransactionsAtMostHundred(c: Cache, param: Option<string>, now: int, respond: string -> HttpOutcome)
    ensures var limit := TxListLimit(param);
      var r := TransactionsResponse(limit, RecentTransactions(c, limit, now, respond).0, now);
      (r.TxList? ==> |r.rows| <= Max0(limit) <= 100) && (r.MockTxList? ==> r.count <= 100)
  {
    var limit := TxListLimit(param);
    var (blocks, c1) := RecentBlocks(c, 5, now, respond);
    if blocks.Success? && limit < 0 {
      assert TxWindow(c1, blocks.value, limit, [], now, respond).0 == [];
    }
  }
}

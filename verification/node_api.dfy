/**
  * What the Babylon Genesis node's REST (LCD) API answers, as values: the response bodies the
  * client reads, the outcome of one HTTP request, and the request paths.
  */
module NodeApi {
  import opened Wrappers
  import opened Numeric

  /** A time as the node writes it (ISO 8601 text) together with the instant it denotes, in ms. */
  datatype Timestamp = Timestamp(iso: string, ms: int)

  datatype Header = Header(height: string, time: Timestamp, chainId: string, proposer: string)

  /** A block; `txs` is absent when the node omits `block.data.txs`. */
  datatype Block = Block(hash: string, header: Header, txs: Option<seq<string>>)

  datatype Coin = Coin(denom: string, amount: string)

  /** A message's `amount` field: absent, a list of coins (bank sends) or one coin (staking). */
  datatype Amount = NoAmount | CoinList(coins: seq<Coin>) | OneCoin(coin: Coin)

  /**
    * The first-level fields of a transaction message that the dashboard reads; a field the
    * message does not carry is the empty string.
    */
  datatype Msg = Msg(
    typeUrl: string,
    fromAddress: string,
    toAddress: string,
    delegatorAddress: string,
    validatorAddress: string,
    stakerAddr: string,
    voter: string,
    amount: Amount)

  /** `tx_response`: `code` is absent for a malformed response; an absent time has empty text. */
  datatype TxResult = TxResult(code: Option<int>, gasWanted: string, gasUsed: string, timestamp: Timestamp)

  datatype NodeTx = NodeTx(txhash: string, height: string, messages: seq<Msg>, response: Option<TxResult>)

  datatype Validator = Validator(operatorAddress: string, jailed: bool, moniker: string, website: string)

  /**
    * A finality provider. `active` is not part of the declared interface, but the node sends it
    * and the provider view copies it, so it is kept here as an optional flag.
    */
  datatype FinalityProvider = FinalityProvider(
    btcPk: string,
    addr: string,
    moniker: string,
    website: string,
    commission: string,
    totalBondedSat: Option<string>,
    slashedBabylonHeight: string,
    jailed: bool,
    active: Option<bool>)

  datatype BtcDelegation = BtcDelegation(
    stakingTxHash: string,
    stakerAddr: string,
    fpBtcPkList: seq<string>,
    stakingValue: string,
    stakingTime: int,
    unbondingTime: int,
    state: string)

  datatype Epoch = Epoch(epochNumber: string, currentEpochInterval: string, firstBlockHeight: string)

  /** `account`: its `@type` URL, `account_number` and `sequence`, each of which may be absent. */
  datatype Account = Account(typeUrl: Option<string>, accountNumber: Option<string>, sequence: Option<string>)

  /** A JSON response body, by the endpoint that produced it; `OtherJson` is anything else. */
  datatype Payload =
    | BlockData(block: Block)
    | TxsData(txResponses: Option<seq<NodeTx>>)
    | BalanceData(balances: seq<Coin>)
    | AccountData(account: Option<Account>)
    | ValidatorsData(validators: seq<Validator>)
    | PoolData(bondedTokens: string, notBondedTokens: string)
    | ProvidersData(providers: seq<FinalityProvider>)
    | DelegationsData(delegations: seq<BtcDelegation>)
    | EpochData(epoch: Epoch)
    | NodeInfoData(appVersion: Option<string>)
    | OtherJson

  /** One HTTP request: a response with a status and a JSON body, or a request that failed. */
  datatype HttpOutcome = Response(status: int, body: Payload) | NetworkError

  /**
    * Why a read threw: a non-2xx status, the request (or its JSON decoding) failed, or a 2xx
    * body lacked a field the caller goes on to read (a `TypeError`).
    */
  datatype FetchError = HttpStatus(code: int) | Unreachable | Malformed

  /** `response.ok`. */
  predicate IsOk(status: int) {
    200 <= status < 300
  }

  const LatestBlockPath: string := "/cosmos/base/tendermint/v1beta1/blocks/latest"
  const NodeInfoPath: string := "/cosmos/base/tendermint/v1beta1/node_info"
  const PoolPath: string := "/cosmos/staking/v1beta1/pool"
  const ProvidersPath: string := "/babylon/btcstaking/v1/finality_providers"
  const DelegationsBasePath: string := "/babylon/btcstaking/v1/btc_delegations"
  const EpochPath: string := "/babylon/epoching/v1/current_epoch"
  const BondedStatus: string := "BOND_STATUS_BONDED"

  /** A parsed number as a template literal renders it. */
  function NumText(n: Num): string {
    match n
    case Int(v) => ShowInt(v)
    case NaN => "NaN"
  }

  function BlockPath(height: int): string {
    "/cosmos/base/tendermint/v1beta1/blocks/" + ShowInt(height)
  }

  function TxsPath(height: Num): string {
    "/cosmos/tx/v1beta1/txs?events=tx.height=" + NumText(height)
  }

  function BalancePath(address: string): string {
    "/cosmos/bank/v1beta1/balances/" + address
  }

  function AccountPath(address: string): string {
    "/cosmos/auth/v1beta1/accounts/" + address
  }

  function ValidatorsPath(status: string): string {
    "/cosmos/staking/v1beta1/validators?status=" + status
  }

  /** Different heights are requested under different paths. */
  lemma BlockPathInjective(a: int, b: int)
    ensures a != b ==> BlockPath(a) != BlockPath(b)
  {
    var prefix := "/cosmos/base/tendermint/v1beta1/blocks/";
    assert BlockPath(a)[|prefix|..] == ShowInt(a);
    assert BlockPath(b)[|prefix|..] == ShowInt(b);
    if ShowInt(a) == ShowInt(b) {
      ShowIntInjective(a, b);
    }
  }

  /** `getBTCDelegations(status)`: an empty status selects the unfiltered listing. */
  function DelegationsPath(status: string): (path: string)
    ensures path == DelegationsBasePath <==> status == ""
    ensures DelegationsBasePath <= path
  {
    if status != "" then DelegationsBasePath + "?status=" + status else DelegationsBasePath
  }
}

/**
  * `GET /api/babylon/staking`: the BTC delegations (optionally filtered by state) as display rows,
  * with the current epoch.
  */
module Staking {
  import opened Wrappers
  import opened Numeric
  import opened NodeApi
  import opened Format

  datatype DelegationView = DelegationView(
    stakingTxHash: string,
    stakingTxHashShort: string,
    stakerAddress: string,
    stakerAddressShort: string,
    finalityProviders: seq<string>,
    stakingValue: string,
    stakingTime: int,
    unbondingTime: int,
    status: string)

  /** `query.status || ''`. */
  function StatusParam(status: Option<string>): (s: string)
    ensures status.Some? ==> s == status.value
    ensures status.None? ==> s == ""
  {
    if status.Some? then status.value else ""
  }

  function ViewOf(d: BtcDelegation): (v: DelegationView)
    ensures v.stakingTxHash == d.stakingTxHash && v.stakerAddress == d.stakerAddr
    ensures v.finalityProviders == d.fpBtcPkList && v.stakingValue == d.stakingValue && v.status == d.state
    ensures v.stakingTime == d.stakingTime && v.unbondingTime == d.unbondingTime
    ensures |d.stakingTxHash| > 23 ==> |v.stakingTxHashShort| == 23
    ensures |d.stakerAddr| > 19 ==> |v.stakerAddressShort| == 19
    ensures v.stakingTxHashShort == ShortenAddress(d.stakingTxHash, 10) && v.stakerAddressShort == ShortenAddress(d.stakerAddr, 8)
  {
    DelegationView(d.stakingTxHash, ShortenAddress(d.stakingTxHash, 10), d.stakerAddr, ShortenAddress(d.stakerAddr, 8),
                   d.fpBtcPkList, d.stakingValue, d.stakingTime, d.unbondingTime, d.state)
  }

  /** The reply; `currentEpoch` is `None` where the epoch body has no `epoch` field (`undefined`). */
  datatype StakingReply = StakingReply(delegations: seq<DelegationView>, totalDelegations: nat, currentEpoch: Option<Epoch>, mock: bool)

  function MockStatus(i: nat): (s: string)
    ensures s == "ACTIVE" <==> i % 3 == 0
    ensures s == "UNBONDING" <==> i % 3 == 1
  {
    if i % 3 == 0 then "ACTIVE" else if i % 3 == 1 then "UNBONDING" else "UNBONDED"
  }

  function MockDelegation(i: nat): DelegationView {
    var n := ShowInt(i);
    DelegationView("btctx" + n + "hash...", "btctx" + n + "...hash", "bbn1staker" + n + "address", "bbn1sta..." + n + "ss",
                   ["fp" + n + "pk"], ShowInt((i + 1) * 10000000), 21600, 1008, MockStatus(i))
  }

  const MockEpoch: Epoch := Epoch("100", "3600", "1800000")

  /** The fixed answer when the handler throws: ten delegations of 0.1 to 1.0 BTC. */
  function MockStaking(): (r: StakingReply)
    ensures |r.delegations| == 10 == r.totalDelegations && r.mock && r.currentEpoch == Some(MockEpoch)
    ensures forall i :: 0 <= i < 10 ==> r.delegations[i] == MockDelegation(i)
  {
    var ds := seq(10, i requires 0 <= i < 10 => MockDelegation(i));
    StakingReply(ds, |ds|, Some(MockEpoch), true)
  }

  /** The mock values rise in steps of 0.1 BTC, and their states cycle through the three states. */
  lemma MockStakingValues(i: nat, j: nat)
    requires i < j < 10
    ensures var d := MockStaking().delegations;
      && ParseInt(d[i].stakingValue) == Int((i + 1) * 10000000)
      && ParseInt(d[i].stakingValue).value < ParseInt(d[j].stakingValue).value
      && (d[i].status == d[j].status <==> i % 3 == j % 3)
  {
    ParseShowInt((i + 1) * 10000000);
    ParseShowInt((j + 1) * 10000000);
  }

  /**
    * The handler, given what the delegation lookup fetched (under `DelegationsPath` of the status
    * parameter) and the body the epoch lookup produced (its fallback already applied). A failed
    * delegation lookup is absorbed into an empty list; a body without the delegation list makes
    * the mapping throw and gives the mock. An epoch body without `epoch` is reported as such.
    */
  function StakingGet(got: Result<Payload, FetchError>, epochBody: Payload): (r: StakingReply)
    ensures got.Success? && !got.value.DelegationsData? ==> r == MockStaking()
    ensures !(got.Success? && !got.value.DelegationsData?) ==>
      && !r.mock
      && (epochBody.EpochData? ==> r.currentEpoch == Some(epochBody.epoch))
      && (!epochBody.EpochData? ==> r.currentEpoch.None?)
    ensures got.Failure? ==> r.delegations == [] && r.totalDelegations == 0
    ensures got.Success? && got.value.DelegationsData? ==>
      var ds := got.value.delegations;
      && |r.delegations| == |ds| == r.totalDelegations
      && forall i :: 0 <= i < |ds| ==> r.delegations[i] == ViewOf(ds[i])
  {
    if got.Success? && !got.value.DelegationsData? then MockStaking()
    else
      var ds := if got.Success? then got.value.delegations else [];
      var views := seq(|ds|, i requires 0 <= i < |ds| => ViewOf(ds[i]));
      var epoch := if epochBody.EpochData? then Some(epochBody.epoch) else None;
      StakingReply(views, |views|, epoch, false)
  }

  /** An absent status and an empty one both list every delegation; any other status filters. */
  lemma StatusSelectsPath(status: Option<string>)
    ensures DelegationsPath(StatusParam(status)) == DelegationsBasePath <==> status.None? || status == Some("")
  {
  }
}

/**
  * `GET /api/babylon/finality-providers`: the node's finality providers as display rows,
  * ranked by bonded satoshis with the largest first, and how many of them are active.
  */
module Providers {
  import opened Wrappers
  import opened Numeric
  import opened Seqs
  import opened NodeApi
  import opened Format

  /** One provider row; `active` is the node's own field, copied as it came. */
  datatype ProviderView = ProviderView(
    btcPk: string,
    btcPkShort: string,
    address: string,
    addressShort: string,
    moniker: string,
    website: string,
    commission: string,
    totalBondedSat: Option<string>,
    active: Option<bool>)

  function ViewOf(fp: FinalityProvider): (v: ProviderView)
    ensures v.btcPk == fp.btcPk && v.address == fp.addr && v.commission == fp.commission
    ensures v.totalBondedSat == fp.totalBondedSat && v.active == fp.active
    ensures v.moniker != "" && (fp.moniker != "" ==> v.moniker == fp.moniker)
    ensures v.website == fp.website
    ensures v.btcPkShort == ShortenAddress(fp.btcPk, 12) && v.addressShort == ShortenAddress(fp.addr, 8)
  {
    ProviderView(fp.btcPk, ShortenAddress(fp.btcPk, 12), fp.addr, ShortenAddress(fp.addr, 8),
                 if fp.moniker != "" then fp.moniker else "Unknown", fp.website, fp.commission,
                 fp.totalBondedSat, fp.active)
  }

  /** One row per provider, in the node's order. */
  function Views(fps: seq<FinalityProvider>): (r: seq<ProviderView>)
    ensures |r| == |fps| && forall i :: 0 <= i < |fps| ==> r[i] == ViewOf(fps[i])
  {
    seq(|fps|, i requires 0 <= i < |fps| => ViewOf(fps[i]))
  }

  /** `parseInt(totalBondedSat)` as the sort compares it; one that does not parse ranks as 0. */
  function BondedKey(v: ProviderView): int {
    match (if v.totalBondedSat.Some? then ParseInt(v.totalBondedSat.value) else NaN)
    case Int(n) => n
    case NaN => 0
  }

  /** `p.active` is truthy. */
  predicate IsActive(v: ProviderView) {
    v.active == Some(true)
  }

  datatype ProvidersReply = ProvidersReply(providers: seq<ProviderView>, totalProviders: nat, activeProviders: nat, mock: bool)

  /** The fixed list answered when the handler throws: five providers, four of them active. */
  const MockProviders: seq<ProviderView> := [
    ProviderView("fp1pk123...", "fp1pk...123", "bbn1fp1addr", "bbn1fp...1", "Babylon Labs", "https://babylonlabs.io", "0.05", Some("500000000000"), Some(true)),
    ProviderView("fp2pk456...", "fp2pk...456", "bbn1fp2addr", "bbn1fp...2", "Stake Capital", "https://stake.capital", "0.08", Some("350000000000"), Some(true)),
    ProviderView("fp3pk789...", "fp3pk...789", "bbn1fp3addr", "bbn1fp...3", "Chorus One", "https://chorus.one", "0.10", Some("280000000000"), Some(true)),
    ProviderView("fp4pk012...", "fp4pk...012", "bbn1fp4addr", "bbn1fp...4", "Figment", "https://figment.io", "0.07", Some("220000000000"), Some(true)),
    ProviderView("fp5pk345...", "fp5pk...345", "bbn1fp5addr", "bbn1fp...5", "Staked", "https://staked.us", "0.06", Some("180000000000"), Some(false))
  ]

  /**
    * The handler, given what the provider lookup fetched. A failed lookup is absorbed by the
    * client into an empty list, which is answered as real data; a body without the provider list
    * makes the mapping throw and the mock list is answered.
    */
  method FinalityProvidersGet(got: Result<Payload, FetchError>) returns (r: ProvidersReply)
    ensures got.Success? && !got.value.ProvidersData? ==> r == ProvidersReply(MockProviders, 5, 4, true)
    ensures got.Failure? ==> r == ProvidersReply([], 0, 0, false)
    ensures got.Success? && got.value.ProvidersData? ==>
      && r.providers == SortDesc(Views(got.value.providers), BondedKey)
      && r.totalProviders == |got.value.providers|
      && r.activeProviders == CountWhere(Views(got.value.providers), IsActive)
      && !r.mock
  {
    var fps := if got.Success? && got.value.ProvidersData? then got.value.providers else [];
    if got.Success? && !got.value.ProvidersData? {
      MockCounts();
      return ProvidersReply(MockProviders, |MockProviders|, CountWhere(MockProviders, IsActive), true);
    }
    var views := Views(fps);
    var a := new ProviderView[|views|](i requires 0 <= i < |views| => views[i]);
    assert a[..] == views;
    SortDescInPlace(a, BondedKey);
    var sorted := a[..];
    CountWhereMultiset(sorted, views, IsActive);
    return ProvidersReply(sorted, |sorted|, CountWhere(sorted, IsActive), false);
  }

  lemma MockCounts()
    ensures |MockProviders| == 5 && CountWhere(MockProviders, IsActive) == 4
  {
    assert MockProviders[1..][1..][1..][1..][1..] == [];
  }

  /**
    * The ranking holds every provider once and only reorders them: it is sorted by bonded
    * satoshis, largest first, and providers with equal stakes keep the node's order.
    */
  lemma RankingIsStableSort(fps: seq<FinalityProvider>, k: int)
    ensures var r := SortDesc(Views(fps), BondedKey);
      && multiset(r) == multiset(Views(fps))
      && (forall i, j :: 0 <= i < j < |r| ==> BondedKey(r[i]) >= BondedKey(r[j]))
      && WithKey(r, BondedKey, k) == WithKey(Views(fps), BondedKey, k)
  {
    SortDescStable(Views(fps), BondedKey, k);
  }

  /** Sorting does not change how many providers are active. */
  lemma ActiveCountUnsorted(fps: seq<FinalityProvider>)
    ensures CountWhere(SortDesc(Views(fps), BondedKey), IsActive) == CountWhere(Views(fps), IsActive)
  {
    var s := Views(fps);
    CountWhereMultiset(SortDesc(s, BondedKey), s, IsActive);
  }
}

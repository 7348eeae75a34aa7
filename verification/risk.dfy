/**
  * `POST /api/compliance/analyze`: a heuristic risk score for an address, from its balance, its
  * account sequence, whether it is a finality provider or a validator, and its stored labels.
  */
module Risk {
  import opened Wrappers
  import opened Numeric
  import opened Text
  import opened NodeApi
  import opened Store
  import opened Format
  import opened Http
  import opened Labeling

  datatype BalanceLevel = LowBalance | MediumBalance | HighBalance | WhaleBalance
  datatype ActivityLevel = NewAccount | LowActivity | MediumActivity | HighActivity

  /** Micro-BBN cut points: 1,000,000 BBN, 100,000 BBN and 1,000 BBN. */
  const WhaleMicro: int := 1000000000000
  const HighMicro: int := 100000000000
  const MediumMicro: int := 1000000000

  /**
    * The balance level of a raw `ubbn` amount, compared after dividing by 10^6; an unparsable
    * amount compares false with everything and stays low.
    */
  function BalanceLevelOf(raw: Num): BalanceLevel {
    match raw
    case NaN => LowBalance
    case Int(v) =>
      if v >= WhaleMicro then WhaleBalance
      else if v >= HighMicro then HighBalance
      else if v >= MediumMicro then MediumBalance
      else LowBalance
  }

  /** Comparing BBN (micro-units divided by 10^6) with a whole number of BBN is comparing micro-units. */
  lemma BbnComparison(v: int, bbn: int)
    ensures (v as real) / 1000000.0 >= bbn as real <==> v >= bbn * 1000000
  {
  }

  /** The cut points in micro-units are the handler's cut points in BBN. */
  lemma BalanceLevelInBbn(v: int)
    ensures var l := BalanceLevelOf(Int(v)); var bbn := (v as real) / 1000000.0;
      && (l == WhaleBalance <==> bbn >= 1000000.0)
      && (l == HighBalance <==> 100000.0 <= bbn < 1000000.0)
      && (l == MediumBalance <==> 1000.0 <= bbn < 100000.0)
      && (l == LowBalance <==> bbn < 1000.0)
  {
    BbnComparison(v, 1000000);
    BbnComparison(v, 100000);
    BbnComparison(v, 1000);
  }

  function BalanceRank(l: BalanceLevel): nat {
    match l
    case LowBalance => 0
    case MediumBalance => 1
    case HighBalance => 2
    case WhaleBalance => 3
  }

  /** A larger balance never has a lower level. */
  lemma BalanceLevelMonotone(a: int, b: int)
    requires a <= b
    ensures BalanceRank(BalanceLevelOf(Int(a))) <= BalanceRank(BalanceLevelOf(Int(b)))
  {
  }

  /** The activity level of the account sequence (transactions sent); unparsable counts as new. */
  function ActivityLevelOf(sequence: Num): ActivityLevel {
    match sequence
    case NaN => NewAccount
    case Int(v) =>
      if v >= 100 then HighActivity
      else if v >= 20 then MediumActivity
      else if v >= 1 then LowActivity
      else NewAccount
  }

  function ActivityRank(l: ActivityLevel): nat {
    match l
    case NewAccount => 0
    case LowActivity => 1
    case MediumActivity => 2
    case HighActivity => 3
  }

  /** More transactions never give a lower activity level. */
  lemma ActivityLevelMonotone(a: int, b: int)
    requires a <= b
    ensures ActivityRank(ActivityLevelOf(Int(a))) <= ActivityRank(ActivityLevelOf(Int(b)))
  {
  }

  datatype FlagKind = Info | Warning | Danger
  datatype Flag = Flag(kind: FlagKind, message: string)

  const ProviderFlag := Flag(Info, "Verified Finality Provider")
  const ValidatorFlag := Flag(Info, "Verified Validator Address")
  const ExchangeFlag := Flag(Info, "Labeled as Exchange")
  const FoundationFlag := Flag(Info, "Labeled as Foundation")
  const WhaleFlag := Flag(Warning, "Whale-sized balance detected")
  const NewAccountFlag := Flag(Warning, "New or inactive account")

  /** What the score reads about the address. */
  datatype Signals = Signals(
    isFinalityProvider: bool,
    isValidator: bool,
    hasLabels: bool,
    exchange: bool,
    foundation: bool,
    balance: BalanceLevel,
    activity: ActivityLevel)

  /** The score before clamping: 30, lowered for known entities and labels, raised for whales and new accounts. */
  function RawScore(s: Signals): int {
    30
    - (if s.isFinalityProvider then 25 else 0)
    - (if s.isValidator then 20 else 0)
    - (if s.hasLabels then 10 + (if s.exchange then 5 else 0) + (if s.foundation then 10 else 0) else 0)
    + (if s.balance == WhaleBalance then 10 else 0)
    + (if s.activity == NewAccount then 15 else if s.activity == HighActivity then 5 else 0)
  }

  /** The one flag of a check that fires, nothing otherwise. */
  function When(fires: bool, f: Flag): (r: seq<Flag>)
    ensures fires ==> r == [f]
    ensures !fires ==> r == []
  {
    if fires then [f] else []
  }

  /** The `info` flags, in the order the checks run. */
  function InfoFlags(s: Signals): seq<Flag> {
    When(s.isFinalityProvider, ProviderFlag)
    + When(s.isValidator, ValidatorFlag)
    + When(s.hasLabels && s.exchange, ExchangeFlag)
    + When(s.hasLabels && s.foundation, FoundationFlag)
  }

  /** The `warning` flags, in the order the checks run. */
  function WarningFlags(s: Signals): seq<Flag> {
    When(s.balance == WhaleBalance, WhaleFlag)
    + When(s.activity == NewAccount, NewAccountFlag)
  }

  /** The flags; every `info` check runs before every `warning` check. */
  function Flags(s: Signals): seq<Flag> {
    InfoFlags(s) + WarningFlags(s)
  }

  /** The flags as the checks push them one after another. */
  lemma FlagsInOrder(s: Signals)
    ensures Flags(s) == When(s.isFinalityProvider, ProviderFlag) + When(s.isValidator, ValidatorFlag)
      + When(s.hasLabels && s.exchange, ExchangeFlag) + When(s.hasLabels && s.foundation, FoundationFlag)
      + When(s.balance == WhaleBalance, WhaleFlag) + When(s.activity == NewAccount, NewAccountFlag)
  {
  }

  /** `Math.max(0, Math.min(100, score))`. */
  function Clamp(score: int): (r: int)
    ensures 0 <= r <= 100
    ensures 0 <= score <= 100 ==> r == score
  {
    if score > 100 then 100 else if score < 0 then 0 else score
  }

  /**
    * The score as the handler computes it, step by step, with the flags pushed as it goes; it is
    * the clamped `RawScore`, and the flags are `Flags`.
    */
  method ScoreRisk(s: Signals) returns (score: int, flags: seq<Flag>)
    ensures score == Clamp(RawScore(s)) && flags == Flags(s)
  {
    score := 30;
    flags := [];
    if s.isFinalityProvider {
      score := score - 25;
      flags := flags + [ProviderFlag];
    }
    ghost var f1 := flags;
    assert f1 == When(s.isFinalityProvider, ProviderFlag);
    if s.isValidator {
      score := score - 20;
      flags := flags + [ValidatorFlag];
    }
    ghost var f2 := flags;
    assert f2 == f1 + When(s.isValidator, ValidatorFlag);
    if s.hasLabels {
      score := score - 10;
      if s.exchange {
        score := score - 5;
        flags := flags + [ExchangeFlag];
      }
      if s.foundation {
        score := score - 10;
        flags := flags + [FoundationFlag];
      }
    }
    ghost var f4 := flags;
    assert f4 == f2 + When(s.hasLabels && s.exchange, ExchangeFlag) + When(s.hasLabels && s.foundation, FoundationFlag);
    if s.balance == WhaleBalance {
      score := score + 10;
      flags := flags + [WhaleFlag];
    }
    ghost var f5 := flags;
    assert f5 == f4 + When(s.balance == WhaleBalance, WhaleFlag);
    if s.activity == NewAccount {
      score := score + 15;
      flags := flags + [NewAccountFlag];
    } else if s.activity == HighActivity {
      score := score + 5;
    }
    assert flags == f5 + When(s.activity == NewAccount, NewAccountFlag);
    FlagsInOrder(s);
    assert score == RawScore(s);
    score := if 100 < score then 100 else score;
    score := if 0 > score then 0 else score;
  }

  /** The unclamped score lies in -40..55, so clamping only ever raises it to 0. */
  lemma RawScoreBounds(s: Signals)
    ensures -40 <= RawScore(s) <= 55
    ensures Clamp(RawScore(s)) <= 55
  {
  }

  /** At most six flags, every `Info` flag before every `Warning` flag, and no `Danger` flag. */
  lemma FlagsOrdered(s: Signals)
    ensures var f := Flags(s);
      && |f| <= 6
      && (forall i, j :: 0 <= i < j < |f| && f[j].kind == Info ==> f[i].kind == Info)
      && (forall i :: 0 <= i < |f| ==> f[i].kind != Danger)
  {
    var info, warn := InfoFlags(s), WarningFlags(s);
    assert forall i :: 0 <= i < |info| ==> info[i].kind == Info;
    assert forall i :: 0 <= i < |warn| ==> warn[i].kind == Warning;
    var f := Flags(s);
    forall i | 0 <= i < |f|
      ensures (i < |info| ==> f[i].kind == Info) && (i >= |info| ==> f[i].kind == Warning)
    {
      if i >= |info| {
        assert f[i] == warn[i - |info|];
      }
    }
  }

  /** High activity moves the score without a flag; a new account always adds its warning. */
  lemma ActivityFlags(s: Signals)
    ensures s.activity == HighActivity ==> Flags(s) == Flags(s.(activity := MediumActivity))
    ensures s.activity == HighActivity && -5 <= RawScore(s) - 5 ==> RawScore(s) == RawScore(s.(activity := MediumActivity)) + 5
    ensures s.activity == NewAccount <==> NewAccountFlag in Flags(s)
  {
  }

  /** `getRiskLevel`. */
  function RiskLevel(score: int): string {
    if score >= 80 then "High Risk"
    else if score >= 50 then "Medium Risk"
    else if score >= 20 then "Low Risk"
    else "Clean"
  }

  datatype RiskColor = RiskColor(bg: string, text: string)

  /** `getRiskColor`. */
  function RiskColorOf(score: int): RiskColor {
    if score >= 80 then RiskColor("bg-red-500", "text-red-400")
    else if score >= 50 then RiskColor("bg-yellow-500", "text-yellow-400")
    else if score >= 20 then RiskColor("bg-blue-500", "text-blue-400")
    else RiskColor("bg-green-500", "text-green-400")
  }

  /** Level and colour use the same bands: two scores share a level exactly when they share a colour. */
  lemma LevelAndColorAgree(a: int, b: int)
    ensures RiskLevel(a) == RiskLevel(b) <==> RiskColorOf(a) == RiskColorOf(b)
  {
  }

  /** A score from the success path is never `High Risk`. */
  lemma NeverHighRisk(s: Signals)
    ensures RiskLevel(Clamp(RawScore(s))) != "High Risk"
  {
  }

  /** A finality provider with no labels, a low balance and no transactions scores 20, `Low Risk`. */
  lemma ProviderExample()
    ensures var s := Signals(true, false, false, false, false, LowBalance, NewAccount);
      Clamp(RawScore(s)) == 20 && RiskLevel(20) == "Low Risk"
      && Flags(s) == [ProviderFlag, NewAccountFlag]
  {
  }

  datatype Metrics = Metrics(balanceRaw: string, accountType: string, sequence: Num, accountNumber: string)

  datatype Analysis = Analysis(
    isValidator: bool,
    isFinalityProvider: bool,
    hasLabels: bool,
    balanceLevel: BalanceLevel,
    activityLevel: ActivityLevel)

  /** The `data` of the answer; `mock` is set on the fallback answer. */
  datatype RiskReport = RiskReport(
    address: string,
    addressShort: string,
    riskScore: int,
    riskLevel: string,
    riskColor: RiskColor,
    lastChecked: string,
    flags: seq<Flag>,
    labels: seq<string>,
    metrics: Metrics,
    analysis: Analysis,
    mock: bool)

  /** The answer when anything after the field check throws. */
  function Fallback(address: string, nowIso: string): (r: RiskReport)
    ensures r.riskScore == 50 && r.riskLevel == "Unknown" && r.mock
    ensures r.flags == [Flag(Warning, "Unable to fetch complete data")]
  {
    RiskReport(address, ShortenAddress(address, 8), 50, "Unknown", RiskColorOf(50), nowIso,
               [Flag(Warning, "Unable to fetch complete data")], [],
               Metrics("0", "Unknown", Int(0), "0"),
               Analysis(false, false, false, LowBalance, NewAccount), true)
  }

  /** `accountInfo?.account`: nothing when the lookup failed or the body has no account. */
  function AccountOf(info: Result<Payload, FetchError>): Option<Account> {
    if info.Success? && info.value.AccountData? then info.value.account else None
  }

  /** `account?.['@type']?.split('.').pop() || 'Unknown'`. */
  function AccountType(a: Option<Account>): (r: string)
    ensures r != ""
    ensures a.Some? && a.value.typeUrl.Some? && LastSegment(a.value.typeUrl.value, '.') != "" ==>
      r == LastSegment(a.value.typeUrl.value, '.')
  {
    if a.Some? && a.value.typeUrl.Some? && LastSegment(a.value.typeUrl.value, '.') != ""
    then LastSegment(a.value.typeUrl.value, '.') else "Unknown"
  }

  /** `account?.sequence || '0'`, parsed. */
  function SequenceOf(a: Option<Account>): Num {
    var text := if a.Some? && a.value.sequence.Some? && a.value.sequence.value != "" then a.value.sequence.value else "0";
    ParseInt(text)
  }

  /** `labelCategories.includes(c)`, over the labels' non-empty categories. */
  predicate HasCategory(labels: seq<LabelRow>, c: string)
    requires c != ""
  {
    exists i :: 0 <= i < |labels| && labels[i].category == Some(c)
  }

  function LabelTexts(labels: seq<LabelRow>): (r: seq<string>)
    ensures |r| == |labels| && forall i :: 0 <= i < |labels| ==> r[i] == labels[i].labelText
  {
    seq(|labels|, i requires 0 <= i < |labels| => labels[i].labelText)
  }

  /**
    * The handler. `balance`, `info` and `providers` are the three lookups (a failed balance
    * lookup counts as no coins, a failed account lookup as no account, a failed provider lookup
    * as no providers); `labels` are the stored labels of the address, `None` when the store
    * fails. A missing address is rejected with 400; a store failure, or a lookup whose body is
    * not the expected list, gives the fallback report.
    */
  method Analyze(address: Option<string>, balance: Result<Payload, FetchError>, info: Result<Payload, FetchError>,
                 providers: Result<Payload, FetchError>, labels: Option<seq<LabelRow>>, nowIso: string)
    returns (r: Result<RiskReport, HttpError>)
    ensures !Given(address) <==> r == Failure(HttpError(400, "Address is required"))
    ensures Given(address) && (labels.None? || (balance.Success? && !balance.value.BalanceData?)
                               || (providers.Success? && !providers.value.ProvidersData?))
      ==> r == Success(Fallback(address.value, nowIso))
    ensures Given(address) && labels.Some? && (balance.Failure? || balance.value.BalanceData?)
                           && (providers.Failure? || providers.value.ProvidersData?) ==>
      var a := address.value;
      var coins := if balance.Success? then balance.value.balances else [];
      var fps := if providers.Success? then providers.value.providers else [];
      var s := Signals(
        exists i :: 0 <= i < |fps| && fps[i].addr == a,
        StartsWith(a, "bbnvaloper"),
        labels.value != [],
        HasCategory(labels.value, "exchange"),
        HasCategory(labels.value, "foundation"),
        BalanceLevelOf(ParseInt(BalanceRaw(coins))),
        ActivityLevelOf(SequenceOf(AccountOf(info))));
      && r.Success? && !r.value.mock
      && r.value.riskScore == Clamp(RawScore(s))
      && r.value.riskLevel == RiskLevel(r.value.riskScore)
      && r.value.riskColor == RiskColorOf(r.value.riskScore)
      && r.value.flags == Flags(s)
      && r.value.labels == LabelTexts(labels.value)
      && r.value.metrics == Metrics(BalanceRaw(coins), AccountType(AccountOf(info)), SequenceOf(AccountOf(info)),
                                    AccountNumber(AccountOf(info)))
      && r.value.analysis == Analysis(s.isValidator, s.isFinalityProvider, s.hasLabels, s.balance, s.activity)
  {
    if !Given(address) {
      return Failure(HttpError(400, "Address is required"));
    }
    var a := address.value;
    if labels.None? || (balance.Success? && !balance.value.BalanceData?)
       || (providers.Success? && !providers.value.ProvidersData?) {
      return Success(Fallback(a, nowIso));
    }
    var coins := if balance.Success? then balance.value.balances else [];
    var fps := if providers.Success? then providers.value.providers else [];
    var isFinalityProvider := exists i :: 0 <= i < |fps| && fps[i].addr == a;
    var isValidator := StartsWith(a, "bbnvaloper");
    var raw := BalanceRaw(coins);
    var account := AccountOf(info);
    var sequence := SequenceOf(account);
    var s := Signals(isFinalityProvider, isValidator, labels.value != [],
                     HasCategory(labels.value, "exchange"), HasCategory(labels.value, "foundation"),
                     BalanceLevelOf(ParseInt(raw)), ActivityLevelOf(sequence));
    var score, flags := ScoreRisk(s);
    var report := RiskReport(a, ShortenAddress(a, 8), score, RiskLevel(score), RiskColorOf(score), nowIso, flags,
                             LabelTexts(labels.value),
                             Metrics(raw, AccountType(account), sequence, AccountNumber(account)),
                             Analysis(isValidator, isFinalityProvider, s.hasLabels, s.balance, s.activity), false);
    return Success(report);
  }

  /** `account?.account_number || '0'`. */
  function AccountNumber(a: Option<Account>): (r: string)
    ensures r != ""
  {
    if a.Some? && a.value.accountNumber.Some? && a.value.accountNumber.value != "" then a.value.accountNumber.value else "0"
  }
}

/**
  * The watched-address portfolio: `GET /api/portfolio/watched` lists the watched addresses with
  * their ubbn balances and the total, and `POST /api/portfolio/watched` adds one.
  */
module Portfolio {
  import opened Wrappers
  import opened Numeric
  import opened Text
  import opened Seqs
  import opened NodeApi
  import opened Format
  import opened Store
  import opened Http
  import opened Labeling

  datatype WatchedView = WatchedView(
    id: nat,
    address: string,
    addressShort: string,
    nickname: string,
    alertsEnabled: bool,
    createdAt: string,
    balanceRaw: string)

  /** `addr.nickname || 'Wallet <id>'`. */
  function Nickname(row: WatchedRow): (n: string)
    ensures row.nickname.Some? && row.nickname.value != "" ==> n == row.nickname.value
    ensures row.nickname.None? || row.nickname == Some("") ==> n == "Wallet " + ShowInt(row.id)
  {
    if row.nickname.Some? && row.nickname.value != "" then row.nickname.value else "Wallet " + ShowInt(row.id)
  }

  /**
    * The raw ubbn balance of one watched address given its balance lookup: the amount or '0',
    * and '0' as well when the lookup fails or its body has no balance list.
    */
  function RawBalance(got: Result<Payload, FetchError>): (r: string)
    ensures r != ""
    ensures got.Failure? || !got.value.BalanceData? ==> r == "0"
    ensures got.Success? && got.value.BalanceData? ==> r == BalanceRaw(got.value.balances)
  {
    if got.Success? && got.value.BalanceData? then BalanceRaw(got.value.balances) else "0"
  }

  function ViewOf(row: WatchedRow, got: Result<Payload, FetchError>): (v: WatchedView)
    ensures v.id == row.id && v.address == row.address && v.alertsEnabled == row.alertsEnabled
    ensures v.createdAt == row.createdAt.iso && v.nickname == Nickname(row) && v.balanceRaw == RawBalance(got)
  {
    WatchedView(row.id, row.address, ShortenAddress(row.address, 8), Nickname(row), row.alertsEnabled,
                row.createdAt.iso, RawBalance(got))
  }

  function CreatedMs(row: WatchedRow): int {
    row.createdAt.ms
  }

  /** `orderBy(desc(createdAt))`: newest first, ties in insertion order. */
  function NewestFirst(rows: seq<WatchedRow>): (r: seq<WatchedRow>)
    ensures |r| == |rows| && multiset(r) == multiset(rows)
    ensures forall i, j :: 0 <= i < j < |r| ==> r[i].createdAt.ms >= r[j].createdAt.ms
  {
    var r := SortDesc(rows, CreatedMs);
    assert forall i :: 0 <= i < |r| ==> CreatedMs(r[i]) == r[i].createdAt.ms;
    r
  }

  /** `reduce((sum, a) => sum + parseInt(a.balanceRaw || '0'), 0)`, adding from the left. */
  function TotalRaw(views: seq<WatchedView>): Num
    decreases |views|
  {
    if views == [] then Int(0) else TotalRaw(views[..|views| - 1]).Plus(ParseInt(views[|views| - 1].balanceRaw))
  }

  /** The integer sum of the balances, when each of them parses. */
  function BalanceSum(views: seq<WatchedView>): int
    decreases |views|
  {
    if views == [] then 0
    else BalanceSum(views[..|views| - 1]) + (match ParseInt(views[|views| - 1].balanceRaw) case Int(v) => v case NaN => 0)
  }

  /**
    * The total is the sum of the balances when every balance parses as a whole number, and
    * NaN as soon as one does not.
    */
  lemma {:induction false} TotalRawIsSum(views: seq<WatchedView>)
    ensures (forall i :: 0 <= i < |views| ==> IsDecimal(views[i].balanceRaw)) ==> TotalRaw(views) == Int(BalanceSum(views))
    ensures (exists i :: 0 <= i < |views| && !IsDecimal(views[i].balanceRaw)) ==> TotalRaw(views) == NaN
    decreases |views|
  {
    if views != [] {
      var init := views[..|views| - 1];
      TotalRawIsSum(init);
      if exists i :: 0 <= i < |views| && !IsDecimal(views[i].balanceRaw) {
        var i :| 0 <= i < |views| && !IsDecimal(views[i].balanceRaw);
        if i < |init| {
          assert init[i] == views[i];
        }
      }
      if forall i :: 0 <= i < |views| ==> IsDecimal(views[i].balanceRaw) {
        assert forall i :: 0 <= i < |init| ==> init[i] == views[i];
      }
    }
  }

  datatype WatchedReply = WatchedReply(success: bool, addresses: seq<WatchedView>, totalAddresses: nat, totalBalanceRaw: string)

  const FailedWatchedReply: WatchedReply := WatchedReply(false, [], 0, "0")

  /**
    * The listing handler, given the watched rows (`None` when the store fails) and each
    * address's balance lookup: one entry per row, newest first, with no row dropped when its
    * balance cannot be read.
    */
  function WatchedGet(rows: Option<seq<WatchedRow>>, balanceOf: string -> Result<Payload, FetchError>): (r: WatchedReply)
    ensures rows.None? ==> r == FailedWatchedReply
    ensures rows.Some? ==>
      var sorted := NewestFirst(rows.value);
      && r.success
      && |r.addresses| == |rows.value| == r.totalAddresses
      && (forall i :: 0 <= i < |sorted| ==> r.addresses[i] == ViewOf(sorted[i], balanceOf(sorted[i].address)))
      && r.totalBalanceRaw == NumText(TotalRaw(r.addresses))
  {
    match rows
    case None => FailedWatchedReply
    case Some(rs) =>
      var sorted := NewestFirst(rs);
      var views := seq(|sorted|, i requires 0 <= i < |sorted| => ViewOf(sorted[i], balanceOf(sorted[i].address)));
      WatchedReply(true, views, |views|, NumText(TotalRaw(views)))
  }

  /** The request body of the insert; `alertsEnabled` defaults to false when absent. */
  datatype WatchBody = WatchBody(address: Option<string>, nickname: Option<string>, alertsEnabled: Option<bool>)

  const AddressRequired: HttpError := HttpError(400, "Address is required")
  const InvalidAddress: HttpError := HttpError(400, "Invalid Babylon address format")
  const WatchFailed: HttpError := HttpError(500, "Failed to add watched address")

  /** An account address or a validator operator address of Babylon. */
  predicate IsBabylonAddress(address: string) {
    StartsWith(address, "bbn1") || StartsWith(address, "bbnvaloper1")
  }

  /** The row the insert adds: the next id, no session, and a null nickname when none or an empty one is given. */
  function WatchedRowFor(t: Tables, body: WatchBody, now: Timestamp): (row: WatchedRow)
    requires body.address.Some?
    ensures row.id == t.nextWatchedId && row.address == body.address.value && row.createdAt == now
    ensures row.nickname.Some? <==> body.nickname.Some? && body.nickname.value != ""
    ensures row.nickname.Some? ==> row.nickname == body.nickname
    ensures row.alertsEnabled <==> body.alertsEnabled == Some(true)
  {
    WatchedRow(t.nextWatchedId, None, body.address.value,
               if body.nickname.Some? && body.nickname.value != "" then body.nickname else None,
               body.alertsEnabled.GetOr(false), now)
  }

  /** What the insert handler does to the tables and answers, with a working store. */
  function WatchAddress(t: Tables, body: WatchBody, now: Timestamp): (Tables, Result<WatchedRow, HttpError>) {
    if !Given(body.address) then (t, Failure(AddressRequired))
    else if !IsBabylonAddress(body.address.value) then (t, Failure(InvalidAddress))
    else
      var row := WatchedRowFor(t, body, now);
      (t.(watched := t.watched + [row], nextWatchedId := t.nextWatchedId + 1), Success(row))
  }

  /**
    * The insert handler; `up` says whether the store works. The checks run before the store is
    * touched, and a store failure answers 500 without a write.
    */
  method WatchedPost(db: Database, body: WatchBody, now: Timestamp, up: bool) returns (r: Result<WatchedRow, HttpError>)
    modifies db
    ensures !up && Given(body.address) && IsBabylonAddress(body.address.value) ==>
      r == Failure(WatchFailed) && db.State() == old(db.State())
    ensures up || !Given(body.address) || !IsBabylonAddress(body.address.value) ==>
      (db.State(), r) == WatchAddress(old(db.State()), body, now)
  {
    if !Given(body.address) {
      return Failure(AddressRequired);
    }
    var address := body.address.value;
    if !StartsWith(address, "bbn1") && !StartsWith(address, "bbnvaloper1") {
      return Failure(InvalidAddress);
    }
    if !up {
      return Failure(WatchFailed);
    }
    var nickname := if body.nickname.Some? && body.nickname.value != "" then body.nickname else None;
    var row := WatchedRow(db.nextWatchedId, None, address, nickname, body.alertsEnabled.GetOr(false), now);
    db.watched := db.watched + [row];
    db.nextWatchedId := db.nextWatchedId + 1;
    return Success(row);
  }

  /**
    * A missing or empty address, or one with neither prefix, is rejected with 400 and nothing is
    * written; otherwise exactly one row is appended.
    */
  lemma WatchRejects(t: Tables, body: WatchBody, now: Timestamp)
    ensures var (t', r) := WatchAddress(t, body, now);
      && (r.Failure? <==> !Given(body.address) || !IsBabylonAddress(body.address.value))
      && (r.Failure? ==> t' == t && r.error.statusCode == 400)
      && (r.Success? ==> t'.watched == t.watched + [r.value] && t'.labels == t.labels && t'.addresses == t.addresses)
  {
  }

  /** An insert keeps the tables well formed. */
  lemma WatchWellFormed(t: Tables, body: WatchBody, now: Timestamp)
    requires WellFormed(t)
    ensures WellFormed(WatchAddress(t, body, now).0)
  {
    var t' := WatchAddress(t, body, now).0;
    if t' != t {
      assert t'.labels == t.labels && t'.addresses == t.addresses;
      assert forall i :: 0 <= i < |t.watched| ==> t'.watched[i] == t.watched[i];
    }
  }

  /** There is no duplicate check: watching the same address twice leaves two rows with different ids. */
  lemma WatchTwice(t: Tables, body: WatchBody, now: Timestamp, later: Timestamp)
    requires Given(body.address) && IsBabylonAddress(body.address.value)
    ensures var (t1, r1) := WatchAddress(t, body, now);
      var (t2, r2) := WatchAddress(t1, body, later);
      && |t2.watched| == |t.watched| + 2
      && r1.Success? && r2.Success?
      && r1.value.address == r2.value.address && r1.value.id < r2.value.id
  {
  }
}

/**
  * The dashboard's own tables, in memory: `addresses` (one row per known address),
  * `address_labels` (any number of labels per address) and `watched_addresses`, each in
  * insertion order, with the next autoincrement ids.
  */
module Store {
  import opened Wrappers
  import opened NodeApi

  datatype AddressRow = AddressRow(
    address: string,
    labelText: Option<string>,
    labelSource: Option<string>,
    labelConfidence: Option<real>,
    firstSeen: string,
    lastSeen: string,
    txCount: int)

  datatype LabelRow = LabelRow(
    id: nat,
    address: string,
    labelText: string,
    category: Option<string>,
    confidence: Option<real>,
    source: Option<string>,
    createdAt: Timestamp,
    updatedAt: Option<string>)

  datatype WatchedRow = WatchedRow(
    id: nat,
    sessionId: Option<string>,
    address: string,
    nickname: Option<string>,
    alertsEnabled: bool,
    createdAt: Timestamp)

  datatype Tables = Tables(
    addresses: seq<AddressRow>,
    labels: seq<LabelRow>,
    watched: seq<WatchedRow>,
    nextLabelId: nat,
    nextWatchedId: nat)

  /** Why a store operation threw. */
  datatype StoreError = StoreUnavailable

  /** `select().from(addresses).where(eq(address, a)).limit(1)` finds a row. */
  predicate HasAddress(rows: seq<AddressRow>, a: string) {
    exists i :: 0 <= i < |rows| && rows[i].address == a
  }

  /**
    * What the handlers keep true of the tables: autoincrement ids grow with insertion order
    * and stay below the next id, an address has at most one row, and every label's address
    * has one.
    */
  ghost predicate WellFormed(t: Tables) {
    && (forall i, j :: 0 <= i < j < |t.labels| ==> t.labels[i].id < t.labels[j].id)
    && (forall i :: 0 <= i < |t.labels| ==> t.labels[i].id < t.nextLabelId)
    && (forall i, j :: 0 <= i < j < |t.watched| ==> t.watched[i].id < t.watched[j].id)
    && (forall i :: 0 <= i < |t.watched| ==> t.watched[i].id < t.nextWatchedId)
    && (forall i, j :: 0 <= i < j < |t.addresses| ==> t.addresses[i].address != t.addresses[j].address)
    && (forall i :: 0 <= i < |t.labels| ==> HasAddress(t.addresses, t.labels[i].address))
  }

  /** Appending a label with the next id, for an address that has a row, keeps the tables well formed. */
  lemma AppendLabelWellFormed(t: Tables, row: LabelRow)
    requires WellFormed(t) && row.id == t.nextLabelId && HasAddress(t.addresses, row.address)
    ensures WellFormed(t.(labels := t.labels + [row], nextLabelId := t.nextLabelId + 1))
  {
    var t' := t.(labels := t.labels + [row], nextLabelId := t.nextLabelId + 1);
    forall i | 0 <= i < |t'.labels|
      ensures HasAddress(t'.addresses, t'.labels[i].address)
    {
      if i < |t.labels| {
        assert t'.labels[i] == t.labels[i];
      }
    }
  }

  /** `select().from(addressLabels).where(eq(address, a))`: the address's labels, in insertion order. */
  function LabelsOf(labels: seq<LabelRow>, a: string): (r: seq<LabelRow>)
    ensures |r| <= |labels|
    decreases |labels|
  {
    if labels == [] then []
    else
      var last := labels[|labels| - 1];
      LabelsOf(labels[..|labels| - 1], a) + (if last.address == a then [last] else [])
  }

  /** The selected rows are exactly the rows of the address. */
  lemma {:induction false} LabelsOfMembers(labels: seq<LabelRow>, a: string)
    ensures forall l :: l in LabelsOf(labels, a) <==> l in labels && l.address == a
    decreases |labels|
  {
    if labels != [] {
      var init := labels[..|labels| - 1];
      LabelsOfMembers(init, a);
      assert labels == init + [labels[|labels| - 1]];
    }
  }

  /** Appending a row appends it to its address's labels and to no other address's. */
  lemma LabelsOfAppend(labels: seq<LabelRow>, row: LabelRow, a: string)
    ensures LabelsOf(labels + [row], a) == LabelsOf(labels, a) + (if row.address == a then [row] else [])
  {
    assert (labels + [row])[..|labels|] == labels;
  }

  /** The in-memory database the handlers share. */
  class Database {
    var addresses: seq<AddressRow>
    var labels: seq<LabelRow>
    var watched: seq<WatchedRow>
    var nextLabelId: nat
    var nextWatchedId: nat

    function State(): Tables
      reads this
    {
      Tables(addresses, labels, watched, nextLabelId, nextWatchedId)
    }

    ghost predicate Valid()
      reads this
    {
      WellFormed(State())
    }

    /** Empty tables; autoincrement ids start at 1. */
    constructor ()
      ensures State() == Tables([], [], [], 1, 1) && Valid()
    {
      addresses := [];
      labels := [];
      watched := [];
      nextLabelId := 1;
      nextWatchedId := 1;
    }
  }
}

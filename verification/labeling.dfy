/**
  * Automatic address labelling (`server/utils/labeling.ts`): the label upsert and the batch
  * jobs that label validators, finality providers and whales.
  *
  * `up` / `storeUp(k)` say whether a store call (the k-th upsert of a job) succeeds; a call
  * that fails throws before it writes anything.
  */
module Labeling {
  import opened Wrappers
  import opened Numeric
  import opened Seqs
  import opened NodeApi
  import opened Babylon
  import opened Store

  /** A label row that the upsert treats as the same label: same text and same category. */
  predicate SameLabel(l: LabelRow, labelText: string, category: Option<string>) {
    l.labelText == labelText && l.category == category
  }

  /** `existing.find(...)`: the position of the first row with the same label, if any. */
  function FindSame(rows: seq<LabelRow>, labelText: string, category: Option<string>): (k: Option<nat>)
    ensures k.Some? ==> (k.value < |rows| && SameLabel(rows[k.value], labelText, category)
      && forall j :: 0 <= j < k.value ==> !SameLabel(rows[j], labelText, category))
    ensures k.None? ==> forall j :: 0 <= j < |rows| ==> !SameLabel(rows[j], labelText, category)
    decreases |rows|
  {
    if rows == [] then None
    else if SameLabel(rows[0], labelText, category) then Some(0)
    else
      match FindSame(rows[1..], labelText, category)
      case None => None
      case Some(k) => Some(k + 1)
  }

  /** `duplicate.confidence || 0`. */
  function ConfidenceOr0(c: Option<real>): real {
    if c.Some? then c.value else 0.0
  }

  /** `update(addressLabels).set({confidence, updatedAt}).where(eq(id, id))`. */
  function RaiseConfidence(labels: seq<LabelRow>, id: nat, confidence: real, now: Timestamp): (r: seq<LabelRow>)
    ensures |r| == |labels|
    ensures forall i :: 0 <= i < |labels| && labels[i].id != id ==> r[i] == labels[i]
    ensures forall i :: 0 <= i < |labels| && labels[i].id == id ==>
      && r[i].confidence == Some(confidence) && r[i].updatedAt == Some(now.iso)
      && r[i].(confidence := labels[i].confidence, updatedAt := labels[i].updatedAt) == labels[i]
  {
    seq(|labels|, i requires 0 <= i < |labels| =>
      if labels[i].id == id then labels[i].(confidence := Some(confidence), updatedAt := Some(now.iso)) else labels[i])
  }

  lemma LabelsOfRaise(labels: seq<LabelRow>, id: nat, confidence: real, now: Timestamp, a: string)
    ensures LabelsOf(RaiseConfidence(labels, id, confidence, now), a) == RaiseConfidence(LabelsOf(labels, a), id, confidence, now)
    decreases |labels|
  {
    if labels != [] {
      var init := labels[..|labels| - 1];
      var raised := RaiseConfidence(labels, id, confidence, now);
      assert raised[..|labels| - 1] == RaiseConfidence(init, id, confidence, now);
      LabelsOfRaise(init, id, confidence, now, a);
      assert LabelsOf(raised, a) == LabelsOf(raised[..|labels| - 1], a) + (if raised[|labels| - 1].address == a then [raised[|labels| - 1]] else []);
    }
  }

  /** The labels the duplicate search reads: the first 100 rows of the address. */
  function Window(t: Tables, address: string): seq<LabelRow> {
    SliceTo(LabelsOf(t.labels, address), 100)
  }

  /** The row `upsertLabel` inserts: the next id, the given fields, no update time yet. */
  function NewLabel(t: Tables, address: string, labelText: string, category: string, confidence: real,
                    source: string, now: Timestamp): LabelRow
  {
    LabelRow(t.nextLabelId, address, labelText, Some(category), Some(confidence), Some(source), now, None)
  }

  /** The address row `upsertLabel` creates for an address it has not seen. */
  function NewAddress(address: string, now: Timestamp): AddressRow {
    AddressRow(address, None, None, None, now.iso, now.iso, 0)
  }

  /** The insert branch: create the address row if missing, then append the label. */
  function Inserted(t: Tables, address: string, row: LabelRow, now: Timestamp): Tables {
    var addrs := if HasAddress(t.addresses, address) then t.addresses else t.addresses + [NewAddress(address, now)];
    t.(addresses := addrs, labels := t.labels + [row], nextLabelId := t.nextLabelId + 1)
  }

  /** The duplicate branch: raise the confidence when the new one is larger. */
  function Raised(t: Tables, dup: LabelRow, confidence: real, now: Timestamp): Tables {
    if confidence > ConfidenceOr0(dup.confidence)
    then t.(labels := RaiseConfidence(t.labels, dup.id, confidence, now))
    else t
  }

  /**
    * `upsertLabel`: with a same-label row among the first 100 labels of the address, raise its
    * confidence if the new one is larger and return the row as it was read; otherwise make sure
    * the address has a row and insert the label. The tables afterwards and the row returned.
    */
  function Upsert(t: Tables, address: string, labelText: string, category: string, confidence: real,
                  source: string, now: Timestamp): (Tables, LabelRow)
  {
    var existing := Window(t, address);
    match FindSame(existing, labelText, Some(category))
    case Some(k) => (Raised(t, existing[k], confidence, now), existing[k])
    case None =>
      var row := NewLabel(t, address, labelText, category, confidence, source, now);
      (Inserted(t, address, row, now), row)
  }

  method UpsertLabel(db: Database, address: string, labelText: string, category: string, confidence: real,
                     source: string, now: Timestamp, up: bool) returns (r: Result<LabelRow, StoreError>)
    modifies db
    ensures up ==> (r == Success(Upsert(old(db.State()), address, labelText, category, confidence, source, now).1)
      && db.State() == Upsert(old(db.State()), address, labelText, category, confidence, source, now).0)
    ensures !up ==> r == Failure(StoreUnavailable) && db.State() == old(db.State())
  {
    if !up {
      return Failure(StoreUnavailable);
    }
    var existing := SliceTo(LabelsOf(db.labels, address), 100);
    var found := FindSame(existing, labelText, Some(category));
    if found.Some? {
      var duplicate := existing[found.value];
      if confidence > ConfidenceOr0(duplicate.confidence) {
        db.labels := RaiseConfidence(db.labels, duplicate.id, confidence, now);
      }
      return Success(duplicate);
    }
    if !HasAddress(db.addresses, address) {
      db.addresses := db.addresses + [NewAddress(address, now)];
    }
    var row := LabelRow(db.nextLabelId, address, labelText, Some(category), Some(confidence), Some(source), now, None);
    db.labels := db.labels + [row];
    db.nextLabelId := db.nextLabelId + 1;
    return Success(row);
  }

  /** In well-formed tables a label of an address is the only row with its id. */
  lemma IdUnique(t: Tables, dup: LabelRow, address: string, i: nat)
    requires WellFormed(t) && dup in LabelsOf(t.labels, address)
    requires i < |t.labels| && t.labels[i].id == dup.id
    ensures t.labels[i] == dup
  {
    LabelsOfMembers(t.labels, address);
    var j :| 0 <= j < |t.labels| && t.labels[j] == dup;
    if i < j {
    } else if j < i {
    }
  }

  /** The insert branch keeps the tables well formed. */
  lemma InsertedWellFormed(t: Tables, address: string, labelText: string, category: string, confidence: real,
                           source: string, now: Timestamp)
    requires WellFormed(t)
    ensures WellFormed(Inserted(t, address, NewLabel(t, address, labelText, category, confidence, source, now), now))
  {
    var t' := Inserted(t, address, NewLabel(t, address, labelText, category, confidence, source, now), now);
    assert HasAddress(t'.addresses, address) by {
      if !HasAddress(t.addresses, address) {
        assert t'.addresses[|t.addresses|].address == address;
      }
    }
    forall i | 0 <= i < |t'.labels|
      ensures HasAddress(t'.addresses, t'.labels[i].address)
    {
      if i < |t.labels| {
        var j :| 0 <= j < |t.addresses| && t.addresses[j].address == t.labels[i].address;
        assert t'.addresses[j] == t.addresses[j];
      }
    }
    assert forall i, j :: 0 <= i < j < |t'.addresses| ==> t'.addresses[i].address != t'.addresses[j].address;
  }

  /** The upsert keeps the tables well formed. */
  lemma UpsertWellFormed(t: Tables, address: string, labelText: string, category: string, confidence: real,
                         source: string, now: Timestamp)
    requires WellFormed(t)
    ensures WellFormed(Upsert(t, address, labelText, category, confidence, source, now).0)
  {
    if FindSame(Window(t, address), labelText, Some(category)).None? {
      InsertedWellFormed(t, address, labelText, category, confidence, source, now);
    }
  }

  /**
    * Nothing is lost and confidence never drops: every existing label row keeps its place, id,
    * address, text, category, source and creation time, and its confidence (absent counting as
    * 0) does not decrease; rows are only added at the end.
    */
  lemma UpsertKeepsRows(t: Tables, address: string, labelText: string, category: string, confidence: real,
                        source: string, now: Timestamp)
    requires WellFormed(t)
    ensures var t' := Upsert(t, address, labelText, category, confidence, source, now).0;
      && |t'.labels| >= |t.labels|
      && forall i :: 0 <= i < |t.labels| ==>
           && t'.labels[i].(confidence := t.labels[i].confidence, updatedAt := t.labels[i].updatedAt) == t.labels[i]
           && ConfidenceOr0(t'.labels[i].confidence) >= ConfidenceOr0(t.labels[i].confidence)
  {
    var existing := Window(t, address);
    var found := FindSame(existing, labelText, Some(category));
    if found.Some? {
      var dup := existing[found.value];
      assert dup in LabelsOf(t.labels, address);
      if confidence > ConfidenceOr0(dup.confidence) {
        forall i | 0 <= i < |t.labels| && t.labels[i].id == dup.id
          ensures t.labels[i] == dup
        {
          IdUnique(t, dup, address, i);
        }
      }
    }
  }

  /**
    * A same-label row among the first 100 of the address: nothing is inserted, no address row is
    * created, and that row is returned as it was read. When the new confidence is larger than
    * the row's (an absent one counting as 0) the row takes it, with `now` as its update time;
    * otherwise nothing changes. Every other row stays as it was.
    */
  lemma UpsertFindsDuplicate(t: Tables, address: string, labelText: string, category: string, confidence: real,
                             source: string, now: Timestamp, k: nat)
    requires WellFormed(t)
    requires k < |Window(t, address)| && SameLabel(Window(t, address)[k], labelText, Some(category))
    requires forall j :: 0 <= j < k ==> !SameLabel(Window(t, address)[j], labelText, Some(category))
    ensures var (t', row) := Upsert(t, address, labelText, category, confidence, source, now);
      && row == Window(t, address)[k]
      && t'.addresses == t.addresses && |t'.labels| == |t.labels| && t'.nextLabelId == t.nextLabelId
      && (confidence <= ConfidenceOr0(row.confidence) ==> t' == t)
      && forall i :: 0 <= i < |t.labels| ==>
           if t.labels[i] == row && confidence > ConfidenceOr0(row.confidence)
           then t'.labels[i] == row.(confidence := Some(confidence), updatedAt := Some(now.iso))
           else t'.labels[i] == t.labels[i]
  {
    var dup := Window(t, address)[k];
    FindSameIsFirst(Window(t, address), labelText, Some(category), k);
    assert dup in LabelsOf(t.labels, address);
    forall i | 0 <= i < |t.labels| && t.labels[i].id == dup.id
      ensures t.labels[i] == dup
    {
      IdUnique(t, dup, address, i);
    }
  }

  /**
    * No same-label row among the first 100: an address row is created exactly when the address
    * had none (existing ones untouched), and exactly one label row with the given fields and a
    * fresh id is appended and returned; other addresses' labels are unchanged.
    */
  lemma UpsertInsertsNew(t: Tables, address: string, labelText: string, category: string, confidence: real,
                         source: string, now: Timestamp)
    requires forall j :: 0 <= j < |Window(t, address)| ==> !SameLabel(Window(t, address)[j], labelText, Some(category))
    ensures var (t', row) := Upsert(t, address, labelText, category, confidence, source, now);
      && row == LabelRow(t.nextLabelId, address, labelText, Some(category), Some(confidence), Some(source), now, None)
      && t'.labels == t.labels + [row]
      && t'.nextLabelId == t.nextLabelId + 1
      && (HasAddress(t.addresses, address) ==> t'.addresses == t.addresses)
      && (!HasAddress(t.addresses, address) ==> t'.addresses == t.addresses + [NewAddress(address, now)])
      && forall b :: b != address ==> LabelsOf(t'.labels, b) == LabelsOf(t.labels, b)
  {
    var row := NewLabel(t, address, labelText, category, confidence, source, now);
    assert FindSame(Window(t, address), labelText, Some(category)) == None;
    forall b | b != address
      ensures LabelsOf(t.labels + [row], b) == LabelsOf(t.labels, b)
    {
      LabelsOfAppend(t.labels, row, b);
    }
  }

  /** After the insert branch the address's labels are the old ones and the new row. */
  lemma InsertedLabels(t: Tables, address: string, row: LabelRow, now: Timestamp)
    requires row.address == address
    ensures LabelsOf(Inserted(t, address, row, now).labels, address) == LabelsOf(t.labels, address) + [row]
  {
    LabelsOfAppend(t.labels, row, address);
  }

  /** A position with the label and none before it is what the search finds. */
  lemma FindSameIsFirst(rows: seq<LabelRow>, labelText: string, category: Option<string>, k: nat)
    requires k < |rows| && SameLabel(rows[k], labelText, category)
    requires forall j :: 0 <= j < k ==> !SameLabel(rows[j], labelText, category)
    ensures FindSame(rows, labelText, category) == Some(k)
  {
    var found := FindSame(rows, labelText, category);
    if found.Some? && found.value < k {
    } else if found.Some? && found.value > k {
    }
  }

  /** Raising a confidence changes neither text nor category, so the search finds the same row. */
  lemma FindSameRaised(rows: seq<LabelRow>, labelText: string, category: Option<string>, k: nat,
                       confidence: real, now: Timestamp)
    requires FindSame(rows, labelText, category) == Some(k)
    ensures FindSame(RaiseConfidence(rows, rows[k].id, confidence, now), labelText, category) == Some(k)
  {
    var rows1 := RaiseConfidence(rows, rows[k].id, confidence, now);
    forall j | 0 <= j <= k
      ensures SameLabel(rows1[j], labelText, category) <==> SameLabel(rows[j], labelText, category)
    {
    }
    FindSameIsFirst(rows1, labelText, category, k);
  }

  /** The second upsert when the first found the label at position `k` of the window. */
  lemma RepeatAfterDuplicate(t: Tables, address: string, labelText: string, category: string, confidence: real,
                             source: string, now: Timestamp, k: nat)
    requires |LabelsOf(t.labels, address)| < 100
    requires FindSame(LabelsOf(t.labels, address), labelText, Some(category)) == Some(k)
    ensures var t1 := Raised(t, LabelsOf(t.labels, address)[k], confidence, now);
      Upsert(t1, address, labelText, category, confidence, source, now).0 == t1
  {
    var all := LabelsOf(t.labels, address);
    var dup := all[k];
    var t1 := Raised(t, dup, confidence, now);
    if confidence > ConfidenceOr0(dup.confidence) {
      var all1 := RaiseConfidence(all, dup.id, confidence, now);
      assert LabelsOf(t1.labels, address) == all1 by {
        LabelsOfRaise(t.labels, dup.id, confidence, now, address);
      }
      assert Window(t1, address) == all1;
      FindSameRaised(all, labelText, Some(category), k, confidence, now);
      assert all1[k].confidence == Some(confidence);
      assert Upsert(t1, address, labelText, category, confidence, source, now).0 == Raised(t1, all1[k], confidence, now);
    } else {
      assert Window(t, address) == all;
    }
  }

  /** The second upsert when the first inserted `row`. */
  lemma RepeatAfterInsert(t: Tables, address: string, labelText: string, category: string, confidence: real,
                          source: string, now: Timestamp)
    requires |LabelsOf(t.labels, address)| < 100
    requires FindSame(LabelsOf(t.labels, address), labelText, Some(category)) == None
    ensures var t1 := Inserted(t, address, NewLabel(t, address, labelText, category, confidence, source, now), now);
      Upsert(t1, address, labelText, category, confidence, source, now).0 == t1
  {
    var all := LabelsOf(t.labels, address);
    var row := NewLabel(t, address, labelText, category, confidence, source, now);
    var t1 := Inserted(t, address, row, now);
    InsertedLabels(t, address, row, now);
    var all1 := all + [row];
    assert Window(t1, address) == all1;
    forall j | 0 <= j < |all|
      ensures !SameLabel(all1[j], labelText, Some(category))
    {
      assert all1[j] == all[j];
    }
    FindSameIsFirst(all1, labelText, Some(category), |all|);
    assert Upsert(t1, address, labelText, category, confidence, source, now).0 == Raised(t1, row, confidence, now);
  }

  /**
    * While the address has fewer than 100 labels, upserting the same label twice is the same as
    * upserting it once: the second call finds the row the first one kept or inserted.
    */
  lemma UpsertIdempotent(t: Tables, address: string, labelText: string, category: string, confidence: real,
                         source: string, now: Timestamp)
    requires |LabelsOf(t.labels, address)| < 100
    ensures var t1 := Upsert(t, address, labelText, category, confidence, source, now).0;
      Upsert(t1, address, labelText, category, confidence, source, now).0 == t1
  {
    var all := LabelsOf(t.labels, address);
    assert Window(t, address) == all;
    match FindSame(all, labelText, Some(category))
    case Some(k) =>
      RepeatAfterDuplicate(t, address, labelText, category, confidence, source, now, k);
    case None =>
      RepeatAfterInsert(t, address, labelText, category, confidence, source, now);
  }

  /**
    * The duplicate search only sees the first 100 labels: for an address with 100 or more labels
    * and no same-label row among the first 100, two identical upserts insert two rows.
    */
  lemma UpsertMissesBeyondWindow(t: Tables, address: string, labelText: string, category: string, confidence: real,
                                 source: string, now: Timestamp)
    requires |LabelsOf(t.labels, address)| >= 100
    requires forall j :: 0 <= j < 100 ==> !SameLabel(LabelsOf(t.labels, address)[j], labelText, Some(category))
    ensures var t1 := Upsert(t, address, labelText, category, confidence, source, now).0;
      var t2 := Upsert(t1, address, labelText, category, confidence, source, now).0;
      |t2.labels| == |t.labels| + 2
  {
    var all := LabelsOf(t.labels, address);
    var row := NewLabel(t, address, labelText, category, confidence, source, now);
    var t1 := Inserted(t, address, row, now);
    assert Window(t, address) == all[..100];
    assert Upsert(t, address, labelText, category, confidence, source, now).0 == t1;
    InsertedLabels(t, address, row, now);
    assert Window(t1, address) == all[..100] by {
      assert (all + [row])[..100] == all[..100];
    }
    var row2 := NewLabel(t1, address, labelText, category, confidence, source, now);
    assert Upsert(t1, address, labelText, category, confidence, source, now).0 == Inserted(t1, address, row2, now);
  }

  /** Some label row of `address` carries this text and category. */
  predicate HasLabel(labels: seq<LabelRow>, address: string, labelText: string, category: Option<string>) {
    exists i :: 0 <= i < |labels| && labels[i].address == address && SameLabel(labels[i], labelText, category)
  }

  /** After an upsert the address carries the label, whether it was found or inserted. */
  lemma UpsertEstablishes(t: Tables, address: string, labelText: string, category: string, confidence: real,
                          source: string, now: Timestamp)
    ensures HasLabel(Upsert(t, address, labelText, category, confidence, source, now).0.labels,
                     address, labelText, Some(category))
  {
    var existing := Window(t, address);
    match FindSame(existing, labelText, Some(category))
    case Some(k) =>
      var dup := existing[k];
      LabelsOfMembers(t.labels, address);
      assert dup in t.labels && dup.address == address;
      var i :| 0 <= i < |t.labels| && t.labels[i] == dup;
      var t' := Raised(t, dup, confidence, now);
      assert t'.labels[i].address == address && SameLabel(t'.labels[i], labelText, Some(category));
    case None =>
      var row := NewLabel(t, address, labelText, category, confidence, source, now);
      assert Inserted(t, address, row, now).labels[|t.labels|] == row;
  }

  /** An upsert never takes a label away. */
  lemma UpsertKeepsLabel(t: Tables, address: string, labelText: string, category: string, confidence: real,
                         source: string, now: Timestamp, b: string, text: string, cat: Option<string>)
    requires HasLabel(t.labels, b, text, cat)
    ensures HasLabel(Upsert(t, address, labelText, category, confidence, source, now).0.labels, b, text, cat)
  {
    var i :| 0 <= i < |t.labels| && t.labels[i].address == b && SameLabel(t.labels[i], text, cat);
    var t' := Upsert(t, address, labelText, category, confidence, source, now).0;
    assert t'.labels[i].address == b && SameLabel(t'.labels[i], text, cat);
  }

  /** One `upsertLabel` call a batch makes. */
  datatype LabelJob = LabelJob(address: string, labelText: string, category: string, confidence: real, source: string)

  function Apply(t: Tables, j: LabelJob, now: Timestamp): Tables {
    Upsert(t, j.address, j.labelText, j.category, j.confidence, j.source, now).0
  }

  /** One job leaves its label and adds at most one address row. */
  lemma ApplyLabels(t: Tables, j: LabelJob, now: Timestamp)
    ensures HasLabel(Apply(t, j, now).labels, j.address, j.labelText, Some(j.category))
    ensures |Apply(t, j, now).addresses| <= |t.addresses| + 1
  {
    UpsertEstablishes(t, j.address, j.labelText, j.category, j.confidence, j.source, now);
  }

  /**
    * Running `jobs` one after the other, the k-th store call succeeding when `storeUp(k)`, and
    * stopping at the first one that fails: the tables afterwards and how many calls succeeded.
    */
  function RunJobs(t: Tables, jobs: seq<LabelJob>, now: Timestamp, storeUp: nat -> bool): (r: (Tables, nat))
    ensures r.1 <= |jobs|
    ensures forall k :: 0 <= k < r.1 ==> storeUp(k)
    ensures r.1 < |jobs| ==> !storeUp(r.1)
    decreases |jobs|
  {
    if jobs == [] then (t, 0)
    else
      var (t', n) := RunJobs(t, jobs[..|jobs| - 1], now, storeUp);
      if n < |jobs| - 1 || !storeUp(n) then (t', n)
      else (Apply(t', jobs[n], now), n + 1)
  }

  /** Jobs after the first failed one change nothing. */
  lemma {:induction false} RunJobsStops(t: Tables, jobs: seq<LabelJob>, now: Timestamp, storeUp: nat -> bool, i: nat, m: nat)
    requires i <= m <= |jobs|
    requires RunJobs(t, jobs[..i], now, storeUp).1 < i
    ensures RunJobs(t, jobs[..m], now, storeUp) == RunJobs(t, jobs[..i], now, storeUp)
    decreases m
  {
    if m > i {
      RunJobsStops(t, jobs, now, storeUp, i, m - 1);
      assert jobs[..m][..m - 1] == jobs[..m - 1];
    }
  }

  /** Every batch keeps the tables well formed. */
  lemma {:induction false} RunJobsWellFormed(t: Tables, jobs: seq<LabelJob>, now: Timestamp, storeUp: nat -> bool)
    requires WellFormed(t)
    ensures WellFormed(RunJobs(t, jobs, now, storeUp).0)
    decreases |jobs|
  {
    if jobs != [] {
      var (t', n) := RunJobs(t, jobs[..|jobs| - 1], now, storeUp);
      RunJobsWellFormed(t, jobs[..|jobs| - 1], now, storeUp);
      if n == |jobs| - 1 && storeUp(n) {
        var j := jobs[n];
        UpsertWellFormed(t', j.address, j.labelText, j.category, j.confidence, j.source, now);
      }
    }
  }

  /** The labels of the first `n` jobs survive job `n`, which adds its own. */
  lemma LabelsStep(t: Tables, jobs: seq<LabelJob>, n: nat, now: Timestamp)
    requires n < |jobs|
    requires forall k :: 0 <= k < n ==> HasLabel(t.labels, jobs[k].address, jobs[k].labelText, Some(jobs[k].category))
    ensures var t' := Apply(t, jobs[n], now);
      forall k :: 0 <= k <= n ==> HasLabel(t'.labels, jobs[k].address, jobs[k].labelText, Some(jobs[k].category))
  {
    var j := jobs[n];
    ApplyLabels(t, j, now);
    forall k | 0 <= k < n
      ensures HasLabel(Apply(t, j, now).labels, jobs[k].address, jobs[k].labelText, Some(jobs[k].category))
    {
      UpsertKeepsLabel(t, j.address, j.labelText, j.category, j.confidence, j.source, now,
                       jobs[k].address, jobs[k].labelText, Some(jobs[k].category));
    }
  }

  /** Each job that ran leaves its label on its address, and later jobs keep it. */
  lemma {:induction false} RunJobsLabels(t: Tables, jobs: seq<LabelJob>, now: Timestamp, storeUp: nat -> bool)
    ensures var (t', n) := RunJobs(t, jobs, now, storeUp);
      forall k :: 0 <= k < n ==> HasLabel(t'.labels, jobs[k].address, jobs[k].labelText, Some(jobs[k].category))
    decreases |jobs|
  {
    if jobs != [] {
      var init := jobs[..|jobs| - 1];
      var r := RunJobs(t, init, now, storeUp);
      RunJobsLabels(t, init, now, storeUp);
      assert forall k :: 0 <= k < r.1 ==> jobs[k] == init[k];
      if r.1 == |jobs| - 1 && storeUp(r.1) {
        LabelsStep(r.0, jobs, r.1, now);
      }
    }
  }

  /** One more job: it runs when every earlier one succeeded and its own store call does. */
  lemma RunJobsSnoc(t: Tables, jobs: seq<LabelJob>, now: Timestamp, storeUp: nat -> bool, i: nat, s: Tables)
    requires i < |jobs| && RunJobs(t, jobs[..i], now, storeUp) == (s, i)
    ensures RunJobs(t, jobs[..i + 1], now, storeUp) == if storeUp(i) then (Apply(s, jobs[i], now), i + 1) else (s, i)
  {
    assert jobs[..i + 1][..i] == jobs[..i];
  }

  /** One `upsertLabel` call of a batch, whose store call succeeds when `up`. */
  method RunJob(db: Database, j: LabelJob, now: Timestamp, up: bool) returns (written: bool)
    modifies db
    ensures written == up
    ensures db.State() == if up then Apply(old(db.State()), j, now) else old(db.State())
  {
    var r := UpsertLabel(db, j.address, j.labelText, j.category, j.confidence, j.source, now, up);
    written := r.Success?;
  }

  /** The loop of the batch jobs: upsert each job in turn, stopping at the first store failure. */
  method ApplyJobs(db: Database, jobs: seq<LabelJob>, now: Timestamp, storeUp: nat -> bool) returns (n: nat)
    modifies db
    ensures (db.State(), n) == RunJobs(old(db.State()), jobs, now, storeUp)
  {
    ghost var t0 := db.State();
    var i := 0;
    assert jobs[..0] == [];
    while i < |jobs|
      invariant 0 <= i <= |jobs|
      invariant RunJobs(t0, jobs[..i], now, storeUp) == (db.State(), i)
    {
      RunJobsSnoc(t0, jobs, now, storeUp, i, db.State());
      var written := RunJob(db, jobs[i], now, storeUp(i));
      if !written {
        RunJobsStops(t0, jobs, now, storeUp, i + 1, |jobs|);
        assert jobs[..|jobs|] == jobs;
        return i;
      }
      i := i + 1;
    }
    assert jobs[..i] == jobs;
    n := i;
  }

  /** `val.description?.moniker || 'Unknown Validator'`, labelled `validator`, 0.95, `auto`. */
  function ValidatorJobs(vals: seq<Validator>): (jobs: seq<LabelJob>)
    ensures |jobs| == |vals|
    ensures forall k :: 0 <= k < |vals| ==>
      jobs[k].address == vals[k].operatorAddress
      && jobs[k].labelText == (if vals[k].moniker != "" then vals[k].moniker else "Unknown Validator")
  {
    seq(|vals|, k requires 0 <= k < |vals| =>
      LabelJob(vals[k].operatorAddress, if vals[k].moniker != "" then vals[k].moniker else "Unknown Validator",
               "validator", 0.95, "auto"))
  }

  /**
    * `autoLabelValidators`: label every bonded validator; a failed fetch, a body without a
    * validator list, or any failed store call (after the earlier ones were written) yields 0.
    */
  method AutoLabelValidators(db: Database, fetched: Result<Payload, FetchError>, now: Timestamp, storeUp: nat -> bool)
    returns (labeled: nat)
    modifies db
    ensures var jobs := ValidatorJobs(ValidatorsOf(fetched));
      var (t', n) := RunJobs(old(db.State()), jobs, now, storeUp);
      db.State() == t' && labeled == (if n == |jobs| then n else 0)
  {
    var jobs := ValidatorJobs(ValidatorsOf(fetched));
    var n := ApplyJobs(db, jobs, now, storeUp);
    labeled := if n == |jobs| then n else 0;
  }

  /** `fp.description?.moniker || 'Unknown FP'`, labelled `smart-money`, 0.95, `auto`. */
  function ProviderJobs(fps: seq<FinalityProvider>): (jobs: seq<LabelJob>)
    ensures |jobs| == |fps|
    ensures forall k :: 0 <= k < |fps| ==>
      jobs[k].address == fps[k].addr
      && jobs[k].labelText == (if fps[k].moniker != "" then fps[k].moniker else "Unknown FP")
  {
    seq(|fps|, k requires 0 <= k < |fps| =>
      LabelJob(fps[k].addr, if fps[k].moniker != "" then fps[k].moniker else "Unknown FP",
               "smart-money", 0.95, "auto"))
  }

  /**
    * `autoLabelFinalityProviders`: the provider list never fails to load (it is empty then);
    * any failed store call yields 0.
    */
  method AutoLabelFinalityProviders(db: Database, fetched: Result<Payload, FetchError>, now: Timestamp,
                                    storeUp: nat -> bool) returns (labeled: nat)
    modifies db
    ensures var jobs := ProviderJobs(ProvidersOf(fetched));
      var (t', n) := RunJobs(old(db.State()), jobs, now, storeUp);
      db.State() == t' && labeled == (if n == |jobs| then n else 0)
  {
    var jobs := ProviderJobs(ProvidersOf(fetched));
    var n := ApplyJobs(db, jobs, now, storeUp);
    labeled := if n == |jobs| then n else 0;
  }

  /** When every store call succeeds, a batch labels every entry and counts them all. */
  lemma BatchLabelsAll(t: Tables, jobs: seq<LabelJob>, now: Timestamp, storeUp: nat -> bool)
    requires forall k :: 0 <= k < |jobs| ==> storeUp(k)
    ensures var (t', n) := RunJobs(t, jobs, now, storeUp);
      n == |jobs| && forall k :: 0 <= k < |jobs| ==> HasLabel(t'.labels, jobs[k].address, jobs[k].labelText, Some(jobs[k].category))
  {
    RunJobsLabels(t, jobs, now, storeUp);
  }

  /** Micro-BBN per BBN. */
  const MicroPerBbn: int := 1000000

  /** `(v / 1_000_000).toFixed(0)`: the nearest whole BBN, halves rounded away from zero. */
  function WholeBbn(v: int): (m: int)
    ensures 2 * MicroPerBbn * m - MicroPerBbn <= 2 * v <= 2 * MicroPerBbn * m + MicroPerBbn
    ensures v >= 0 ==> 2 * v < 2 * MicroPerBbn * m + MicroPerBbn && m >= 0
    ensures v < 0 ==> 2 * MicroPerBbn * m - MicroPerBbn < 2 * v && m <= 0
  {
    if v >= 0 then RoundDiv(v, MicroPerBbn) else -RoundDiv(-v, MicroPerBbn)
  }

  /** `balances.find(b => b.denom === 'ubbn')?.amount`. */
  function UbbnAmount(coins: seq<Coin>): (r: Option<string>)
    ensures r.Some? <==> exists k :: 0 <= k < |coins| && coins[k].denom == "ubbn"
    ensures r.Some? ==>
      exists k :: 0 <= k < |coins| && coins[k].denom == "ubbn" && coins[k].amount == r.value
        && forall j :: 0 <= j < k ==> coins[j].denom != "ubbn"
    decreases |coins|
  {
    if coins == [] then None
    else if coins[0].denom == "ubbn" then Some(coins[0].amount)
    else
      var r := UbbnAmount(coins[1..]);
      assert forall k :: 1 <= k < |coins| ==> coins[k] == coins[1..][k - 1];
      if r.Some? then
        ghost var k :| 0 <= k < |coins[1..]| && coins[1..][k].denom == "ubbn" && coins[1..][k].amount == r.value
          && forall j :: 0 <= j < k ==> coins[1..][j].denom != "ubbn";
        assert coins[k + 1] == coins[1..][k];
        r
      else r
  }

  /** `bbnBalance?.amount || '0'`: the ubbn amount, or '0' when there is none or it is empty. */
  function BalanceRaw(coins: seq<Coin>): (r: string)
    ensures r != ""
    ensures UbbnAmount(coins).Some? && UbbnAmount(coins).value != "" ==> r == UbbnAmount(coins).value
  {
    var u := UbbnAmount(coins);
    if u.Some? && u.value != "" then u.value else "0"
  }

  /**
    * What `autoLabelWhales` writes for one address, given its balance lookup: a whale label when
    * the `ubbn` amount parses to at least `threshold` BBN, nothing otherwise (including a failed
    * lookup or a body without balances).
    */
  function WhaleLabel(balance: Result<Payload, FetchError>, threshold: int): (r: Option<string>)
    ensures r.Some? ==> balance.Success? && balance.value.BalanceData?
  {
    if balance.Success? && balance.value.BalanceData? then
      match UbbnAmount(balance.value.balances)
      case None => None
      case Some(amount) =>
        match ParseInt(amount)
        case Int(v) => if v >= threshold * MicroPerBbn then Some("Whale (" + ShowInt(WholeBbn(v)) + " BBN)") else None
        case NaN => None
    else None
  }

  /** A whale label is written exactly for a parsed balance of at least the threshold, and names it. */
  lemma WhaleLabelMeans(coins: seq<Coin>, threshold: int)
    ensures var r := WhaleLabel(Success(BalanceData(coins)), threshold);
      && (r.Some? <==> UbbnAmount(coins).Some? && ParseInt(UbbnAmount(coins).value).Int?
                       && ParseInt(UbbnAmount(coins).value).value >= threshold * MicroPerBbn)
      && (r.Some? ==> r.value == "Whale (" + ShowInt(WholeBbn(ParseInt(UbbnAmount(coins).value).value)) + " BBN)")
  {
  }

  /**
    * The upserts `autoLabelWhales` makes, given what each address's balance makes of it
    * (`labelOf`): one per address that gets a label, with its position.
    */
  function WhaleJobs(addrs: seq<string>, labelOf: string -> Option<string>): (jobs: seq<(nat, LabelJob)>)
    ensures |jobs| <= |addrs|
    decreases |addrs|
  {
    if addrs == [] then []
    else
      var last := |addrs| - 1;
      var w := labelOf(addrs[last]);
      WhaleJobs(addrs[..last], labelOf)
        + (if w.Some? then [(last, LabelJob(addrs[last], w.value, "whale", 0.85, "heuristic"))] else [])
  }

  /** The whale upserts are exactly the addresses that get a label, each with that label. */
  lemma {:induction false} WhaleJobsMembers(addrs: seq<string>, labelOf: string -> Option<string>)
    ensures forall e :: e in WhaleJobs(addrs, labelOf) ==>
      e.0 < |addrs| && labelOf(addrs[e.0]).Some?
      && e.1 == LabelJob(addrs[e.0], labelOf(addrs[e.0]).value, "whale", 0.85, "heuristic")
    ensures forall k :: 0 <= k < |addrs| && labelOf(addrs[k]).Some? ==>
      (k, LabelJob(addrs[k], labelOf(addrs[k]).value, "whale", 0.85, "heuristic")) in WhaleJobs(addrs, labelOf)
    decreases |addrs|
  {
    if addrs != [] {
      var last := |addrs| - 1;
      var init := addrs[..last];
      WhaleJobsMembers(init, labelOf);
      assert forall k :: 0 <= k < last ==> init[k] == addrs[k];
    }
  }

  /**
    * The whale loop: each qualifying upsert whose store call (numbered by the address's position)
    * succeeds is written and counted; a failing one is skipped and the loop goes on.
    */
  function RunWhales(t: Tables, jobs: seq<(nat, LabelJob)>, now: Timestamp, storeUp: nat -> bool): (r: (Tables, nat))
    ensures r.1 <= |jobs|
    decreases |jobs|
  {
    if jobs == [] then (t, 0)
    else WhaleUpsert(RunWhales(t, jobs[..|jobs| - 1], now, storeUp), jobs[|jobs| - 1], now, storeUp)
  }

  /** One upsert of the whale loop after `prev`: written and counted when its store call succeeds. */
  function WhaleUpsert(prev: (Tables, nat), e: (nat, LabelJob), now: Timestamp, storeUp: nat -> bool): (Tables, nat) {
    if storeUp(e.0) then (Apply(prev.0, e.1, now), prev.1 + 1) else prev
  }

  /** The count is the number of qualifying addresses whose store call succeeded, and each carries its label. */
  lemma {:induction false} RunWhalesLabels(t: Tables, jobs: seq<(nat, LabelJob)>, now: Timestamp, storeUp: nat -> bool)
    ensures var (t', n) := RunWhales(t, jobs, now, storeUp);
      && n == CountWhere(jobs, (e: (nat, LabelJob)) => storeUp(e.0))
      && forall e :: e in jobs && storeUp(e.0) ==> HasLabel(t'.labels, e.1.address, e.1.labelText, Some(e.1.category))
    decreases |jobs|
  {
    if jobs != [] {
      var init := jobs[..|jobs| - 1];
      var (t', n) := RunWhales(t, init, now, storeUp);
      var (k, j) := jobs[|jobs| - 1];
      var p := (e: (nat, LabelJob)) => storeUp(e.0);
      RunWhalesLabels(t, init, now, storeUp);
      assert jobs == init + [jobs[|jobs| - 1]];
      CountWhereAppend(init, [jobs[|jobs| - 1]], p);
      assert CountWhere([jobs[|jobs| - 1]], p) == if storeUp(k) then 1 else 0;
      if storeUp(k) {
        forall e | e in init && storeUp(e.0)
          ensures HasLabel(Apply(t', j, now).labels, e.1.address, e.1.labelText, Some(e.1.category))
        {
          UpsertKeepsLabel(t', j.address, j.labelText, j.category, j.confidence, j.source, now,
                           e.1.address, e.1.labelText, Some(e.1.category));
        }
        UpsertEstablishes(t', j.address, j.labelText, j.category, j.confidence, j.source, now);
      }
    }
  }

  lemma {:induction false} RunWhalesWellFormed(t: Tables, jobs: seq<(nat, LabelJob)>, now: Timestamp, storeUp: nat -> bool)
    requires WellFormed(t)
    ensures WellFormed(RunWhales(t, jobs, now, storeUp).0)
    decreases |jobs|
  {
    if jobs != [] {
      var (t', n) := RunWhales(t, jobs[..|jobs| - 1], now, storeUp);
      RunWhalesWellFormed(t, jobs[..|jobs| - 1], now, storeUp);
      var (k, j) := jobs[|jobs| - 1];
      if storeUp(k) {
        UpsertWellFormed(t', j.address, j.labelText, j.category, j.confidence, j.source, now);
      }
    }
  }

  function AddressesOf(rows: seq<AddressRow>): (r: seq<string>)
    ensures |r| == |rows| && forall k :: 0 <= k < |rows| ==> r[k] == rows[k].address
  {
    seq(|rows|, k requires 0 <= k < |rows| => rows[k].address)
  }

  /** One more address adds its upsert, if it gets a label, at the end of the list. */
  lemma WhaleJobsSnoc(addrs: seq<string>, labelOf: string -> Option<string>, i: nat)
    requires i < |addrs|
    ensures labelOf(addrs[i]).None? ==> WhaleJobs(addrs[..i + 1], labelOf) == WhaleJobs(addrs[..i], labelOf)
    ensures labelOf(addrs[i]).Some? ==>
      WhaleJobs(addrs[..i + 1], labelOf) == WhaleJobs(addrs[..i], labelOf) + [(i, LabelJob(addrs[i], labelOf(addrs[i]).value, "whale", 0.85, "heuristic"))]
  {
    assert addrs[..i + 1][..i] == addrs[..i];
  }

  /** One more upsert in the whale loop: written and counted when its store call succeeds. */
  lemma RunWhalesSnoc(t: Tables, jobs: seq<(nat, LabelJob)>, e: (nat, LabelJob), now: Timestamp, storeUp: nat -> bool)
    ensures var r := RunWhales(t, jobs, now, storeUp);
      RunWhales(t, jobs + [e], now, storeUp) == if storeUp(e.0) then (Apply(r.0, e.1, now), r.1 + 1) else r
  {
    var js := jobs + [e];
    assert js[..|js| - 1] == jobs;
    assert RunWhales(t, js, now, storeUp) == WhaleUpsert(RunWhales(t, jobs, now, storeUp), e, now, storeUp);
  }

  /** One more address of the whale loop: upserted and counted when it qualifies and its store call succeeds. */
  lemma WhaleStep(t: Tables, addrs: seq<string>, labelOf: string -> Option<string>, i: nat, now: Timestamp,
                  storeUp: nat -> bool)
    requires i < |addrs|
    ensures var before := RunWhales(t, WhaleJobs(addrs[..i], labelOf), now, storeUp);
      RunWhales(t, WhaleJobs(addrs[..i + 1], labelOf), now, storeUp)
      == if labelOf(addrs[i]).Some? && storeUp(i)
         then (Apply(before.0, LabelJob(addrs[i], labelOf(addrs[i]).value, "whale", 0.85, "heuristic"), now), before.1 + 1)
         else before
  {
    WhaleJobsSnoc(addrs, labelOf, i);
    var w := labelOf(addrs[i]);
    if w.Some? {
      var e: (nat, LabelJob) := (i, LabelJob(addrs[i], w.value, "whale", 0.85, "heuristic"));
      RunWhalesSnoc(t, WhaleJobs(addrs[..i], labelOf), e, now, storeUp);
    }
  }

  /**
    * The loop of `autoLabelWhales` over `addrs`: each address that gets a label is upserted, and
    * counted when its store call succeeds; failures are skipped.
    */
  method LabelWhales(db: Database, addrs: seq<string>, labelOf: string -> Option<string>, now: Timestamp,
                     storeUp: nat -> bool) returns (labeled: nat)
    modifies db
    ensures (db.State(), labeled) == RunWhales(old(db.State()), WhaleJobs(addrs, labelOf), now, storeUp)
  {
    ghost var t0 := db.State();
    labeled := 0;
    var i := 0;
    while i < |addrs|
      invariant 0 <= i <= |addrs|
      invariant (db.State(), labeled) == RunWhales(t0, WhaleJobs(addrs[..i], labelOf), now, storeUp)
    {
      var w := labelOf(addrs[i]);
      WhaleStep(t0, addrs, labelOf, i, now, storeUp);
      if w.Some? {
        var written := RunJob(db, LabelJob(addrs[i], w.value, "whale", 0.85, "heuristic"), now, storeUp(i));
        if written {
          labeled := labeled + 1;
        }
      }
      i := i + 1;
    }
    assert addrs[..i] == addrs;
  }

  /**
    * `autoLabelWhales(threshold)`: over the addresses read at the start (none when that read
    * fails, giving 0), label each whose balance qualifies, skipping lookups and store calls that
    * fail.
    */
  method AutoLabelWhales(db: Database, listUp: bool, balanceOf: string -> Result<Payload, FetchError>, threshold: int,
                         now: Timestamp, storeUp: nat -> bool) returns (labeled: nat)
    modifies db
    ensures !listUp ==> labeled == 0 && db.State() == old(db.State())
    ensures listUp ==>
      (db.State(), labeled) == RunWhales(old(db.State()),
        WhaleJobs(AddressesOf(old(db.addresses)), WhaleLabels(balanceOf, threshold)), now, storeUp)
  {
    if !listUp {
      return 0;
    }
    labeled := LabelWhales(db, AddressesOf(db.addresses), WhaleLabels(balanceOf, threshold), now, storeUp);
  }

  /**
    * The labels `autoLabelOnAnalysis` applies, in order: `Validator`, `Finality Provider`,
    * `Whale`, each when its flag is set, all with source `heuristic`.
    */
  function AnalysisJobs(address: string, isValidator: bool, isFinalityProvider: bool, isWhale: bool): (jobs: seq<LabelJob>)
    ensures |jobs| == (if isValidator then 1 else 0) + (if isFinalityProvider then 1 else 0) + (if isWhale then 1 else 0)
    ensures forall j :: j in jobs ==> j.address == address && j.source == "heuristic"
    ensures LabelJob(address, "Validator", "validator", 0.95, "heuristic") in jobs <==> isValidator
    ensures LabelJob(address, "Finality Provider", "smart-money", 0.95, "heuristic") in jobs <==> isFinalityProvider
    ensures LabelJob(address, "Whale", "whale", 0.85, "heuristic") in jobs <==> isWhale
  {
    (if isValidator then [LabelJob(address, "Validator", "validator", 0.95, "heuristic")] else [])
    + (if isFinalityProvider then [LabelJob(address, "Finality Provider", "smart-money", 0.95, "heuristic")] else [])
    + (if isWhale then [LabelJob(address, "Whale", "whale", 0.85, "heuristic")] else [])
  }

  /**
    * `autoLabelOnAnalysis`: apply the labels in order and return how many there were; a store
    * failure propagates (the labels before it stay written).
    */
  method AutoLabelOnAnalysis(db: Database, address: string, isValidator: bool, isFinalityProvider: bool, isWhale: bool,
                             now: Timestamp, storeUp: nat -> bool) returns (r: Result<nat, StoreError>)
    modifies db
    ensures var jobs := AnalysisJobs(address, isValidator, isFinalityProvider, isWhale);
      var run := RunJobs(old(db.State()), jobs, now, storeUp);
      && db.State() == run.0
      && (run.1 == |jobs| ==> r == Success(|jobs|))
      && (run.1 < |jobs| ==> r == Failure(StoreUnavailable))
  {
    ghost var t0 := db.State();
    var jobs := AnalysisJobs(address, isValidator, isFinalityProvider, isWhale);
    var n := ApplyJobs(db, jobs, now, storeUp);
    ghost var run := RunJobs(t0, jobs, now, storeUp);
    assert db.State() == run.0 && n == run.1;
    r := if n < |jobs| then Failure(StoreUnavailable) else Success(|jobs|);
  }

  datatype AutoLabelCounts = AutoLabelCounts(validators: nat, fps: nat, whales: nat)

  /** What `autoLabelWhales(threshold)` makes of an address: the label its balance earns, if any. */
  function WhaleLabels(balanceOf: string -> Result<Payload, FetchError>, threshold: int): string -> Option<string> {
    a => WhaleLabel(balanceOf(a), threshold)
  }

  /**
    * `runAutoLabeling` on the tables: the validator batch, then the provider batch, then the
    * whale loop over `addrs`, the address list the whale job read before either batch wrote.
    * A batch counts all its entries or, when a store call failed, 0.
    */
  function AutoLabelRun(t: Tables, vals: seq<Validator>, fps: seq<FinalityProvider>, addrs: seq<string>,
                        labelOf: string -> Option<string>, now: Timestamp,
                        validatorsStoreUp: nat -> bool, providersStoreUp: nat -> bool, whalesStoreUp: nat -> bool)
    : (r: (Tables, AutoLabelCounts))
    ensures r.1.validators == 0 || r.1.validators == |vals|
    ensures r.1.fps == 0 || r.1.fps == |fps|
    ensures r.1.whales <= |addrs|
  {
    var v := RunJobs(t, ValidatorJobs(vals), now, validatorsStoreUp);
    var f := RunJobs(v.0, ProviderJobs(fps), now, providersStoreUp);
    var w := RunWhales(f.0, WhaleJobs(addrs, labelOf), now, whalesStoreUp);
    (w.0, AutoLabelCounts(if v.1 == |vals| then v.1 else 0, if f.1 == |fps| then f.1 else 0, w.1))
  }

  /**
    * `runAutoLabeling`: the three jobs, each of which turns its own failures into 0, so the run
    * itself never fails. The whale job reads the address table first (nothing when that read
    * fails); the batches' writes and the whale loop's then follow one after the other.
    */
  method RunAutoLabeling(db: Database, validatorsFetched: Result<Payload, FetchError>,
                         providersFetched: Result<Payload, FetchError>, listUp: bool,
                         balanceOf: string -> Result<Payload, FetchError>, now: Timestamp,
                         validatorsStoreUp: nat -> bool, providersStoreUp: nat -> bool, whalesStoreUp: nat -> bool)
    returns (counts: AutoLabelCounts)
    requires db.Valid()
    modifies db
    ensures db.Valid()
    ensures (db.State(), counts) ==
      AutoLabelRun(old(db.State()), ValidatorsOf(validatorsFetched), ProvidersOf(providersFetched),
                   if listUp then AddressesOf(old(db.addresses)) else [], WhaleLabels(balanceOf, WhaleThreshold),
                   now, validatorsStoreUp, providersStoreUp, whalesStoreUp)
    ensures counts.whales <= |old(db.addresses)|
  {
    ghost var t0 := db.State();
    var addrs := if listUp then AddressesOf(db.addresses) else [];
    var v := AutoLabelValidators(db, validatorsFetched, now, validatorsStoreUp);
    var f := AutoLabelFinalityProviders(db, providersFetched, now, providersStoreUp);
    var w := LabelWhales(db, addrs, WhaleLabels(balanceOf, WhaleThreshold), now, whalesStoreUp);
    counts := AutoLabelCounts(v, f, w);
    AutoLabelRunWellFormed(t0, ValidatorsOf(validatorsFetched), ProvidersOf(providersFetched), addrs,
                           WhaleLabels(balanceOf, WhaleThreshold), now, validatorsStoreUp, providersStoreUp, whalesStoreUp);
  }

  /** The whole run keeps the tables well formed. */
  lemma AutoLabelRunWellFormed(t: Tables, vals: seq<Validator>, fps: seq<FinalityProvider>, addrs: seq<string>,
                               labelOf: string -> Option<string>, now: Timestamp,
                               validatorsStoreUp: nat -> bool, providersStoreUp: nat -> bool, whalesStoreUp: nat -> bool)
    requires WellFormed(t)
    ensures WellFormed(AutoLabelRun(t, vals, fps, addrs, labelOf, now, validatorsStoreUp, providersStoreUp, whalesStoreUp).0)
  {
    var v := RunJobs(t, ValidatorJobs(vals), now, validatorsStoreUp);
    var f := RunJobs(v.0, ProviderJobs(fps), now, providersStoreUp);
    RunJobsWellFormed(t, ValidatorJobs(vals), now, validatorsStoreUp);
    RunJobsWellFormed(v.0, ProviderJobs(fps), now, providersStoreUp);
    RunWhalesWellFormed(f.0, WhaleJobs(addrs, labelOf), now, whalesStoreUp);
  }

  /** A batch never takes a label away. */
  lemma {:induction false} RunJobsKeepsLabel(t: Tables, jobs: seq<LabelJob>, now: Timestamp, storeUp: nat -> bool,
                                             b: string, text: string, cat: Option<string>)
    requires HasLabel(t.labels, b, text, cat)
    ensures HasLabel(RunJobs(t, jobs, now, storeUp).0.labels, b, text, cat)
    decreases |jobs|
  {
    if jobs != [] {
      var r := RunJobs(t, jobs[..|jobs| - 1], now, storeUp);
      RunJobsKeepsLabel(t, jobs[..|jobs| - 1], now, storeUp, b, text, cat);
      if r.1 == |jobs| - 1 && storeUp(r.1) {
        var j := jobs[r.1];
        UpsertKeepsLabel(r.0, j.address, j.labelText, j.category, j.confidence, j.source, now, b, text, cat);
      }
    }
  }

  /** The whale loop never takes a label away. */
  lemma {:induction false} RunWhalesKeepsLabel(t: Tables, jobs: seq<(nat, LabelJob)>, now: Timestamp, storeUp: nat -> bool,
                                               b: string, text: string, cat: Option<string>)
    requires HasLabel(t.labels, b, text, cat)
    ensures HasLabel(RunWhales(t, jobs, now, storeUp).0.labels, b, text, cat)
    decreases |jobs|
  {
    if jobs != [] {
      var r := RunWhales(t, jobs[..|jobs| - 1], now, storeUp);
      RunWhalesKeepsLabel(t, jobs[..|jobs| - 1], now, storeUp, b, text, cat);
      var j := jobs[|jobs| - 1].1;
      if storeUp(jobs[|jobs| - 1].0) {
        UpsertKeepsLabel(r.0, j.address, j.labelText, j.category, j.confidence, j.source, now, b, text, cat);
      }
    }
  }

  /**
    * When every store call succeeds, the run labels every validator (`validator`), every
    * finality provider (`smart-money`) and every listed address whose balance qualifies
    * (`whale`), each label surviving the jobs after it, and the two batches count all entries.
    */
  lemma AutoLabelRunLabelsAll(t: Tables, vals: seq<Validator>, fps: seq<FinalityProvider>, addrs: seq<string>,
                              labelOf: string -> Option<string>, now: Timestamp,
                              validatorsStoreUp: nat -> bool, providersStoreUp: nat -> bool, whalesStoreUp: nat -> bool)
    requires forall k: nat :: validatorsStoreUp(k) && providersStoreUp(k) && whalesStoreUp(k)
    ensures var r := AutoLabelRun(t, vals, fps, addrs, labelOf, now, validatorsStoreUp, providersStoreUp, whalesStoreUp);
      && r.1.validators == |vals| && r.1.fps == |fps|
      && (forall k :: 0 <= k < |vals| ==> HasLabel(r.0.labels, vals[k].operatorAddress, ValidatorJobs(vals)[k].labelText, Some("validator")))
      && (forall k :: 0 <= k < |fps| ==> HasLabel(r.0.labels, fps[k].addr, ProviderJobs(fps)[k].labelText, Some("smart-money")))
      && (forall k :: 0 <= k < |addrs| && labelOf(addrs[k]).Some? ==>
            HasLabel(r.0.labels, addrs[k], labelOf(addrs[k]).value, Some("whale")))
  {
    var vj := ValidatorJobs(vals);
    var pj := ProviderJobs(fps);
    var wj := WhaleJobs(addrs, labelOf);
    var v := RunJobs(t, vj, now, validatorsStoreUp);
    var f := RunJobs(v.0, pj, now, providersStoreUp);
    var w := RunWhales(f.0, wj, now, whalesStoreUp);
    BatchLabelsAll(t, vj, now, validatorsStoreUp);
    BatchLabelsAll(v.0, pj, now, providersStoreUp);
    RunWhalesLabels(f.0, wj, now, whalesStoreUp);
    WhaleJobsMembers(addrs, labelOf);
    forall k | 0 <= k < |vals|
      ensures HasLabel(w.0.labels, vals[k].operatorAddress, vj[k].labelText, Some("validator"))
    {
      RunJobsKeepsLabel(v.0, pj, now, providersStoreUp, vj[k].address, vj[k].labelText, Some("validator"));
      RunWhalesKeepsLabel(f.0, wj, now, whalesStoreUp, vj[k].address, vj[k].labelText, Some("validator"));
    }
    forall k | 0 <= k < |fps|
      ensures HasLabel(w.0.labels, fps[k].addr, pj[k].labelText, Some("smart-money"))
    {
      RunWhalesKeepsLabel(f.0, wj, now, whalesStoreUp, pj[k].address, pj[k].labelText, Some("smart-money"));
    }
  }

  /** `autoLabelWhales()`'s default threshold, in BBN. */
  const WhaleThreshold: int := 1000000

  /** A batch adds at most one address row per job. */
  lemma {:induction false} RunJobsAddresses(t: Tables, jobs: seq<LabelJob>, now: Timestamp, storeUp: nat -> bool)
    ensures |RunJobs(t, jobs, now, storeUp).0.addresses| <= |t.addresses| + |jobs|
    decreases |jobs|
  {
    if jobs != [] {
      var r := RunJobs(t, jobs[..|jobs| - 1], now, storeUp);
      RunJobsAddresses(t, jobs[..|jobs| - 1], now, storeUp);
      if r.1 == |jobs| - 1 && storeUp(r.1) {
        ApplyLabels(r.0, jobs[r.1], now);
      }
    }
  }
}

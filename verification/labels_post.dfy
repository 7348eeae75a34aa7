/**
  * `POST /api/labels`: attach a manual label to an address. The address row is created on first
  * use; a label whose text the address already carries (among its first 100 labels) is returned
  * instead of inserted.
  */
module LabelsPost {
  import opened Wrappers
  import opened Seqs
  import opened NodeApi
  import opened Store
  import opened Http

  /**
    * A JSON field whose absence and explicit `null` the handler tells apart: a destructuring
    * default replaces only an absent (`undefined`) field.
    */
  datatype Field<T> = Absent | Null | Present(value: T)

  /**
    * The JSON body. `address`, `label` and `category` are only ever checked for truthiness, so
    * an absent and a `null` field are both `None` there.
    */
  datatype LabelBody = LabelBody(
    address: Option<string>,
    labelText: Option<string>,
    category: Option<string>,
    confidence: Field<real>,
    source: Field<string>)

  /** `const { x = d } = body`: `d` for an absent field, NULL for `null`, else the value. */
  function WithDefault<T>(f: Field<T>, d: T): (r: Option<T>)
    ensures f.Absent? ==> r == Some(d)
    ensures f.Null? ==> r == None
    ensures f.Present? ==> r == Some(f.value)
  {
    match f
    case Absent => Some(d)
    case Null => None
    case Present(v) => Some(v)
  }

  /** The source stored: `manual` when the field is absent. */
  function SourceOf(body: LabelBody): Option<string> {
    WithDefault(body.source, "manual")
  }

  /** The confidence stored: 1.0 when the field is absent. */
  function ConfidenceOf(body: LabelBody): Option<real> {
    WithDefault(body.confidence, 1.0)
  }

  /** The two successful answers: the inserted row, or the row that already had the text. */
  datatype PostReply = Created(row: LabelRow) | AlreadyExists(row: LabelRow)

  const MissingFields: HttpError := HttpError(400, "Address and label are required")
  const StoreFailed: HttpError := HttpError(500, "Failed to add label")

  /** `existingLabel.find(l => l.label === label)`: the first row with this text. */
  function FindText(rows: seq<LabelRow>, labelText: string): (k: Option<nat>)
    ensures k.Some? ==> k.value < |rows| && rows[k.value].labelText == labelText
    ensures k.Some? ==> forall j :: 0 <= j < k.value ==> rows[j].labelText != labelText
    ensures k.None? ==> forall j :: 0 <= j < |rows| ==> rows[j].labelText != labelText
    decreases |rows|
  {
    if rows == [] then None
    else if rows[0].labelText == labelText then Some(0)
    else
      match FindText(rows[1..], labelText)
      case None => None
      case Some(k) => Some(k + 1)
  }

  /** The address row created on first use, carrying the label, its source and confidence. */
  function EnsureAddress(t: Tables, address: string, labelText: string, source: Option<string>, confidence: Option<real>,
                         now: Timestamp): Tables
  {
    if HasAddress(t.addresses, address) then t
    else t.(addresses := t.addresses + [AddressRow(address, Some(labelText), source, confidence, now.iso, now.iso, 0)])
  }

  /** `category || 'custom'`. */
  function CategoryOrCustom(category: Option<string>): string {
    if Given(category) then category.value else "custom"
  }

  /** The row inserted for a body whose address and label are given. */
  function PostedRow(t: Tables, body: LabelBody, now: Timestamp): LabelRow
    requires Given(body.address) && Given(body.labelText)
  {
    LabelRow(t.nextLabelId, body.address.value, body.labelText.value, Some(CategoryOrCustom(body.category)),
             ConfidenceOf(body), SourceOf(body), now, None)
  }

  /**
    * The handler with a working store: the tables afterwards and the answer. Missing fields are
    * rejected before the store is touched; otherwise the address row is ensured, then the label
    * is found among the first 100 of the address or inserted.
    */
  function PostLabel(t: Tables, body: LabelBody, now: Timestamp): (Tables, Result<PostReply, HttpError>)
  {
    if !Given(body.address) || !Given(body.labelText) then (t, Failure(MissingFields))
    else
      var address := body.address.value;
      var t1 := EnsureAddress(t, address, body.labelText.value, SourceOf(body), ConfidenceOf(body), now);
      var existing := SliceTo(LabelsOf(t1.labels, address), 100);
      match FindText(existing, body.labelText.value)
      case Some(k) => (t1, Success(AlreadyExists(existing[k])))
      case None =>
        var row := PostedRow(t1, body, now);
        (t1.(labels := t1.labels + [row], nextLabelId := t1.nextLabelId + 1), Success(Created(row)))
  }

  /**
    * The handler; `up` says whether the store works. A store failure (after the field check)
    * answers 500 and writes nothing.
    */
  method LabelsPost(db: Database, body: LabelBody, now: Timestamp, up: bool) returns (r: Result<PostReply, HttpError>)
    modifies db
    ensures !up && Given(body.address) && Given(body.labelText) ==>
      r == Failure(StoreFailed) && db.State() == old(db.State())
    ensures up || !Given(body.address) || !Given(body.labelText) ==>
      (db.State(), r) == PostLabel(old(db.State()), body, now)
  {
    if !Given(body.address) || !Given(body.labelText) {
      return Failure(MissingFields);
    }
    if !up {
      return Failure(StoreFailed);
    }
    var address := body.address.value;
    var labelText := body.labelText.value;
    var confidence := WithDefault(body.confidence, 1.0);
    var source := WithDefault(body.source, "manual");
    if !HasAddress(db.addresses, address) {
      db.addresses := db.addresses + [AddressRow(address, Some(labelText), source, confidence, now.iso, now.iso, 0)];
    }
    var existing := SliceTo(LabelsOf(db.labels, address), 100);
    var found := FindText(existing, labelText);
    if found.Some? {
      return Success(AlreadyExists(existing[found.value]));
    }
    var row := LabelRow(db.nextLabelId, address, labelText, Some(CategoryOrCustom(body.category)),
                        confidence, source, now, None);
    db.labels := db.labels + [row];
    db.nextLabelId := db.nextLabelId + 1;
    return Success(Created(row));
  }

  /** A body is rejected with 400 exactly when its address or label is missing or empty, and then nothing changes. */
  lemma PostRejects(t: Tables, body: LabelBody, now: Timestamp)
    ensures var (t', r) := PostLabel(t, body, now);
      && (r == Failure(MissingFields) <==> !Given(body.address) || !Given(body.labelText))
      && (r.Failure? ==> t' == t)
  {
  }

  /** Creating the address row keeps the tables well formed. */
  lemma EnsureAddressWellFormed(t: Tables, address: string, labelText: string, source: Option<string>, confidence: Option<real>,
                                now: Timestamp)
    requires WellFormed(t)
    ensures var t1 := EnsureAddress(t, address, labelText, source, confidence, now);
      WellFormed(t1) && HasAddress(t1.addresses, address) && t1.labels == t.labels && t1.nextLabelId == t.nextLabelId
  {
    var t1 := EnsureAddress(t, address, labelText, source, confidence, now);
    if !HasAddress(t.addresses, address) {
      assert t1.addresses[|t.addresses|].address == address;
      forall i | 0 <= i < |t1.labels|
        ensures HasAddress(t1.addresses, t1.labels[i].address)
      {
        var j :| 0 <= j < |t.addresses| && t.addresses[j].address == t.labels[i].address;
        assert t1.addresses[j] == t.addresses[j];
      }
    }
  }

  /** The handler keeps the tables well formed. */
  lemma PostWellFormed(t: Tables, body: LabelBody, now: Timestamp)
    requires WellFormed(t)
    ensures WellFormed(PostLabel(t, body, now).0)
  {
    if Given(body.address) && Given(body.labelText) {
      var address := body.address.value;
      var t1 := EnsureAddress(t, address, body.labelText.value, SourceOf(body), ConfidenceOf(body), now);
      EnsureAddressWellFormed(t, address, body.labelText.value, SourceOf(body),
                              ConfidenceOf(body), now);
      if FindText(SliceTo(LabelsOf(t1.labels, address), 100), body.labelText.value).None? {
        AppendLabelWellFormed(t1, PostedRow(t1, body, now));
      }
    }
  }

  /**
    * A label text the address already carries among its first 100 labels is answered with that
    * row, whatever its category; no label is inserted.
    */
  lemma PostFindsText(t: Tables, body: LabelBody, now: Timestamp, k: nat)
    requires Given(body.address) && Given(body.labelText)
    requires var existing := SliceTo(LabelsOf(t.labels, body.address.value), 100);
      && k < |existing| && existing[k].labelText == body.labelText.value
      && forall j :: 0 <= j < k ==> existing[j].labelText != body.labelText.value
    ensures var (t', r) := PostLabel(t, body, now);
      && r == Success(AlreadyExists(SliceTo(LabelsOf(t.labels, body.address.value), 100)[k]))
      && t'.labels == t.labels && t'.nextLabelId == t.nextLabelId
  {
    var existing := SliceTo(LabelsOf(t.labels, body.address.value), 100);
    var found := FindText(existing, body.labelText.value);
    if found.Some? && found.value < k {
    } else if found.Some? && found.value > k {
    }
  }

  /**
    * Otherwise exactly one row is appended: the given address and label, the category or
    * `custom`, the confidence or 1.0, the source or `manual`, and the next id.
    */
  lemma PostInserts(t: Tables, body: LabelBody, now: Timestamp)
    requires Given(body.address) && Given(body.labelText)
    requires var existing := SliceTo(LabelsOf(t.labels, body.address.value), 100);
      forall j :: 0 <= j < |existing| ==> existing[j].labelText != body.labelText.value
    ensures var (t', r) := PostLabel(t, body, now);
      && r.Success? && r.value.Created?
      && r.value.row == LabelRow(t.nextLabelId, body.address.value, body.labelText.value,
                                 Some(if Given(body.category) then body.category.value else "custom"),
                                 ConfidenceOf(body), SourceOf(body), now, None)
      && t'.labels == t.labels + [r.value.row]
  {
    var address := body.address.value;
    var t1 := EnsureAddress(t, address, body.labelText.value, SourceOf(body), ConfidenceOf(body), now);
    assert t1.labels == t.labels && t1.nextLabelId == t.nextLabelId;
    assert FindText(SliceTo(LabelsOf(t1.labels, address), 100), body.labelText.value) == None;
  }

  /**
    * While the address has fewer than 100 labels, posting the same body twice inserts once: the
    * second post answers with the row the first one created or found, and changes nothing.
    */
  lemma PostTwice(t: Tables, body: LabelBody, now: Timestamp, later: Timestamp)
    requires Given(body.address) && Given(body.labelText)
    requires |LabelsOf(t.labels, body.address.value)| < 100
    ensures var (t1, r1) := PostLabel(t, body, now);
      var (t2, r2) := PostLabel(t1, body, later);
      && t2 == t1 && r1.Success? && r2 == Success(AlreadyExists(r1.value.row))
  {
    var address := body.address.value;
    var labelText := body.labelText.value;
    var t0 := EnsureAddress(t, address, labelText, SourceOf(body), ConfidenceOf(body), now);
    var all := LabelsOf(t0.labels, address);
    assert SliceTo(all, 100) == all;
    var (t1, r1) := PostLabel(t, body, now);
    EnsureAddressHas(t, address, labelText, SourceOf(body), ConfidenceOf(body), now);
    match FindText(all, labelText)
    case Some(k) =>
      assert t1 == t0;
      assert EnsureAddress(t1, address, labelText, SourceOf(body), ConfidenceOf(body), later) == t1;
    case None =>
      var row := PostedRow(t0, body, now);
      assert t1.labels == t0.labels + [row];
      LabelsOfAppend(t0.labels, row, address);
      var all1 := all + [row];
      assert t1.addresses == t0.addresses;
      assert EnsureAddress(t1, address, labelText, SourceOf(body), ConfidenceOf(body), later) == t1;
      assert SliceTo(all1, 100) == all1;
      assert FindText(all1, labelText) == Some(|all|) by {
        assert all1[|all|] == row;
        assert forall j :: 0 <= j < |all| ==> all1[j] == all[j];
      }
  }

  lemma EnsureAddressHas(t: Tables, address: string, labelText: string, source: Option<string>, confidence: Option<real>, now: Timestamp)
    ensures HasAddress(EnsureAddress(t, address, labelText, source, confidence, now).addresses, address)
  {
    if !HasAddress(t.addresses, address) {
      var t1 := EnsureAddress(t, address, labelText, source, confidence, now);
      assert t1.addresses[|t.addresses|].address == address;
    }
  }
}

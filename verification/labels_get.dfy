/**
  * `GET /api/labels`: the newest labels (up to `?limit=`, default 50, at most 100), optionally
  * narrowed to one `?category=`, and the list of categories in use.
  */
module LabelsGet {
  import opened Wrappers
  import opened Numeric
  import opened Seqs
  import opened NodeApi
  import opened Store
  import opened Query
  import opened Http

  /** The columns the handler selects. */
  datatype LabelView = LabelView(
    id: nat,
    address: string,
    labelText: string,
    category: Option<string>,
    confidence: Option<real>,
    source: Option<string>,
    createdAt: Timestamp)

  function View(l: LabelRow): LabelView {
    LabelView(l.id, l.address, l.labelText, l.category, l.confidence, l.source, l.createdAt)
  }

  function Views(rows: seq<LabelRow>): (r: seq<LabelView>)
    ensures |r| == |rows| && forall i :: 0 <= i < |rows| ==> r[i] == View(rows[i])
  {
    seq(|rows|, i requires 0 <= i < |rows| => View(rows[i]))
  }

  /** The answer: `success`, the labels, the categories in use and `total`. */
  datatype LabelsReply = LabelsReply(success: bool, labels: seq<LabelView>, categories: seq<string>, total: nat)

  const FailedReply: LabelsReply := LabelsReply(false, [], [], 0)

  function CreatedMs(l: LabelRow): int {
    l.createdAt.ms
  }

  /** `orderBy(desc(createdAt))`; rows created at the same instant keep their insertion order. */
  function NewestFirst(labels: seq<LabelRow>): (r: seq<LabelRow>)
    ensures |r| == |labels| && multiset(r) == multiset(labels)
    ensures SortedDesc(r, CreatedMs)
  {
    SortDesc(labels, CreatedMs)
  }

  /** SQL `LIMIT n`: at most `n` rows, and no bound at all when `n` is negative. */
  function SqlLimit<T>(s: seq<T>, limit: int): (r: seq<T>)
    ensures r <= s
    ensures limit < 0 ==> r == s
    ensures 0 <= limit ==> |r| == Min(limit, |s|)
  {
    if limit < 0 then s else SliceTo(s, limit)
  }

  /**
    * `selectDistinct({category})` then `.filter(Boolean)`: every non-empty category in use, once
    * each, in order of first use.
    */
  function Categories(labels: seq<LabelRow>): (r: seq<string>)
    ensures forall c :: c in r ==> c != "" && exists i :: 0 <= i < |labels| && labels[i].category == Some(c)
    ensures forall i :: 0 <= i < |labels| && labels[i].category.Some? && labels[i].category.value != "" ==>
      labels[i].category.value in r
    ensures forall i, j :: 0 <= i < j < |r| ==> r[i] != r[j]
    decreases |labels|
  {
    if labels == [] then []
    else
      var init := labels[..|labels| - 1];
      var prev := Categories(init);
      var c := labels[|labels| - 1].category;
      assert forall i :: 0 <= i < |init| ==> init[i] == labels[i];
      if c.Some? && c.value != "" && c.value !in prev then prev + [c.value] else prev
  }

  /** `category ? labels.filter(l => l.category === category) : labels`. */
  function InCategory(rows: seq<LabelRow>, category: Option<string>): (r: seq<LabelRow>)
    ensures !Given(category) ==> r == rows
    ensures Given(category) ==> |r| == CountWhere(rows, (l: LabelRow) => l.category == category)
    ensures Given(category) ==> forall l :: l in r <==> l in rows && l.category == category
  {
    FilterMembers(rows, (l: LabelRow) => l.category == category);
    if Given(category) then Filter(rows, (l: LabelRow) => l.category == category) else rows
  }

  /** Narrowing keeps the rows in their order: narrowing two runs of rows one after the other. */
  lemma InCategoryAppend(a: seq<LabelRow>, b: seq<LabelRow>, category: Option<string>)
    ensures InCategory(a + b, category) == InCategory(a, category) + InCategory(b, category)
  {
    if Given(category) {
      FilterAppend(a, b, (l: LabelRow) => l.category == category);
    }
  }

  /** The reply for a given row limit, as the handler builds it from the SQL results. */
  function ReplyFor(labels: seq<LabelRow>, limit: int, category: Option<string>): LabelsReply {
    var limited := SqlLimit(NewestFirst(labels), limit);
    LabelsReply(true, Views(InCategory(limited, category)), Categories(labels), |limited|)
  }

  /** The row limit as written: `Math.min(parseInt(limit) || 50, 100)`, which may be negative. */
  function LimitAsWritten(limitParam: Option<string>): int {
    ClampLimit(limitParam, 50, 100)
  }

  /** The handler as written; `up` says whether the store works. */
  function LabelsGetAsWritten(labels: seq<LabelRow>, limitParam: Option<string>, category: Option<string>, up: bool): LabelsReply {
    if up then ReplyFor(labels, LimitAsWritten(limitParam), category) else FailedReply
  }

  /**
    * A negative `?limit=` reaches SQL as a negative LIMIT, which removes the bound: every label is
    * returned, past the cap of 100.
    */
  lemma NegativeLimitReturnsAll(labels: seq<LabelRow>, n: int)
    requires n < 0
    ensures var reply := LabelsGetAsWritten(labels, Some(ShowInt(n)), None, true);
      reply.total == |labels| && |reply.labels| == |labels|
  {
    ParseShowInt(n);
  }

  /** The row limit as intended: the default for anything that is not a positive number, capped at 100. */
  function Limit(limitParam: Option<string>): (limit: int)
    ensures 1 <= limit <= 100
    ensures limit == LimitAsWritten(limitParam) || (limit == 50 && LimitAsWritten(limitParam) < 1)
  {
    ClampLimitRange(limitParam, 50, 100);
    var l := LimitAsWritten(limitParam);
    if l < 1 then 50 else l
  }

  /** The handler with the intended limit; `up` says whether the store works. */
  function LabelsGet(labels: seq<LabelRow>, limitParam: Option<string>, category: Option<string>, up: bool): LabelsReply {
    if up then ReplyFor(labels, Limit(limitParam), category) else FailedReply
  }

  /**
    * With a working store: the `Limit` newest labels (fewer when there are fewer), newest first,
    * then narrowed to the category; `total` counts them before the narrowing, and is at most 100.
    * A failing store answers `success: false` with nothing.
    */
  lemma LabelsGetShape(labels: seq<LabelRow>, limitParam: Option<string>, category: Option<string>, up: bool)
    ensures var reply := LabelsGet(labels, limitParam, category, up);
      && (!up ==> reply == FailedReply)
      && (up ==>
        var limited := NewestFirst(labels)[..Min(Limit(limitParam), |labels|)];
        && reply.success
        && reply.total == |limited| <= 100
        && SortedDesc(limited, CreatedMs)
        && reply.labels == Views(InCategory(limited, category))
        && (!Given(category) ==> |reply.labels| == reply.total)
        && reply.categories == Categories(labels))
  {
    if up {
      var sorted := NewestFirst(labels);
      var limit := Limit(limitParam);
      var limited := SqlLimit(sorted, limit);
      assert limited == sorted[..Min(limit, |labels|)];
      forall i, j | 0 <= i < j < |limited|
        ensures CreatedMs(limited[i]) >= CreatedMs(limited[j])
      {
        assert limited[i] == sorted[i] && limited[j] == sorted[j];
      }
    }
  }

  /** Any limit the intended handler uses leaves a reply of at most 100 labels. */
  lemma LabelsGetAtMostHundred(labels: seq<LabelRow>, limitParam: Option<string>, category: Option<string>, up: bool)
    ensures var reply := LabelsGet(labels, limitParam, category, up);
      reply.total <= 100 && |reply.labels| <= 100
  {
    LabelsGetShape(labels, limitParam, category, up);
  }
}

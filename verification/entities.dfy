/**
  * `GET /api/compliance/entities`: the known entities (the first ten finality providers and the
  * first five bonded validators) and label statistics grouped by category.
  */
module Entities {
  import opened Wrappers
  import opened Seqs
  import opened NodeApi
  import opened Format
  import opened Store

  datatype EntityKind = FinalityProviderEntity | ValidatorEntity | FoundationEntity

  /** One entity row; the mock row has no `website`. */
  datatype Entity = Entity(
    name: string,
    kind: EntityKind,
    address: string,
    addressShort: string,
    riskLevel: string,
    icon: string,
    iconColor: string,
    website: Option<string>,
    active: bool)

  const MaxProviders: int := 10
  const MaxValidators: int := 5

  function ProviderEntity(fp: FinalityProvider): (e: Entity)
    ensures e.kind == FinalityProviderEntity && e.address == fp.addr
    ensures e.active <==> !fp.jailed && fp.slashedBabylonHeight == "0"
    ensures e.riskLevel == (if fp.jailed then "Suspended" else "Verified")
    ensures e.name != "" && (fp.moniker != "" ==> e.name == fp.moniker)
    ensures e.addressShort == ShortenAddress(fp.addr, 8) && e.website == Some(fp.website)
  {
    Entity(if fp.moniker != "" then fp.moniker else "Unknown Provider", FinalityProviderEntity, fp.addr,
           ShortenAddress(fp.addr, 8), if fp.jailed then "Suspended" else "Verified", "mdi:server",
           if fp.jailed then "text-red-400" else "text-green-400", Some(fp.website),
           !fp.jailed && fp.slashedBabylonHeight == "0")
  }

  function ValidatorEntityOf(v: Validator): (e: Entity)
    ensures e.kind == ValidatorEntity && e.address == v.operatorAddress
    ensures e.active <==> !v.jailed
    ensures e.riskLevel == (if v.jailed then "Jailed" else "Verified")
    ensures e.name != "" && (v.moniker != "" ==> e.name == v.moniker)
    ensures e.addressShort == ShortenAddress(v.operatorAddress, 8) && e.website == Some(v.website)
  {
    Entity(if v.moniker != "" then v.moniker else "Unknown Validator", ValidatorEntity, v.operatorAddress,
           ShortenAddress(v.operatorAddress, 8), if v.jailed then "Jailed" else "Verified", "mdi:shield-check",
           if v.jailed then "text-red-400" else "text-purple-400", Some(v.website), !v.jailed)
  }

  /** The first ten providers, then the first five validators, each in the node's order. */
  function EntityList(fps: seq<FinalityProvider>, vals: seq<Validator>): (r: seq<Entity>)
    ensures var p := SliceTo(fps, MaxProviders); var v := SliceTo(vals, MaxValidators);
      && |r| == |p| + |v|
      && (forall i :: 0 <= i < |p| ==> r[i] == ProviderEntity(fps[i]))
      && (forall i :: 0 <= i < |v| ==> r[|p| + i] == ValidatorEntityOf(vals[i]))
  {
    var p := SliceTo(fps, MaxProviders);
    var v := SliceTo(vals, MaxValidators);
    seq(|p|, i requires 0 <= i < |p| => ProviderEntity(p[i])) + seq(|v|, i requires 0 <= i < |v| => ValidatorEntityOf(v[i]))
  }

  /** At most fifteen entities, providers before validators. */
  lemma EntityListShape(fps: seq<FinalityProvider>, vals: seq<Validator>)
    ensures var r := EntityList(fps, vals);
      && |r| <= MaxProviders + MaxValidators
      && (forall i, j :: 0 <= i < j < |r| && r[i].kind == ValidatorEntity ==> r[j].kind == ValidatorEntity)
      && (|fps| >= MaxProviders ==> |r| >= MaxProviders && forall i :: 0 <= i < MaxProviders ==> r[i].kind == FinalityProviderEntity)
  {
  }

  predicate IsActive(e: Entity) {
    e.active
  }

  /** One `GROUP BY category` row: the category (null included) and how many labels carry it. */
  datatype CategoryCount = CategoryCount(category: Option<string>, count: nat)

  function KeyIndex(t: seq<CategoryCount>, c: Option<string>): (k: Option<nat>)
    ensures k.Some? ==> k.value < |t| && t[k.value].category == c
    ensures k.None? ==> forall i :: 0 <= i < |t| ==> t[i].category != c
  {
    if t == [] then None
    else if t[|t| - 1].category == c then Some(|t| - 1)
    else KeyIndex(t[..|t| - 1], c)
  }

  /** Counts one more label of category `c`. */
  function Bump(t: seq<CategoryCount>, c: Option<string>): seq<CategoryCount> {
    match KeyIndex(t, c)
    case Some(i) => t[i := CategoryCount(c, t[i].count + 1)]
    case None => t + [CategoryCount(c, 1)]
  }

  /** The grouped counts, one row per category in order of first use. */
  function Tally(labels: seq<LabelRow>): seq<CategoryCount>
    decreases |labels|
  {
    if labels == [] then [] else Bump(Tally(labels[..|labels| - 1]), labels[|labels| - 1].category)
  }

  function TotalCount(t: seq<CategoryCount>): nat
    decreases |t|
  {
    if t == [] then 0 else TotalCount(t[..|t| - 1]) + t[|t| - 1].count
  }

  lemma {:induction false} TotalCountUpdate(t: seq<CategoryCount>, i: nat, e: CategoryCount)
    requires i < |t|
    ensures TotalCount(t[i := e]) == TotalCount(t) - t[i].count + e.count
    decreases |t|
  {
    var u := t[i := e];
    if i < |t| - 1 {
      assert u[..|u| - 1] == t[..|t| - 1][i := e];
      TotalCountUpdate(t[..|t| - 1], i, e);
    } else {
      assert u[..|u| - 1] == t[..|t| - 1];
    }
  }

  lemma BumpTotal(t: seq<CategoryCount>, c: Option<string>)
    ensures TotalCount(Bump(t, c)) == TotalCount(t) + 1
  {
    match KeyIndex(t, c)
    case Some(i) => TotalCountUpdate(t, i, CategoryCount(c, t[i].count + 1));
    case None => assert (t + [CategoryCount(c, 1)])[..|t|] == t;
  }

  /** `totalLabeled`: the group counts add up to the number of label rows. */
  lemma {:induction false} TallyTotal(labels: seq<LabelRow>)
    ensures TotalCount(Tally(labels)) == |labels|
    decreases |labels|
  {
    if labels != [] {
      TallyTotal(labels[..|labels| - 1]);
      BumpTotal(Tally(labels[..|labels| - 1]), labels[|labels| - 1].category);
    }
  }

  function HasCategory(c: Option<string>): LabelRow -> bool {
    (l: LabelRow) => l.category == c
  }

  /** Each group counts exactly the labels of its category. */
  predicate GroupCounts(t: seq<CategoryCount>, labels: seq<LabelRow>) {
    forall i :: 0 <= i < |t| ==> t[i].count == CountWhere(labels, HasCategory(t[i].category))
  }

  /** Every category in use has a group. */
  predicate Covers(t: seq<CategoryCount>, labels: seq<LabelRow>) {
    forall l :: l in labels ==> KeyIndex(t, l.category).Some?
  }

  lemma CountAppendOne(init: seq<LabelRow>, last: LabelRow, c: Option<string>)
    ensures CountWhere(init + [last], HasCategory(c)) == CountWhere(init, HasCategory(c)) + (if last.category == c then 1 else 0)
  {
    CountWhereAppend(init, [last], HasCategory(c));
    assert [last][1..] == [];
  }

  lemma BumpGroupCounts(t: seq<CategoryCount>, init: seq<LabelRow>, last: LabelRow)
    requires GroupCounts(t, init) && Covers(t, init) && Distinct(t)
    ensures GroupCounts(Bump(t, last.category), init + [last])
  {
    var u := Bump(t, last.category);
    var c := last.category;
    if KeyIndex(t, c).None? {
      assert CountWhere(init, HasCategory(c)) == 0 by {
        if CountWhere(init, HasCategory(c)) != 0 {
          var l := CountedMember(init, HasCategory(c));
        }
      }
    }
    forall i | 0 <= i < |u|
      ensures u[i].count == CountWhere(init + [last], HasCategory(u[i].category))
    {
      CountAppendOne(init, last, u[i].category);
      if i < |t| && KeyIndex(t, c) != Some(i) {
        assert u[i] == t[i];
        assert t[i].category != c;
      }
    }
  }

  lemma BumpCovers(t: seq<CategoryCount>, init: seq<LabelRow>, last: LabelRow)
    requires Covers(t, init)
    ensures Covers(Bump(t, last.category), init + [last])
  {
    var u := Bump(t, last.category);
    forall l | l in init + [last]
      ensures KeyIndex(u, l.category).Some?
    {
      var m := if l in init then KeyIndex(t, l.category).value
               else if KeyIndex(t, last.category).Some? then KeyIndex(t, last.category).value
               else |t|;
      assert u[m].category == l.category;
    }
  }

  /** A positive count has a witness. */
  lemma {:induction false} CountedMember(s: seq<LabelRow>, p: LabelRow -> bool) returns (l: LabelRow)
    requires CountWhere(s, p) != 0
    ensures l in s && p(l)
    decreases |s|
  {
    if p(s[0]) {
      l := s[0];
    } else {
      l := CountedMember(s[1..], p);
    }
  }

  /** Each group counts exactly the labels of its category, and every category in use has a group. */
  lemma {:induction false} TallyCounts(labels: seq<LabelRow>)
    ensures GroupCounts(Tally(labels), labels) && Covers(Tally(labels), labels)
    decreases |labels|
  {
    if labels != [] {
      var init := labels[..|labels| - 1];
      TallyCounts(init);
      TallyDistinct(init);
      assert labels == init + [labels[|labels| - 1]];
      BumpGroupCounts(Tally(init), init, labels[|labels| - 1]);
      BumpCovers(Tally(init), init, labels[|labels| - 1]);
    }
  }

  /** No category has two groups. */
  predicate Distinct(t: seq<CategoryCount>) {
    forall i, j :: 0 <= i < j < |t| ==> t[i].category != t[j].category
  }

  lemma BumpDistinct(t: seq<CategoryCount>, c: Option<string>)
    requires Distinct(t)
    ensures Distinct(Bump(t, c))
  {
  }

  /** No category has two groups. */
  lemma {:induction false} TallyDistinct(labels: seq<LabelRow>)
    ensures Distinct(Tally(labels))
    decreases |labels|
  {
    if labels != [] {
      TallyDistinct(labels[..|labels| - 1]);
      BumpDistinct(Tally(labels[..|labels| - 1]), labels[|labels| - 1].category);
    }
  }

  /** `Object.fromEntries`: entries in order, a later entry replacing an earlier one with the same key. */
  function FromEntries(entries: seq<(string, nat)>): (m: map<string, nat>)
    ensures forall k :: k in m <==> exists i :: 0 <= i < |entries| && entries[i].0 == k
    decreases |entries|
  {
    if entries == [] then map[]
    else
      var init := entries[..|entries| - 1];
      var m0 := FromEntries(init);
      assert forall i :: 0 <= i < |init| ==> init[i] == entries[i];
      m0[entries[|entries| - 1].0 := entries[|entries| - 1].1]
  }

  /** Under each key `Object.fromEntries` keeps the value of the last entry with that key. */
  lemma {:induction false} FromEntriesLast(entries: seq<(string, nat)>, i: int)
    requires 0 <= i < |entries|
    requires forall j :: i < j < |entries| ==> entries[j].0 != entries[i].0
    ensures FromEntries(entries)[entries[i].0] == entries[i].1
    decreases |entries|
  {
    if i < |entries| - 1 {
      var init := entries[..|entries| - 1];
      FromEntriesLast(init, i);
    }
  }

  /** `l.category || 'unknown'`: null and the empty category are both reported as 'unknown'. */
  function CategoryKey(c: Option<string>): string {
    if c.Some? && c.value != "" then c.value else "unknown"
  }

  function Entries(t: seq<CategoryCount>): (r: seq<(string, nat)>)
    ensures |r| == |t| && forall i :: 0 <= i < |t| ==> r[i] == (CategoryKey(t[i].category), t[i].count)
  {
    seq(|t|, i requires 0 <= i < |t| => (CategoryKey(t[i].category), t[i].count))
  }

  datatype EntityStats = EntityStats(totalEntities: nat, activeEntities: nat, totalLabeled: nat, labelsByCategory: map<string, nat>)

  datatype EntitiesReply = EntitiesReply(entities: seq<Entity>, stats: EntityStats, mock: bool)

  /** What the handler answers when a step throws: one foundation entity. */
  const MockEntities: EntitiesReply := EntitiesReply(
    [Entity("Babylon Foundation", FoundationEntity, "bbn1foundation...", "bbn1fou...ion", "Verified",
            "mdi:shield-check", "text-green-400", None, true)],
    EntityStats(1, 1, 0, map[]), true)

  /**
    * The handler, given what the provider and validator lookups fetched and the label rows
    * (`None` when the store fails). A failed lookup counts as an empty list; a body without the
    * expected list, or a store failure, throws and gives the mock answer.
    */
  function EntitiesGet(providers: Result<Payload, FetchError>, validators: Result<Payload, FetchError>,
                       labels: Option<seq<LabelRow>>): (r: EntitiesReply)
    ensures (labels.None? || (providers.Success? && !providers.value.ProvidersData?)
             || (validators.Success? && !validators.value.ValidatorsData?)) ==> r == MockEntities
    ensures labels.Some? && (providers.Failure? || providers.value.ProvidersData?)
            && (validators.Failure? || validators.value.ValidatorsData?) ==>
      var fps := if providers.Success? then providers.value.providers else [];
      var vals := if validators.Success? then validators.value.validators else [];
      && !r.mock
      && r.entities == EntityList(fps, vals)
      && r.stats.totalEntities == |r.entities| <= 15
      && r.stats.activeEntities == CountWhere(r.entities, IsActive) <= r.stats.totalEntities
      && r.stats.totalLabeled == |labels.value|
      && r.stats.labelsByCategory == FromEntries(Entries(Tally(labels.value)))
  {
    if labels.None? || (providers.Success? && !providers.value.ProvidersData?)
       || (validators.Success? && !validators.value.ValidatorsData?) then MockEntities
    else
      var fps := if providers.Success? then providers.value.providers else [];
      var vals := if validators.Success? then validators.value.validators else [];
      var entities := EntityList(fps, vals);
      var t := Tally(labels.value);
      TallyTotal(labels.value);
      EntityListShape(fps, vals);
      EntitiesReply(entities, EntityStats(|entities|, CountWhere(entities, IsActive), TotalCount(t),
                                          FromEntries(Entries(t))), false)
  }

  /** No other group is reported under the same key as category `c`. */
  predicate KeyUnshared(t: seq<CategoryCount>, c: Option<string>) {
    forall j :: 0 <= j < |t| && CategoryKey(t[j].category) == CategoryKey(c) ==> t[j].category == c
  }

  /** `labelsByCategory` has a key for every category in use. */
  lemma LabelsByCategoryKeys(labels: seq<LabelRow>, l: LabelRow)
    requires l in labels
    ensures CategoryKey(l.category) in FromEntries(Entries(Tally(labels)))
  {
    var t := Tally(labels);
    TallyCounts(labels);
    var i := KeyIndex(t, l.category).value;
    assert Entries(t)[i].0 == CategoryKey(l.category);
  }

  /** A category whose key no other group shares is given its full count. */
  lemma LabelsByCategoryCount(labels: seq<LabelRow>, l: LabelRow)
    requires l in labels && KeyUnshared(Tally(labels), l.category)
    ensures CategoryKey(l.category) in FromEntries(Entries(Tally(labels)))
    ensures FromEntries(Entries(Tally(labels)))[CategoryKey(l.category)] == CountWhere(labels, HasCategory(l.category))
  {
    var t := Tally(labels);
    var e := Entries(t);
    LabelsByCategoryKeys(labels, l);
    TallyCounts(labels);
    var i := KeyIndex(t, l.category).value;
    TallyDistinct(labels);
    forall j | i < j < |e|
      ensures e[j].0 != e[i].0
    {
      assert t[j].category != t[i].category;
    }
    FromEntriesLast(e, i);
  }

  /**
    * A null category and the empty category are both reported under 'unknown'; when both occur,
    * the map keeps only the count of the group listed later, though `totalLabeled` counts both.
    */
  lemma UnknownKeepsLater(t: seq<CategoryCount>, i: int, j: int)
    requires 0 <= i < j < |t| && t[i].category == None && t[j].category == Some("")
    requires forall k :: j < k < |t| ==> CategoryKey(t[k].category) != "unknown"
    ensures FromEntries(Entries(t))["unknown"] == t[j].count
  {
    FromEntriesLast(Entries(t), j);
  }
}

/** Query plans: the business registry, the context built from it, and the two checks a plan
    passes before SQL is written (`query_planner.py`, `plan_validator.py`). */
module Plan {
  import opened Sequences
  import opened Text

  // ------------------------------------------------------- registry and context

  datatype Entry = Entry(id: string, kind: string)

  const ENTITY := Entry("product", "entity")
  const DIMENSIONS := [Entry("product_id", "dimension"), Entry("product_name", "dimension")]
  const METRICS := [Entry("current_inventory", "metric"), Entry("safety_stock_level", "metric")]
  const FILTERS := [Entry("below_safety_stock", "filter")]
  const GRAINS := [Entry("product", "grain")]
  const JOINS := [Entry("product_to_product_inventory", "join")]

  function AllEntries(): seq<Entry> { [ENTITY] + DIMENSIONS + METRICS + FILTERS + GRAINS + JOINS }

  const KINDS := {"entity", "dimension", "metric", "filter", "grain", "join"}

  type Group = map<string, Entry>

  datatype Context = Context(
    entities: Group, dimensions: Group, metrics: Group, filters: Group, grains: Group, joins: Group)

  /** The entries of one kind by id; a later entry replaces an earlier one. */
  function GroupOf(entries: seq<Entry>, kind: string): Group {
    if entries == [] then map[]
    else
      var n := |entries| - 1;
      var before := GroupOf(entries[..n], kind);
      if entries[n].kind == kind then before[entries[n].id := entries[n]] else before
  }

  predicate KindsKnown(entries: seq<Entry>) { forall e <- entries :: e.kind in KINDS }

  function ContextOf(entries: seq<Entry>): Context {
    Context(GroupOf(entries, "entity"), GroupOf(entries, "dimension"), GroupOf(entries, "metric"),
            GroupOf(entries, "filter"), GroupOf(entries, "grain"), GroupOf(entries, "join"))
  }

  /** Fills the groups entry by entry; an entry of an unknown kind is an error. */
  method Build(entries: seq<Entry>) returns (context: Option<Context>)
    ensures context == if KindsKnown(entries) then Some(ContextOf(entries)) else None
  {
    var groups: map<string, Group> := map kind | kind in KINDS :: map[];
    for n := 0 to |entries|
      invariant KindsKnown(entries[..n]) && groups.Keys == KINDS
      invariant forall kind <- KINDS :: groups[kind] == GroupOf(entries[..n], kind)
    {
      var e := entries[n];
      assert entries[..n + 1] == entries[..n] + [e];
      if e.kind !in groups {
        assert e in entries;
        return None;
      }
      forall kind | kind in KINDS
        ensures GroupOf(entries[..n + 1], kind)
             == if e.kind == kind then GroupOf(entries[..n], kind)[e.id := e] else GroupOf(entries[..n], kind) {
      }
      groups := groups[e.kind := groups[e.kind][e.id := e]];
    }
    assert entries[..|entries|] == entries;
    context := Some(Context(groups["entity"], groups["dimension"], groups["metric"],
                            groups["filter"], groups["grain"], groups["join"]));
  }

  function KnownIds(c: Context): set<string> {
    c.entities.Keys + c.dimensions.Keys + c.metrics.Keys + c.filters.Keys + c.grains.Keys + c.joins.Keys
  }

  /** Collects the ids group by group. */
  method CollectIds(c: Context) returns (ids: set<string>)
    ensures ids == KnownIds(c)
  {
    ids := {};
    var groups := [c.entities, c.dimensions, c.metrics, c.filters, c.grains, c.joins];
    for n := 0 to |groups|
      invariant forall id :: id in ids <==> exists m :: 0 <= m < n && id in groups[m]
    {
      ids := ids + groups[n].Keys;
    }
    assert groups[0] == c.entities && groups[1] == c.dimensions && groups[2] == c.metrics;
    assert groups[3] == c.filters && groups[4] == c.grains && groups[5] == c.joins;
  }

  // ---------------------------------------------------------------------- plans

  datatype Filter = Filter(id: string, parameters: map<string, string>)

  datatype Direction = Asc | Desc

  datatype OrderBy = OrderBy(field: string, direction: Direction)

  datatype QueryPlan = QueryPlan(
    purpose: string, entity: string, dimensions: seq<string>, metrics: seq<string>, filters: seq<Filter>,
    timePolicy: Option<string>, grain: string, joins: seq<string>, orderBy: seq<OrderBy>, limit: int, depth: int)

  function FilterIds(p: QueryPlan): (ids: seq<string>)
    ensures |ids| == |p.filters| && forall i :: 0 <= i < |ids| ==> ids[i] == p.filters[i].id
  {
    seq(|p.filters|, i requires 0 <= i < |p.filters| => p.filters[i].id)
  }

  function OrderFields(p: QueryPlan): (ids: seq<string>)
    ensures |ids| == |p.orderBy| && forall i :: 0 <= i < |ids| ==> ids[i] == p.orderBy[i].field
  {
    seq(|p.orderBy|, i requires 0 <= i < |p.orderBy| => p.orderBy[i].field)
  }

  predicate Blank(s: string) { Strip(s) == "" }

  function SetOf(ids: seq<string>): set<string> { set id | id in ids }

  /** The contract's structural rules (`QueryPlan._check_invariants` and the field validators). */
  predicate Structural(p: QueryPlan) {
    && !Blank(p.purpose) && !Blank(p.entity) && !Blank(p.grain)
    && (forall f <- p.filters :: !Blank(f.id)) && (forall o <- p.orderBy :: !Blank(o.field))
    && |p.dimensions| == |SetOf(p.dimensions)|
    && |p.metrics| == |SetOf(p.metrics)|
    && |p.joins| == |SetOf(p.joins)|
    && p.metrics != []
    && |FilterIds(p)| == |SetOf(FilterIds(p))|
    && p.orderBy != []
    && |OrderFields(p)| == |SetOf(OrderFields(p))|
    && (forall o <- p.orderBy :: o.field in p.dimensions || o.field in p.metrics)
    && p.limit >= 1
  }

  predicate KindOk(ids: set<string>, allowed: Group) { ids <= allowed.Keys }

  /** The filter a later entry of the same id would have replaced. */
  function FilterBy(fs: seq<Filter>, id: string): Option<Filter> {
    if fs == [] then None
    else
      var n := |fs| - 1;
      if fs[n].id == id then Some(fs[n]) else FilterBy(fs[..n], id)
  }

  const MAXIMUM_RETURNED_ROWS := 100

  /** The semantic check: ids of the right kind, and everything the demo scope requires. */
  predicate Valid(p: QueryPlan, c: Context)
    requires Structural(p)
  {
    && KindOk({p.entity}, c.entities) && KindOk(SetOf(p.dimensions), c.dimensions)
    && KindOk(SetOf(p.metrics), c.metrics) && KindOk(SetOf(FilterIds(p)), c.filters)
    && KindOk({p.grain}, c.grains) && KindOk(SetOf(p.joins), c.joins)
    && p.timePolicy.None?
    && p.entity == "product"
    && {"product_id", "product_name"} <= SetOf(p.dimensions)
    && {"current_inventory", "safety_stock_level"} <= SetOf(p.metrics)
    && FilterBy(p.filters, "below_safety_stock").Some?
    && FilterBy(p.filters, "below_safety_stock").value.parameters == map[]
    && {"product_to_product_inventory"} <= SetOf(p.joins)
    && p.grain == "product" && p.depth == 1
    && p.orderBy[0] == OrderBy("product_id", Asc)
    && 1 <= p.limit <= MAXIMUM_RETURNED_ROWS
  }

  /** The plans of the demo scope, said directly. */
  predicate DemoPlan(p: QueryPlan) {
    && p.entity == "product" && p.grain == "product" && p.timePolicy.None? && p.depth == 1
    && multiset(p.dimensions) == multiset(["product_id", "product_name"])
    && multiset(p.metrics) == multiset(["current_inventory", "safety_stock_level"])
    && multiset(p.joins) == multiset(["product_to_product_inventory"])
    && p.filters == [Filter("below_safety_stock", map[])]
    && 1 <= p.limit <= MAXIMUM_RETURNED_ROWS
    && p.orderBy != [] && p.orderBy[0] == OrderBy("product_id", Asc)
  }

  // ---------------------------------------------------------- the registry's context

  lemma {:induction false} GroupKeys(entries: seq<Entry>, kind: string)
    ensures forall id :: id in GroupOf(entries, kind) <==> exists e <- entries :: e.kind == kind && e.id == id
  {
    if entries != [] {
      var n := |entries| - 1;
      GroupKeys(entries[..n], kind);
      assert entries == entries[..n] + [entries[n]];
    }
  }

  lemma {:induction false} RegistryIds(kind: string, ids: set<string>)
    requires forall id :: id in ids <==> exists e <- AllEntries() :: e.kind == kind && e.id == id
    ensures GroupOf(AllEntries(), kind).Keys == ids
  {
    GroupKeys(AllEntries(), kind);
  }

  lemma {:induction false} RegistryMembers(e: Entry)
    ensures e in AllEntries() <==>
      || e == ENTITY || e == DIMENSIONS[0] || e == DIMENSIONS[1] || e == METRICS[0] || e == METRICS[1]
      || e == FILTERS[0] || e == GRAINS[0] || e == JOINS[0]
  {
    assert AllEntries() == [ENTITY, DIMENSIONS[0], DIMENSIONS[1], METRICS[0], METRICS[1], FILTERS[0], GRAINS[0], JOINS[0]];
  }

  lemma {:induction false} IdOfKind(kind: string, id: string)
    ensures (exists e <- AllEntries() :: e.kind == kind && e.id == id) <==> Entry(id, kind) in AllEntries()
  {
  }

  lemma {:induction false} EntityIds()
    ensures ContextOf(AllEntries()).entities.Keys == {"product"}
    ensures ContextOf(AllEntries()).grains.Keys == {"product"}
  {
    var es := {"product"};
    forall id ensures id in es <==> exists e <- AllEntries() :: e.kind == "entity" && e.id == id {
      IdOfKind("entity", id);
      RegistryMembers(Entry(id, "entity"));
    }
    forall id ensures id in es <==> exists e <- AllEntries() :: e.kind == "grain" && e.id == id {
      IdOfKind("grain", id);
      RegistryMembers(Entry(id, "grain"));
    }
    RegistryIds("entity", es);
    RegistryIds("grain", es);
  }

  lemma {:induction false} OutputIds()
    ensures ContextOf(AllEntries()).dimensions.Keys == {"product_id", "product_name"}
    ensures ContextOf(AllEntries()).metrics.Keys == {"current_inventory", "safety_stock_level"}
  {
    var ds, ms := {"product_id", "product_name"}, {"current_inventory", "safety_stock_level"};
    forall id ensures id in ds <==> exists e <- AllEntries() :: e.kind == "dimension" && e.id == id {
      IdOfKind("dimension", id);
      RegistryMembers(Entry(id, "dimension"));
    }
    forall id ensures id in ms <==> exists e <- AllEntries() :: e.kind == "metric" && e.id == id {
      IdOfKind("metric", id);
      RegistryMembers(Entry(id, "metric"));
    }
    RegistryIds("dimension", ds);
    RegistryIds("metric", ms);
  }

  lemma {:induction false} RuleIds()
    ensures ContextOf(AllEntries()).filters.Keys == {"below_safety_stock"}
    ensures ContextOf(AllEntries()).joins.Keys == {"product_to_product_inventory"}
  {
    var fs, js := {"below_safety_stock"}, {"product_to_product_inventory"};
    forall id ensures id in fs <==> exists e <- AllEntries() :: e.kind == "filter" && e.id == id {
      IdOfKind("filter", id);
      RegistryMembers(Entry(id, "filter"));
    }
    forall id ensures id in js <==> exists e <- AllEntries() :: e.kind == "join" && e.id == id {
      IdOfKind("join", id);
      RegistryMembers(Entry(id, "join"));
    }
    RegistryIds("filter", fs);
    RegistryIds("join", js);
  }

  // ------------------------------------------------------------ characterisation

  lemma {:induction false} DistinctBySize(ids: seq<string>)
    ensures |SetOf(ids)| <= |ids|
    ensures |ids| == |SetOf(ids)| <==> Distinct(ids)
  {
    if ids == [] {
      assert SetOf(ids) == {};
    } else {
      var n := |ids| - 1;
      DistinctBySize(ids[..n]);
      assert ids == ids[..n] + [ids[n]];
      assert SetOf(ids) == SetOf(ids[..n]) + {ids[n]};
      if ids[n] in ids[..n] {
        var k :| 0 <= k < n && ids[..n][k] == ids[n];
        assert SetOf(ids) == SetOf(ids[..n]);
        assert ids[k] == ids[n];
      }
    }
  }

  /** Without repetitions, having exactly the required ids is being a permutation of them. */
  lemma {:induction false} ExactlyThese(ids: seq<string>, required: seq<string>)
    requires Distinct(required) && |ids| == |SetOf(ids)|
    ensures SetOf(ids) == SetOf(required) <==> multiset(ids) == multiset(required)
  {
    DistinctBySize(ids);
    Rearranged(required, ids);
    if SetOf(ids) == SetOf(required) {
      forall x ensures x in required <==> x in ids {
        assert x in required <==> x in SetOf(required);
        assert x in ids <==> x in SetOf(ids);
      }
    }
  }

  lemma {:induction false} TwoSame(ids: seq<string>)
    requires |ids| > 1 && ids[0] == ids[1]
    ensures !Distinct(ids)
  {
  }

  lemma {:induction false} OneFilter(p: QueryPlan)
    requires |FilterIds(p)| == |SetOf(FilterIds(p))|
    ensures SetOf(FilterIds(p)) <= {"below_safety_stock"}
            && FilterBy(p.filters, "below_safety_stock").Some?
            && FilterBy(p.filters, "below_safety_stock").value.parameters == map[]
       <==> p.filters == [Filter("below_safety_stock", map[])]
  {
    var ids := FilterIds(p);
    if SetOf(ids) <= {"below_safety_stock"} && p.filters != [] {
      forall i | 0 <= i < |ids| ensures ids[i] == "below_safety_stock" { assert ids[i] in SetOf(ids); }
      if |ids| > 1 { TwoSame(ids); }
      DistinctBySize(ids);
    }
    if p.filters == [Filter("below_safety_stock", map[])] {
      assert SetOf(ids) == {"below_safety_stock"};
    }
  }

  lemma {:induction false} TwoIds(ids: seq<string>, a: string, b: string)
    requires a != b && |ids| == |SetOf(ids)|
    ensures SetOf(ids) == {a, b} <==> multiset(ids) == multiset([a, b])
  {
    ExactlyThese(ids, [a, b]);
    assert SetOf([a, b]) == {a, b};
  }

  lemma {:induction false} OneId(ids: seq<string>, a: string)
    requires |ids| == |SetOf(ids)|
    ensures SetOf(ids) == {a} <==> multiset(ids) == multiset([a])
  {
    ExactlyThese(ids, [a]);
    assert SetOf([a]) == {a};
  }

  lemma {:induction false} ListsExact(p: QueryPlan)
    requires Structural(p)
    ensures SetOf(p.dimensions) == {"product_id", "product_name"}
       <==> multiset(p.dimensions) == multiset(["product_id", "product_name"])
    ensures SetOf(p.metrics) == {"current_inventory", "safety_stock_level"}
       <==> multiset(p.metrics) == multiset(["current_inventory", "safety_stock_level"])
    ensures SetOf(p.joins) == {"product_to_product_inventory"}
       <==> multiset(p.joins) == multiset(["product_to_product_inventory"])
  {
    assert "product_id" != "product_name" && "current_inventory" != "safety_stock_level";
    TwoIds(p.dimensions, "product_id", "product_name");
    TwoIds(p.metrics, "current_inventory", "safety_stock_level");
    OneId(p.joins, "product_to_product_inventory");
  }

  /** With the full registry, a structurally valid plan passes the semantic check exactly when
      it is a plan of the demo scope. */
  lemma {:induction false} PlanCharacterised(p: QueryPlan)
    requires Structural(p)
    ensures Valid(p, ContextOf(AllEntries())) <==> DemoPlan(p)
  {
    EntityIds();
    OutputIds();
    RuleIds();
    ListsExact(p);
    OneFilter(p);
  }

  /** Such a plan sorts by at most four fields. */
  lemma {:induction false} FewSortFields(p: QueryPlan)
    requires Structural(p) && Valid(p, ContextOf(AllEntries()))
    ensures |p.orderBy| <= 4
  {
    OutputIds();
    var fields := SetOf(OrderFields(p));
    var all := {"product_id", "product_name", "current_inventory", "safety_stock_level"};
    forall f | f in fields ensures f in all {
      var k :| 0 <= k < |p.orderBy| && p.orderBy[k].field == f;
      assert p.orderBy[k] in p.orderBy;
      assert f in SetOf(p.dimensions) || f in SetOf(p.metrics);
    }
    SubsetSize(fields, all);
  }

  lemma {:induction false} SubsetSize(a: set<string>, b: set<string>)
    requires a <= b
    ensures |a| <= |b|
  {
    assert |b - a| == |b| - |a|;
  }
}

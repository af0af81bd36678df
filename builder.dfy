/**
 * The Key Priorities Report builder: deliverables grouped by status, the
 * groups in the configured status order, and the report context.
 */
module KprBuilder {
  import opened Wrappers
  import opened Text
  import opened Seqs
  import opened JsonValues
  import opened Report
  import opened KprConfig

  // ------------------------------------------------------------ grouping

  /** The group an item belongs to: its stripped field, `""` when the field
      is missing or blank. */
  function GroupKey(field: string, d: Deliverable): string {
    Strip(Get(d, field, ""))
  }

  function Labels(groups: seq<StatusGroup>): seq<string> {
    Map((g: StatusGroup) => g.0, groups)
  }

  /** Does an item belong to the group `key`? */
  function InGroup(field: string, key: string): Deliverable -> bool {
    (d: Deliverable) => GroupKey(field, d) == key
  }

  /** `groups.setdefault(key, []).append(item)` on an ordered dictionary. */
  function AddTo(groups: seq<StatusGroup>, key: string, item: Deliverable): seq<StatusGroup> {
    if key in Labels(groups) then
      var i := FirstIndex(Labels(groups), key);
      groups[i := (key, groups[i].1 + [item])]
    else groups + [(key, [item])]
  }

  /** Replacing one group changes the count by the difference of sizes. */
  lemma ItemCountUpdate(groups: seq<StatusGroup>, i: int, g: StatusGroup)
    requires 0 <= i < |groups|
    ensures ItemCount(groups[i := g]) + |groups[i].1| == ItemCount(groups) + |g.1|
  {
    var front, back := groups[..i], groups[i + 1..];
    assert groups == front + [groups[i]] + back;
    assert groups[i := g] == front + [g] + back;
    ItemCountAppend(front + [groups[i]], back);
    ItemCountAppend(front, [groups[i]]);
    ItemCountAppend(front + [g], back);
    ItemCountAppend(front, [g]);
    ItemCountOne(g);
    ItemCountOne(groups[i]);
  }

  /** Adding an item keeps the labels, or adds its key last when new. */
  lemma AddToLabels(groups: seq<StatusGroup>, key: string, item: Deliverable)
    ensures Labels(AddTo(groups, key, item)) ==
      if key in Labels(groups) then Labels(groups) else Labels(groups) + [key]
  {
    if key !in Labels(groups) {
      MapAppend((g: StatusGroup) => g.0, groups, [(key, [item])]);
    }
  }

  /** Adding an item extends the group of its key, or opens a new group at the
      end; every other group is unchanged. */
  lemma AddToGroups(groups: seq<StatusGroup>, key: string, item: Deliverable)
    requires Distinct(Labels(groups))
    ensures key !in Labels(groups) ==> AddTo(groups, key, item) == groups + [(key, [item])]
    ensures forall i :: 0 <= i < |groups| ==>
      AddTo(groups, key, item)[i] == (groups[i].0, groups[i].1 + (if groups[i].0 == key then [item] else []))
  {
    var labels := Labels(groups);
    forall j | 0 <= j < |groups| ensures labels[j] == groups[j].0 {
    }
    if key in labels {
      var i := FirstIndex(labels, key);
      assert groups[i].0 == key;
      forall j | 0 <= j < |groups| && j != i ensures groups[j].0 != key && groups[j].1 + [] == groups[j].1 {
        assert labels[j] != labels[i];
      }
      assert AddTo(groups, key, item) == groups[i := (key, groups[i].1 + [item])];
    } else {
      forall j | 0 <= j < |groups| ensures AddTo(groups, key, item)[j] == groups[j] {
        assert groups[j].0 != key;
      }
      forall j | 0 <= j < |groups| ensures groups[j].1 + [] == groups[j].1 {
      }
    }
  }

  /** Adding an item adds one to the count. */
  lemma AddToCount(groups: seq<StatusGroup>, key: string, item: Deliverable)
    ensures ItemCount(AddTo(groups, key, item)) == ItemCount(groups) + 1
  {
    if key in Labels(groups) {
      var i := FirstIndex(Labels(groups), key);
      ItemCountUpdate(groups, i, (key, groups[i].1 + [item]));
    } else {
      ItemCountAppend(groups, [(key, [item])]);
      ItemCountOne((key, [item]));
    }
  }

  /** The groups the loop has built after the first items. */
  function Grouped(field: string, data: seq<Deliverable>): seq<StatusGroup> {
    if data == [] then []
    else
      var n := |data| - 1;
      AddTo(Grouped(field, data[..n]), GroupKey(field, data[n]), data[n])
  }

  /** `_group_by_field`. */
  method GroupByField(data: seq<Deliverable>, field: string) returns (groups: seq<StatusGroup>)
    ensures groups == Grouped(field, data)
  {
    groups := [];
    var i := 0;
    while i < |data|
      invariant 0 <= i <= |data|
      invariant groups == Grouped(field, data[..i])
    {
      var item := data[i];
      var value := Get(item, field, "");
      var key := if Strip(value) == [] then "" else Strip(value);
      assert data[..i + 1][..i] == data[..i];
      groups := AddTo(groups, key, item);
      i := i + 1;
    }
    assert data[..i] == data;
  }

  lemma FilterSnoc<A>(p: A -> bool, s: seq<A>, x: A)
    ensures Filter(p, s + [x]) == Filter(p, s) + (if p(x) then [x] else [])
  {
    assert (s + [x])[..|s|] == s;
  }

  lemma FilterNone<A>(p: A -> bool, s: seq<A>)
    requires forall k :: 0 <= k < |s| ==> !p(s[k])
    ensures Filter(p, s) == []
  {
    if s != [] {
      FilterNone(p, s[..|s| - 1]);
    }
  }

  /** The groups are labelled by the distinct keys, in order of first
      occurrence. */
  lemma {:induction false} GroupedLabels(field: string, data: seq<Deliverable>)
    ensures Labels(Grouped(field, data)) == Dedup(Map((d: Deliverable) => GroupKey(field, d), data))
    ensures Distinct(Labels(Grouped(field, data)))
  {
    var keyOf := (d: Deliverable) => GroupKey(field, d);
    if data != [] {
      var n := |data| - 1;
      var key := GroupKey(field, data[n]);
      GroupedLabels(field, data[..n]);
      AddToLabels(Grouped(field, data[..n]), key, data[n]);
      assert Map(keyOf, data)[..n] == Map(keyOf, data[..n]);
    }
    DedupSpec(Map(keyOf, data));
  }

  /** A key that labels no group has no items yet. */
  lemma NoItemsOfNewKey(field: string, data: seq<Deliverable>, key: string)
    requires key !in Labels(Grouped(field, data))
    ensures Filter(InGroup(field, key), data) == []
  {
    var keyOf := (d: Deliverable) => GroupKey(field, d);
    GroupedLabels(field, data);
    DedupSpec(Map(keyOf, data));
    forall k | 0 <= k < |data| ensures !InGroup(field, key)(data[k]) {
      assert Map(keyOf, data)[k] == keyOf(data[k]);
    }
    FilterNone(InGroup(field, key), data);
  }

  /** One more item keeps an existing group equal to the items of its key. */
  lemma OldGroupStep(field: string, prefix: seq<Deliverable>, x: Deliverable, i: int)
    requires 0 <= i < |Grouped(field, prefix)|
    requires Grouped(field, prefix)[i].1 == Filter(InGroup(field, Grouped(field, prefix)[i].0), prefix)
    ensures i < |Grouped(field, prefix + [x])|
    ensures Grouped(field, prefix + [x])[i].1 == Filter(InGroup(field, Grouped(field, prefix + [x])[i].0), prefix + [x])
  {
    var before := Grouped(field, prefix);
    assert (prefix + [x])[..|prefix|] == prefix;
    GroupedLabels(field, prefix);
    AddToGroups(before, GroupKey(field, x), x);
    FilterSnoc(InGroup(field, before[i].0), prefix, x);
  }

  /** One more item of a new key opens a group holding just that item. */
  lemma NewGroupStep(field: string, prefix: seq<Deliverable>, x: Deliverable)
    requires GroupKey(field, x) !in Labels(Grouped(field, prefix))
    ensures Grouped(field, prefix + [x]) == Grouped(field, prefix) + [(GroupKey(field, x), [x])]
    ensures [x] == Filter(InGroup(field, GroupKey(field, x)), prefix + [x])
  {
    assert (prefix + [x])[..|prefix|] == prefix;
    GroupedLabels(field, prefix);
    AddToGroups(Grouped(field, prefix), GroupKey(field, x), x);
    NoItemsOfNewKey(field, prefix, GroupKey(field, x));
    FilterSnoc(InGroup(field, GroupKey(field, x)), prefix, x);
  }

  /** Each group holds exactly the items of its key, in input order. */
  lemma {:induction false} GroupedItems(field: string, data: seq<Deliverable>)
    ensures forall i :: 0 <= i < |Grouped(field, data)| ==>
      Grouped(field, data)[i].1 == Filter(InGroup(field, Grouped(field, data)[i].0), data)
  {
    if data != [] {
      var n := |data| - 1;
      var prefix, x := data[..n], data[n];
      GroupedItems(field, prefix);
      assert data == prefix + [x];
      var before := Grouped(field, prefix);
      forall i | 0 <= i < |before|
        ensures Grouped(field, data)[i].1 == Filter(InGroup(field, Grouped(field, data)[i].0), data)
      {
        OldGroupStep(field, prefix, x, i);
      }
      if GroupKey(field, x) !in Labels(before) {
        NewGroupStep(field, prefix, x);
      } else {
        AddToLabels(before, GroupKey(field, x), x);
        assert |Labels(Grouped(field, data))| == |Labels(before)|;
      }
    }
  }

  /** Together the groups hold every item once. */
  lemma {:induction false} GroupedCount(field: string, data: seq<Deliverable>)
    ensures ItemCount(Grouped(field, data)) == |data|
  {
    if data != [] {
      var n := |data| - 1;
      GroupedCount(field, data[..n]);
      AddToCount(Grouped(field, data[..n]), GroupKey(field, data[n]), data[n]);
    }
  }

  /** Every item lies in exactly one group: the one labelled by its key. */
  lemma ExactlyOneGroup(field: string, data: seq<Deliverable>, d: Deliverable)
    requires d in data
    ensures forall i :: 0 <= i < |Grouped(field, data)| ==>
      (d in Grouped(field, data)[i].1 <==> Grouped(field, data)[i].0 == GroupKey(field, d))
    ensures GroupKey(field, d) in Labels(Grouped(field, data))
  {
    var groups := Grouped(field, data);
    var keyOf := (d: Deliverable) => GroupKey(field, d);
    GroupedLabels(field, data);
    GroupedItems(field, data);
    forall i | 0 <= i < |groups| ensures d in groups[i].1 <==> groups[i].0 == GroupKey(field, d) {
      if groups[i].0 == GroupKey(field, d) {
        FilterKeeps(InGroup(field, groups[i].0), data, d);
      }
    }
    var k :| 0 <= k < |data| && data[k] == d;
    assert Map(keyOf, data)[k] == GroupKey(field, d);
    DedupSpec(Map(keyOf, data));
  }

  // ------------------------------------------------------------ ordering

  const UNKNOWN_ORDER := 999

  /** The configured order of a group; unknown groups, and known ones
      without an order, sort last. */
  function OrderOf(config: map<string, Option<int>>, status: string): int {
    if status in config then config[status].GetOr(UNKNOWN_ORDER) else UNKNOWN_ORDER
  }

  predicate Ordered(config: map<string, Option<int>>, groups: seq<StatusGroup>) {
    forall i, j :: 0 <= i < j < |groups| ==> OrderOf(config, groups[i].0) <= OrderOf(config, groups[j].0)
  }

  /** Does a group have order `v`? */
  function HasOrder(config: map<string, Option<int>>, v: int): StatusGroup -> bool {
    (g: StatusGroup) => OrderOf(config, g.0) == v
  }

  /** Inserts a group after every group whose order is not greater. */
  function Insert(config: map<string, Option<int>>, sorted: seq<StatusGroup>, g: StatusGroup): seq<StatusGroup> {
    if sorted == [] then [g]
    else
      var n := |sorted| - 1;
      if OrderOf(config, sorted[n].0) <= OrderOf(config, g.0) then sorted + [g]
      else Insert(config, sorted[..n], g) + [sorted[n]]
  }

  /** `sorted(groups, key=get_order)`, a stable sort. */
  function SortByOrder(config: map<string, Option<int>>, groups: seq<StatusGroup>): seq<StatusGroup> {
    if groups == [] then []
    else
      var n := |groups| - 1;
      Insert(config, SortByOrder(config, groups[..n]), groups[n])
  }

  lemma {:induction false} InsertElements(config: map<string, Option<int>>, sorted: seq<StatusGroup>, g: StatusGroup)
    ensures multiset(Insert(config, sorted, g)) == multiset(sorted) + multiset{g}
  {
    if sorted != [] {
      var n := |sorted| - 1;
      if OrderOf(config, sorted[n].0) > OrderOf(config, g.0) {
        InsertElements(config, sorted[..n], g);
        assert sorted == sorted[..n] + [sorted[n]];
      }
    }
  }

  lemma {:induction false} InsertOrdered(config: map<string, Option<int>>, sorted: seq<StatusGroup>, g: StatusGroup)
    requires Ordered(config, sorted)
    ensures Ordered(config, Insert(config, sorted, g))
  {
    if sorted != [] {
      var n := |sorted| - 1;
      var last := sorted[n];
      if OrderOf(config, last.0) > OrderOf(config, g.0) {
        var front := Insert(config, sorted[..n], g);
        InsertOrdered(config, sorted[..n], g);
        InsertElements(config, sorted[..n], g);
        forall i | 0 <= i < |front| ensures OrderOf(config, front[i].0) <= OrderOf(config, last.0) {
          assert front[i] in multiset(front);
          if front[i] != g {
            assert front[i] in sorted[..n];
          }
        }
      }
    }
  }

  /** The groups of order `v` before and after a swap of the last group
      past one of another order. */
  lemma FilterPast(p: StatusGroup -> bool, front: seq<StatusGroup>, rest: seq<StatusGroup>, g: StatusGroup, last: StatusGroup)
    requires Filter(p, front) == Filter(p, rest) + (if p(g) then [g] else [])
    requires !(p(g) && p(last))
    ensures Filter(p, front + [last]) == Filter(p, rest + [last]) + (if p(g) then [g] else [])
  {
    FilterSnoc(p, front, last);
    FilterSnoc(p, rest, last);
  }

  lemma {:induction false} InsertStable(config: map<string, Option<int>>, sorted: seq<StatusGroup>, g: StatusGroup, v: int)
    ensures Filter(HasOrder(config, v), Insert(config, sorted, g)) ==
      Filter(HasOrder(config, v), sorted) + (if HasOrder(config, v)(g) then [g] else [])
  {
    var p := HasOrder(config, v);
    if sorted == [] {
      FilterSnoc(p, [], g);
    } else {
      var n := |sorted| - 1;
      var last := sorted[n];
      if OrderOf(config, last.0) <= OrderOf(config, g.0) {
        FilterSnoc(p, sorted, g);
      } else {
        InsertStable(config, sorted[..n], g, v);
        FilterPast(p, Insert(config, sorted[..n], g), sorted[..n], g, last);
        assert sorted[..n] + [last] == sorted;
      }
    }
  }

  lemma {:induction false} InsertCount(config: map<string, Option<int>>, sorted: seq<StatusGroup>, g: StatusGroup)
    ensures ItemCount(Insert(config, sorted, g)) == ItemCount(sorted) + |g.1|
  {
    if sorted == [] {
      ItemCountOne(g);
    } else {
      var n := |sorted| - 1;
      var last := sorted[n];
      if OrderOf(config, last.0) <= OrderOf(config, g.0) {
        ItemCountAppend(sorted, [g]);
        ItemCountOne(g);
      } else {
        InsertCount(config, sorted[..n], g);
        ItemCountAppend(Insert(config, sorted[..n], g), [last]);
        ItemCountAppend(sorted[..n], [last]);
        ItemCountOne(last);
        assert sorted == sorted[..n] + [last];
      }
    }
  }

  /** The sorted groups are in non-decreasing order and a permutation of the
      input. */
  lemma {:induction false} SortByOrderSpec(config: map<string, Option<int>>, groups: seq<StatusGroup>)
    ensures Ordered(config, SortByOrder(config, groups))
    ensures multiset(SortByOrder(config, groups)) == multiset(groups)
  {
    if groups != [] {
      var n := |groups| - 1;
      var before := SortByOrder(config, groups[..n]);
      SortByOrderSpec(config, groups[..n]);
      InsertOrdered(config, before, groups[n]);
      InsertElements(config, before, groups[n]);
      assert groups == groups[..n] + [groups[n]];
    }
  }

  /** The sorted groups hold the same deliverables. */
  lemma {:induction false} SortByOrderCount(config: map<string, Option<int>>, groups: seq<StatusGroup>)
    ensures ItemCount(SortByOrder(config, groups)) == ItemCount(groups)
  {
    if groups != [] {
      var n := |groups| - 1;
      SortByOrderCount(config, groups[..n]);
      InsertCount(config, SortByOrder(config, groups[..n]), groups[n]);
      assert groups == groups[..n] + [groups[n]];
      ItemCountAppend(groups[..n], [groups[n]]);
      ItemCountOne(groups[n]);
    }
  }

  /** The sort is stable: the groups of any one order keep their relative
      order. */
  lemma {:induction false} SortByOrderStable(config: map<string, Option<int>>, groups: seq<StatusGroup>, v: int)
    ensures Filter(HasOrder(config, v), SortByOrder(config, groups)) == Filter(HasOrder(config, v), groups)
  {
    if groups != [] {
      var n := |groups| - 1;
      var p := HasOrder(config, v);
      var before := SortByOrder(config, groups[..n]);
      SortByOrderStable(config, groups[..n], v);
      InsertStable(config, before, groups[n], v);
      FilterSnoc(p, groups[..n], groups[n]);
      assert groups[..n] + [groups[n]] == groups;
      assert SortByOrder(config, groups) == Insert(config, before, groups[n]);
    }
  }

  // ------------------------------------------------------------ status groups

  /** The status groups of the report. */
  function StatusGroups(data: seq<Deliverable>): seq<StatusGroup> {
    SortByOrder(STATUS_ORDER, Grouped("status", data))
  }

  /** `build_status_groups`. */
  method BuildStatusGroups(data: seq<Deliverable>) returns (groups: seq<StatusGroup>)
    ensures groups == StatusGroups(data)
  {
    var byStatus := GroupByField(data, "status");
    groups := SortByOrder(STATUS_ORDER, byStatus);
  }

  /** The intended status order, independently of the configuration table. */
  function StatusRank(status: string): nat {
    if status == OFF_TRACK then 0
    else if status == AT_RISK then 1
    else if status == "On Track" then 2
    else if status == "Complete" then 3
    else 4
  }

  lemma StatusOrderIsRank(a: string, b: string)
    ensures OrderOf(STATUS_ORDER, a) <= OrderOf(STATUS_ORDER, b) <==> StatusRank(a) <= StatusRank(b)
  {
  }

  /** Off Track before At Risk before On Track before Complete before any
      other status; the groups are those of the grouping by status, each
      holding exactly the deliverables of its status, and every deliverable
      is counted once. */
  lemma StatusGroupsSpec(data: seq<Deliverable>)
    ensures forall i, j :: 0 <= i < j < |StatusGroups(data)| ==>
      StatusRank(StatusGroups(data)[i].0) <= StatusRank(StatusGroups(data)[j].0)
    ensures multiset(StatusGroups(data)) == multiset(Grouped("status", data))
    ensures forall i :: 0 <= i < |StatusGroups(data)| ==>
      StatusGroups(data)[i].1 == Filter(InGroup("status", StatusGroups(data)[i].0), data)
    ensures ItemCount(StatusGroups(data)) == |data|
  {
    var groups := StatusGroups(data);
    SortByOrderSpec(STATUS_ORDER, Grouped("status", data));
    SortByOrderCount(STATUS_ORDER, Grouped("status", data));
    GroupedCount("status", data);
    GroupedItems("status", data);
    forall i, j | 0 <= i < j < |groups| ensures StatusRank(groups[i].0) <= StatusRank(groups[j].0) {
      StatusOrderIsRank(groups[i].0, groups[j].0);
    }
    forall i | 0 <= i < |groups| ensures groups[i].1 == Filter(InGroup("status", groups[i].0), data) {
      assert groups[i] in multiset(Grouped("status", data));
    }
  }

  // ------------------------------------------------------------ context

  const REPORT_TITLE := "Weekly Key Priorities Report"

  /** The report context for the data on a given date. */
  function KprContext(data: seq<Deliverable>, reportDate: string): Context {
    Context(Some(StatusGroups(data)), None, Some(|data|), Some(reportDate), None,
      map["report_title" := JStr(REPORT_TITLE)])
  }

  /** `build_context`; the clock's formatted date is a parameter. */
  method BuildContext(data: seq<Deliverable>, reportDate: string) returns (ctx: Context)
    ensures ctx == KprContext(data, reportDate)
  {
    var groups := BuildStatusGroups(data);
    ctx := Context(Some(groups), None, Some(|data|), Some(reportDate), None,
      map["report_title" := JStr(REPORT_TITLE)]);
  }

  /** The total is the number of deliverables, and the groups hold exactly
      that many. */
  lemma ContextCounts(data: seq<Deliverable>, reportDate: string)
    ensures KprContext(data, reportDate).totalDeliverables == Some(|data|)
    ensures ItemCount(KprContext(data, reportDate).statusGroups.value) == |data|
  {
    StatusGroupsSpec(data);
  }
}

/** The report context that flows from the builder through the synthesizer to
    the audience renderers. */
module Report {
  import opened Wrappers
  import opened JsonValues
  import opened Seqs

  /** One deliverable after transformation: its text fields by name, and the
      lead lists by role once the KPR clean-up has added them. */
  datatype Deliverable = Deliverable(fields: map<string, string>, leads: Option<map<string, seq<string>>>)

  /** `d.get(key, default)` on a text field. */
  function Get(d: Deliverable, key: string, default: string): string {
    if key in d.fields then d.fields[key] else default
  }

  /** `d.get(key)`: the field, or `None`. */
  function Field(d: Deliverable, key: string): Option<string> {
    if key in d.fields then Some(d.fields[key]) else None
  }

  /** A status label with the deliverables carrying it. */
  type StatusGroup = (string, seq<Deliverable>)

  /** The context dictionary: the keys the modelled code reads, each `None` when
      absent, and every other key in `extra`. */
  datatype Context = Context(
    statusGroups: Option<seq<StatusGroup>>,
    deliverables: Option<seq<Deliverable>>,
    totalDeliverables: Option<int>,
    reportDate: Option<string>,
    synthesis: Option<map<string, Json>>,
    extra: map<string, Json>)

  const OFF_TRACK := "Off Track"
  const AT_RISK := "At Risk"

  /** The statuses every audience treats as needing attention. */
  predicate IsCritical(status: string) {
    status == OFF_TRACK || status == AT_RISK
  }

  /** The number of deliverables across the groups. */
  function ItemCount(groups: seq<StatusGroup>): nat {
    if groups == [] then 0
    else ItemCount(groups[..|groups| - 1]) + |groups[|groups| - 1].1|
  }

  /** The deliverables of all groups, group after group. */
  function AllItems(groups: seq<StatusGroup>): seq<Deliverable> {
    if groups == [] then []
    else AllItems(groups[..|groups| - 1]) + groups[|groups| - 1].1
  }

  lemma {:induction false} AllItemsCount(groups: seq<StatusGroup>)
    ensures |AllItems(groups)| == ItemCount(groups)
  {
    if groups != [] {
      AllItemsCount(groups[..|groups| - 1]);
    }
  }

  lemma ItemCountOne(g: StatusGroup)
    ensures ItemCount([g]) == |g.1|
  {
    assert [g][..0] == [];
  }

  lemma {:induction false} ItemCountAppend(a: seq<StatusGroup>, b: seq<StatusGroup>)
    ensures ItemCount(a + b) == ItemCount(a) + ItemCount(b)
    decreases |b|
  {
    if b != [] {
      var n := |b| - 1;
      assert (a + b)[..|a + b| - 1] == a + b[..n];
      ItemCountAppend(a, b[..n]);
    } else {
      assert a + b == a;
    }
  }

  /** A group whose label is a critical status. */
  predicate IsCriticalGroup(g: StatusGroup) {
    IsCritical(g.0)
  }

  /** The groups whose label is a critical status, in order: the list
      comprehension `[(s, items) for s, items in groups if critical(s)]`. */
  function CriticalGroups(groups: seq<StatusGroup>): (r: seq<StatusGroup>)
    ensures |r| <= |groups|
    ensures forall g :: g in r ==> g in groups && IsCritical(g.0)
    ensures r == Filter(IsCriticalGroup, groups)
  {
    if groups == [] then []
    else
      var last := groups[|groups| - 1];
      CriticalGroups(groups[..|groups| - 1]) + (if IsCritical(last.0) then [last] else [])
  }
}

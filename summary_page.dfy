/**
  * The cross-service summary: one KPI card per provisioned service, and a pie and a bar
  * series for the service in focus.
  */
module SummaryPage {
  import opened Wrappers
  import opened Seqs
  import opened Dicts
  import opened Sorting
  import opened DemoData
  import opened DataTable

  /** A KPI card: the service's title, its tag and its metrics. */
  datatype KpiGroup = KpiGroup(title: string, service: Service, metrics: seq<Metric>)

  datatype Charts = Charts(pie: seq<Point>, bar: seq<Point>)

  /** The services whose sub-record is present, in the order m365, pp, duo, s1. */
  function PresentServices(data: ClientData): seq<Service>
  {
    Tag(data.m365.Some?, M365) + Tag(data.pp.Some?, Proofpoint)
    + Tag(data.duo.Some?, Duo) + Tag(data.s1.Some?, SentinelOne)
  }

  /** `[s]` when the service is present, nothing otherwise. */
  function Tag(present: bool, s: Service): seq<Service>
  {
    if present then [s] else []
  }

  function ServicesOf(groups: seq<KpiGroup>): seq<Service>
  {
    seq(|groups|, i requires 0 <= i < |groups| => groups[i].service)
  }

  /**
    * What each KPI card must show, stated from the record: list lengths for M365; for
    * Proofpoint the total, the users who are not functional accounts, and the functional
    * accounts; for Duo the total and the number of users with each status; for SentinelOne
    * the names (or "-") and the displayed agent total.
    */
  ghost predicate KpiAgrees(g: KpiGroup, data: ClientData)
  {
    match g.service
    case M365 =>
      && data.m365.Some?
      && var m := data.m365.value;
         g == KpiGroup("Microsoft 365", M365, [
           Metric("Licensed", Num(Len(m.licensed))),
           Metric("Unlicensed", Num(Len(m.unlicensed))),
           Metric("Shared Mailboxes", Num(Len(m.shared))),
           Metric("DLs", Num(Len(m.distributionLists))),
           Metric("M365 Groups", Num(Len(m.groups))),
           Metric("Security Groups", Num(Len(m.securityGroups)))])
    case Proofpoint =>
      && data.pp.Some?
      && var users := data.pp.value.users.GetOr([]);
         g == KpiGroup("Proofpoint", Proofpoint, [
           Metric("Total Users", Num(|users|)),
           Metric("Paid", Num(|users| - |Filter(users, IsFunctionalAccount)|)),
           Metric("Functional", Num(|Filter(users, IsFunctionalAccount)|))])
    case Duo =>
      && data.duo.Some?
      && var keys := StatusKeys(data.duo.value.users.GetOr([]));
         g == KpiGroup("Duo", Duo, [
           Metric("Total Users", Num(|keys|)),
           Metric("Active", Num(multiset(keys)["active"])),
           Metric("Disabled", Num(multiset(keys)["disabled"])),
           Metric("Bypass", Num(multiset(keys)["bypass"]))])
    case SentinelOne =>
      && data.s1.Some?
      && var s := data.s1.value;
         g == KpiGroup("SentinelOne", SentinelOne, [
           Metric("Account", Text(NameOrDash(s.accountName))),
           Metric("Site", Text(NameOrDash(s.siteName))),
           Metric("Total Agents", Num(s.totalAgents))])
  }

  method M365Group(data: ClientData) returns (g: KpiGroup)
    requires data.m365.Some?
    ensures g.service == M365 && KpiAgrees(g, data)
  {
    var m := data.m365.value;
    g := KpiGroup("Microsoft 365", M365, [
      Metric("Licensed", Num(Len(m.licensed))),
      Metric("Unlicensed", Num(Len(m.unlicensed))),
      Metric("Shared Mailboxes", Num(Len(m.shared))),
      Metric("DLs", Num(Len(m.distributionLists))),
      Metric("M365 Groups", Num(Len(m.groups))),
      Metric("Security Groups", Num(Len(m.securityGroups)))]);
  }

  /** Paid counts the users that are not functional accounts; Functional is the rest. */
  method ProofpointGroup(data: ClientData) returns (g: KpiGroup)
    requires data.pp.Some?
    ensures g.service == Proofpoint && KpiAgrees(g, data)
  {
    var users := data.pp.value.users.GetOr([]);
    var paid := |Filter(users, IsPaid)|;
    var functional := |users| - paid;
    FilterPartition(users, IsPaid, IsFunctionalAccount);
    g := KpiGroup("Proofpoint", Proofpoint, [
      Metric("Total Users", Num(|users|)),
      Metric("Paid", Num(paid)),
      Metric("Functional", Num(functional))]);
  }

  /** Counts the users per status key, then reads the three named statuses (0 if absent). */
  method DuoGroup(data: ClientData) returns (g: KpiGroup)
    requires data.duo.Some?
    ensures g.service == Duo && KpiAgrees(g, data)
  {
    var users := data.duo.value.users.GetOr([]);
    var keys := StatusKeys(users);
    var statuses := CountBy(keys);
    TallyCount(keys, "active");
    TallyCount(keys, "disabled");
    TallyCount(keys, "bypass");
    g := KpiGroup("Duo", Duo, [
      Metric("Total Users", Num(|users|)),
      Metric("Active", Num(Get(statuses, "active").GetOr(0))),
      Metric("Disabled", Num(Get(statuses, "disabled").GetOr(0))),
      Metric("Bypass", Num(Get(statuses, "bypass").GetOr(0)))]);
  }

  /** `total_agents || 0` shows the stored total: only a zero is falsy among integers. */
  method S1Group(data: ClientData) returns (g: KpiGroup)
    requires data.s1.Some?
    ensures g.service == SentinelOne && KpiAgrees(g, data)
  {
    var s := data.s1.value;
    g := KpiGroup("SentinelOne", SentinelOne, [
      Metric("Account", Text(NameOrDash(s.accountName))),
      Metric("Site", Text(NameOrDash(s.siteName))),
      // `total_agents || 0`: the only falsy count is 0 itself, so the stored total is shown
      Metric("Total Agents", Num(s.totalAgents))]);
  }

  /** Every card in `groups` agrees with the record. */
  ghost predicate AllAgree(groups: seq<KpiGroup>, data: ClientData)
  {
    forall i :: 0 <= i < |groups| ==> KpiAgrees(groups[i], data)
  }

  /** Pushing a card appends its service and keeps every card in agreement. */
  lemma {:induction false} PushCard(groups: seq<KpiGroup>, g: KpiGroup, data: ClientData)
    requires AllAgree(groups, data) && KpiAgrees(g, data)
    ensures ServicesOf(groups + [g]) == ServicesOf(groups) + [g.service]
    ensures AllAgree(groups + [g], data)
  {
    assert forall i :: 0 <= i < |groups| ==> (groups + [g])[i] == groups[i];
  }

  /**
    * `getKPIMetrics`: appends one card per present sub-record, in the order m365, pp, duo,
    * s1, and none for an absent one.
    */
  method GetKPIMetrics(data: ClientData) returns (metrics: seq<KpiGroup>)
    ensures ServicesOf(metrics) == PresentServices(data)
    ensures forall i :: 0 <= i < |metrics| ==> KpiAgrees(metrics[i], data)
  {
    metrics := [];
    if data.m365.Some? {
      var g := M365Group(data);
      PushCard(metrics, g, data);
      metrics := metrics + [g];
    }
    ghost var expected := Tag(data.m365.Some?, M365);
    assert ServicesOf(metrics) == expected && AllAgree(metrics, data);
    if data.pp.Some? {
      var g := ProofpointGroup(data);
      PushCard(metrics, g, data);
      metrics := metrics + [g];
    }
    expected := expected + Tag(data.pp.Some?, Proofpoint);
    assert ServicesOf(metrics) == expected && AllAgree(metrics, data);
    if data.duo.Some? {
      var g := DuoGroup(data);
      PushCard(metrics, g, data);
      metrics := metrics + [g];
    }
    expected := expected + Tag(data.duo.Some?, Duo);
    assert ServicesOf(metrics) == expected && AllAgree(metrics, data);
    if data.s1.Some? {
      var g := S1Group(data);
      PushCard(metrics, g, data);
      metrics := metrics + [g];
    }
    expected := expected + Tag(data.s1.Some?, SentinelOne);
    assert ServicesOf(metrics) == expected && AllAgree(metrics, data);
  }

  /** `Object.entries(counts).map(([name, value]) => ({ name, value }))`. */
  function CountPoints(counts: Dict<nat>): (ps: seq<Point>)
    ensures |ps| == |counts|
    ensures forall i :: 0 <= i < |counts| ==> ps[i] == Point(counts[i].0, counts[i].1)
  {
    seq(|counts|, i requires 0 <= i < |counts| => Point(counts[i].0, counts[i].1))
  }

  /** `Object.entries(license_utilization).map(([name, info]) => ({ name, value: info.assigned }))`. */
  function LicensePoints(table: Dict<LicenseInfo>): (ps: seq<Point>)
    ensures |ps| == |table|
    ensures forall i :: 0 <= i < |table| ==> ps[i] == Point(table[i].0, table[i].1.assignedCount)
  {
    seq(|table|, i requires 0 <= i < |table| => Point(table[i].0, table[i].1.assignedCount))
  }

  predicate HasPositiveValue(p: Point)
  {
    p.value > 0
  }

  function GroupKeys(agents: seq<Agent>): (keys: seq<string>)
    ensures |keys| == |agents|
    ensures forall i :: 0 <= i < |agents| ==> keys[i] == agents[i].groupName
  {
    seq(|agents|, i requires 0 <= i < |agents| => agents[i].groupName)
  }

  /** `getChartData` for the service in focus; an absent sub-record gives two empty series. */
  function ChartData(data: ClientData, focus: Service): (c: Charts)
    ensures focus == Duo || focus == SentinelOne ==> c.pie == c.bar
    ensures focus == M365 && data.m365.Some? ==>
      && |c.bar| == 3
      && c.bar[0].value == Len(data.m365.value.licensed)
      && c.bar[1].value == Len(data.m365.value.unlicensed)
      && c.bar[2].value == Len(data.m365.value.shared)
    ensures focus == Proofpoint && data.pp.Some? ==>
      && |c.pie| == 2 && |c.bar| == 2
      && c.pie[0].value + c.pie[1].value == Len(data.pp.value.users)
      && c.bar[0].value + c.bar[1].value == Len(data.pp.value.users)
  {
    match focus
    case M365 =>
      if data.m365.None? then Charts([], [])
      else
        var m := data.m365.value;
        Charts(
          SortByValueDesc(Filter(LicensePoints(m.licenseUtilization.GetOr([])), HasPositiveValue)),
          [Point("Licensed", Len(m.licensed)), Point("Unlicensed", Len(m.unlicensed)), Point("Shared", Len(m.shared))])
    case Proofpoint =>
      if data.pp.None? then Charts([], [])
      else
        var users := data.pp.value.users.GetOr([]);
        var paid := |Filter(users, IsPaid)|;
        var active := |Filter(users, IsActive)|;
        Charts(
          [Point("Paid", paid), Point("Functional", |users| - paid)],
          [Point("Active", active), Point("Inactive", |users| - active)])
    case Duo =>
      if data.duo.None? then Charts([], [])
      else
        var series := CountPoints(Tally(StatusKeys(data.duo.value.users.GetOr([]))));
        Charts(series, series)
    case SentinelOne =>
      if data.s1.None? then Charts([], [])
      else
        var series := SortByValueDesc(CountPoints(Tally(GroupKeys(data.s1.value.agents.GetOr([])))));
        Charts(series, series)
  }

  function SumPoints(ps: seq<Point>): int
  {
    if ps == [] then 0 else ps[0].value + SumPoints(ps[1..])
  }

  lemma {:induction false} SumCountPoints(counts: Dict<nat>)
    ensures SumPoints(CountPoints(counts)) == SumValues(counts)
  {
    if counts != [] {
      assert CountPoints(counts)[1..] == CountPoints(counts[1..]);
      SumCountPoints(counts[1..]);
    }
  }

  lemma {:induction false} SumPointsConcat(a: seq<Point>, b: seq<Point>)
    ensures SumPoints(a + b) == SumPoints(a) + SumPoints(b)
  {
    if a == [] {
      assert a + b == b;
    } else {
      assert (a + b)[1..] == a[1..] + b;
      SumPointsConcat(a[1..], b);
    }
  }

  /** Inserting a point adds its value to the sum. */
  lemma {:induction false} SumInsert(s: seq<Point>, p: Point)
    ensures SumPoints(Insert(s, p)) == SumPoints(s) + p.value
  {
    if s != [] && s[0].value >= p.value {
      SumInsert(s[1..], p);
      assert ([s[0]] + Insert(s[1..], p))[1..] == Insert(s[1..], p);
    } else if s != [] {
      assert ([p] + s)[1..] == s;
    }
  }

  /** Sorting the series keeps its sum. */
  lemma {:induction false} SumSorted(s: seq<Point>)
    ensures SumPoints(SortByValueDesc(s)) == SumPoints(s)
  {
    if s != [] {
      var init, last := s[..|s| - 1], s[|s| - 1];
      SumSorted(init);
      SumInsert(SortByValueDesc(init), last);
      assert s == init + [last];
      SumPointsConcat(init, [last]);
    }
  }

  /** Whatever the focus, an absent sub-record gives two empty series. */
  lemma {:induction false} AbsentFocusIsEmpty(data: ClientData, focus: Service)
    requires focus !in PresentServices(data)
    ensures ChartData(data, focus) == Charts([], [])
  {
  }

  /**
    * The M365 pie holds exactly the license entries with a positive assigned count, as
    * { name, assigned }, sorted non-increasing by value; entries with the same value keep
    * their table order. The bar series is always Licensed, Unlicensed, Shared with the
    * lengths of those lists.
    */
  lemma {:induction false} M365Chart(data: ClientData)
    requires data.m365.Some?
    ensures var m := data.m365.value;
      var points := LicensePoints(m.licenseUtilization.GetOr([]));
      var pie := ChartData(data, M365).pie;
      && SortedDesc(pie)
      && multiset(pie) == multiset(Filter(points, HasPositiveValue))
      && (forall p :: p in pie <==> p in points && p.value > 0)
      && (forall v :: v > 0 ==> WithValue(pie, v) == WithValue(points, v))
      && ChartData(data, M365).bar ==
           [Point("Licensed", Len(m.licensed)), Point("Unlicensed", Len(m.unlicensed)), Point("Shared", Len(m.shared))]
  {
    var points := LicensePoints(data.m365.value.licenseUtilization.GetOr([]));
    var kept := Filter(points, HasPositiveValue);
    SortByValueDescSpec(kept);
    var pie := SortByValueDesc(kept);
    forall p
      ensures p in pie <==> p in points && p.value > 0
    {
      assert p in pie <==> p in multiset(pie);
    }
    forall v | v > 0
      ensures WithValue(pie, v) == WithValue(points, v)
    {
      FilterKeepsWithValue(points, v);
    }
  }

  /** Filtering out the non-positive points keeps every positive value's points in order. */
  lemma {:induction false} FilterKeepsWithValue(points: seq<Point>, v: int)
    requires v > 0
    ensures WithValue(Filter(points, HasPositiveValue), v) == WithValue(points, v)
  {
    if points != [] {
      FilterKeepsWithValue(points[1..], v);
      var head := if HasPositiveValue(points[0]) then [points[0]] else [];
      WithValueConcat(head, Filter(points[1..], HasPositiveValue), v);
    }
  }

  /**
    * The Proofpoint pie is Paid then Functional and sums to the user count, Functional
    * being the users typed "functional_account"; the bar is Active then Inactive and sums
    * to the user count, Inactive being the users whose `is_active` is not truthy.
    */
  lemma {:induction false} ProofpointChart(data: ClientData)
    requires data.pp.Some?
    ensures var users := data.pp.value.users.GetOr([]);
      var c := ChartData(data, Proofpoint);
      && |c.pie| == 2 && |c.bar| == 2
      && c.pie[0].name == "Paid" && c.pie[1].name == "Functional"
      && c.bar[0].name == "Active" && c.bar[1].name == "Inactive"
      && c.pie[1].value == |Filter(users, IsFunctionalAccount)|
      && c.pie[0].value + c.pie[1].value == |users|
      && c.bar[1].value == |Filter(users, IsInactive)|
      && c.bar[0].value + c.bar[1].value == |users|
  {
    var users := data.pp.value.users.GetOr([]);
    FilterPartition(users, IsPaid, IsFunctionalAccount);
    FilterPartition(users, IsActive, IsInactive);
  }

  /**
    * The Duo pie and bar are the same series: every distinct status key in first-encounter
    * order ("unknown" for a missing or empty status), each with the number of users having
    * it, and the values add up to the user count.
    */
  lemma {:induction false} DuoChart(data: ClientData)
    requires data.duo.Some?
    ensures var keys := StatusKeys(data.duo.value.users.GetOr([]));
      var c := ChartData(data, Duo);
      && c.pie == c.bar
      && |c.pie| == |FirstSeen(keys)|
      && (forall i :: 0 <= i < |c.pie| ==> c.pie[i].name == FirstSeen(keys)[i])
      && (forall i :: 0 <= i < |c.pie| ==> c.pie[i].value == multiset(keys)[c.pie[i].name])
      && SumPoints(c.pie) == Len(data.duo.value.users)
  {
    var keys := StatusKeys(data.duo.value.users.GetOr([]));
    var counts := Tally(keys);
    TallyKeys(keys);
    TallySum(keys);
    SumCountPoints(counts);
    forall i | 0 <= i < |counts|
      ensures counts[i].1 == multiset(keys)[counts[i].0]
    {
      TallyDistinct(keys);
      GetAt(counts, i);
      TallyCount(keys, counts[i].0);
    }
  }

  /**
    * Before sorting, the SentinelOne counts hold one point per distinct group name in
    * first-encounter order, valued by the number of agents in that group, and the values
    * add up to the agent count.
    */
  lemma {:induction false} S1GroupCounts(agents: seq<Agent>)
    ensures var keys := GroupKeys(agents);
      var unsorted := CountPoints(Tally(keys));
      && |unsorted| == |FirstSeen(keys)|
      && (forall i :: 0 <= i < |unsorted| ==> unsorted[i].name == FirstSeen(keys)[i])
      && (forall i :: 0 <= i < |unsorted| ==> unsorted[i].value == multiset(keys)[unsorted[i].name])
      && SumPoints(unsorted) == |agents|
  {
    var keys := GroupKeys(agents);
    var counts := Tally(keys);
    TallyKeys(keys);
    TallySum(keys);
    SumCountPoints(counts);
    TallyDistinct(keys);
    forall i | 0 <= i < |counts|
      ensures counts[i].1 == multiset(keys)[counts[i].0]
    {
      GetAt(counts, i);
      TallyCount(keys, counts[i].0);
    }
  }

  /**
    * The SentinelOne series (pie and bar alike) is the group counts sorted non-increasing
    * by value; groups of equal size keep their first-encounter order. Each point is valued
    * by the number of agents in its group, and the values add up to the agent count.
    */
  lemma {:induction false} S1Chart(data: ClientData)
    requires data.s1.Some?
    ensures var keys := GroupKeys(data.s1.value.agents.GetOr([]));
      var unsorted := CountPoints(Tally(keys));
      var c := ChartData(data, SentinelOne);
      && c.pie == c.bar
      && SortedDesc(c.pie)
      && multiset(c.pie) == multiset(unsorted)
      && (forall v :: WithValue(c.pie, v) == WithValue(unsorted, v))
      && (forall p :: p in c.pie ==> p.value == multiset(keys)[p.name])
      && SumPoints(c.pie) == Len(data.s1.value.agents)
  {
    var agents := data.s1.value.agents.GetOr([]);
    var pie := SortByValueDesc(CountPoints(Tally(GroupKeys(agents))));
    assert ChartData(data, SentinelOne) == Charts(pie, pie);
    S1SeriesFacts(agents);
  }

  /** The sorted group counts of a list of agents, as `S1Chart` states them. */
  lemma {:induction false} S1SeriesFacts(agents: seq<Agent>)
    ensures var keys := GroupKeys(agents);
      var unsorted := CountPoints(Tally(keys));
      var pie := SortByValueDesc(unsorted);
      && SortedDesc(pie)
      && multiset(pie) == multiset(unsorted)
      && (forall v :: WithValue(pie, v) == WithValue(unsorted, v))
      && (forall p :: p in pie ==> p.value == multiset(keys)[p.name])
      && SumPoints(pie) == |agents|
  {
    var keys := GroupKeys(agents);
    var unsorted := CountPoints(Tally(keys));
    S1GroupCounts(agents);
    SortByValueDescSpec(unsorted);
    SumSorted(unsorted);
    SortedCountsAgree(unsorted, keys);
  }

  /** Sorting moves points without changing them, so each still carries its key's count. */
  lemma {:induction false} SortedCountsAgree(unsorted: seq<Point>, keys: seq<string>)
    requires forall i :: 0 <= i < |unsorted| ==> unsorted[i].value == multiset(keys)[unsorted[i].name]
    ensures forall p :: p in SortByValueDesc(unsorted) ==> p.value == multiset(keys)[p.name]
  {
    SortByValueDescSpec(unsorted);
    forall p | p in SortByValueDesc(unsorted)
      ensures p.value == multiset(keys)[p.name]
    {
      assert p in multiset(SortByValueDesc(unsorted));
      assert p in unsorted;
    }
  }

  /**
    * Across modules: after Security-Heavy the Duo card shows five more users and five more
    * bypass users, while the active and disabled counts are those of the original record.
    */
  lemma {:induction false} SecurityHeavyDuoCounts(data: ClientData)
    requires data.duo.Some? && data.duo.value.users.Some?
    ensures var before := StatusKeys(data.duo.value.users.value);
      var after := StatusKeys(ScenarioOf(data, SecurityHeavy).duo.value.users.value);
      && |after| == |before| + BYPASS_COUNT
      && multiset(after)["bypass"] == multiset(before)["bypass"] + BYPASS_COUNT
      && multiset(after)["active"] == multiset(before)["active"]
      && multiset(after)["disabled"] == multiset(before)["disabled"]
  {
    var users := data.duo.value.users.value;
    StatusKeysConcat(users, BypassUsers());
    var extra := StatusKeys(BypassUsers());
    assert extra == ["bypass", "bypass", "bypass", "bypass", "bypass"];
    assert multiset(extra) == multiset{"bypass", "bypass", "bypass", "bypass", "bypass"};
  }
}

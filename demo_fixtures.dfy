/**
  * The demo clients' figures as concrete witnesses: the Contoso license table, its Duo
  * users (39 active, 3 disabled) and its SentinelOne groups (11 servers, 39 laptops,
  * 10 desktops) give the chart series the dashboard shows.
  */
module DemoFixtures {
  import opened Wrappers
  import opened Seqs
  import opened Dicts
  import opened Sorting
  import opened DemoData
  import opened SummaryPage

  /** `Array.from({ length: n }, ...)` reduced to the one field that matters here. */
  function Repeat(x: string, n: nat): (r: seq<string>)
    ensures |r| == n
  {
    if n == 0 then [] else Repeat(x, n - 1) + [x]
  }

  lemma {:induction false} RepeatOnly(x: string, n: nat, y: string)
    requires y != x
    ensures y !in Repeat(x, n)
  {
    if n > 0 {
      RepeatOnly(x, n - 1, y);
    }
  }

  lemma {:induction false} PutAbsent<V>(d: Dict<V>, k: string, v: V)
    requires k !in Keys(d)
    ensures Put(d, k, v) == d + [(k, v)]
  {
    if d != [] {
      assert d[0].0 == Keys(d)[0];
      assert Keys(d[1..]) == Keys(d)[1..];
      PutAbsent(d[1..], k, v);
      assert d == [d[0]] + d[1..];
    }
  }

  lemma {:induction false} PutAfterLast<V>(d: Dict<V>, k: string, v: V, w: V)
    requires k !in Keys(d)
    ensures Get(d + [(k, w)], k) == Some(w)
    ensures Put(d + [(k, w)], k, v) == d + [(k, v)]
  {
    if d != [] {
      assert d[0].0 == Keys(d)[0];
      assert Keys(d[1..]) == Keys(d)[1..];
      PutAfterLast(d[1..], k, v, w);
      assert (d + [(k, w)])[1..] == d[1..] + [(k, w)];
      assert d == [d[0]] + d[1..];
    }
  }

  lemma {:induction false} TallyStep(keys: seq<string>, x: string)
    ensures Tally(keys + [x]) == Bump(Tally(keys), x)
  {
    assert (keys + [x])[..|keys|] == keys;
  }

  lemma {:induction false} TallyNewKey(xs: seq<string>, x: string)
    requires x !in xs
    ensures Tally(xs + [x]) == Tally(xs) + [(x, 1)]
  {
    TallyStep(xs, x);
    TallyKeys(xs);
    PutAbsent(Tally(xs), x, 1);
  }


  lemma {:induction false} BumpCount(d: Dict<nat>, k: string, next: nat)
    requires Get(d, k).GetOr(0) + 1 == next
    ensures Bump(d, k) == Put(d, k, next)
  {
  }

  /** Counting a run of a new key appends that key with the run's length. */
  lemma {:induction false} TallyRun(xs: seq<string>, x: string, n: nat)
    requires n > 0 && x !in xs
    ensures Tally(xs + Repeat(x, n)) == Tally(xs) + [(x, n)]
  {
    var init := xs + Repeat(x, n - 1);
    assert xs + Repeat(x, n) == init + [x];
    if n == 1 {
      assert init == xs;
      TallyNewKey(xs, x);
    } else {
      var before := Tally(xs);
      var prev: nat := n - 1;
      var last: Dict<nat> := before + [(x, prev)];
      TallyRun(xs, x, prev);
      TallyStep(init, x);
      TallyKeys(xs);
      PutAfterLast(before, x, n, prev);
      BumpCount(last, x, n);
      calc {
        Tally(init + [x]);
        Bump(Tally(init), x);
        Bump(last, x);
        Put(last, x, n);
        before + [(x, n)];
      }
    }
  }

  const CONTOSO_LICENSES: Dict<LicenseInfo> := [
    ("M365 E3", LicenseInfo(40, 10)),
    ("B. Premium", LicenseInfo(8, 2)),
    ("EXO P2", LicenseInfo(12, 3)),
    ("Power BI Pro", LicenseInfo(6, 1))]

  /** The Contoso license pie lists the four SKUs from most to least assigned. */
  lemma {:induction false} ContosoLicensePie(data: ClientData)
    requires data.m365.Some? && data.m365.value.licenseUtilization == Some(CONTOSO_LICENSES)
    ensures ChartData(data, M365).pie ==
      [Point("M365 E3", 40), Point("EXO P2", 12), Point("B. Premium", 8), Point("Power BI Pro", 6)]
  {
    var e3, bp, exo, bi := Point("M365 E3", 40), Point("B. Premium", 8), Point("EXO P2", 12), Point("Power BI Pro", 6);
    var points := LicensePoints(CONTOSO_LICENSES);
    assert points == [e3, bp, exo, bi];
    FilterAll(points, HasPositiveValue);
    ContosoLicenseSort();
  }

  lemma {:induction false} ContosoLicenseSort()
    ensures SortByValueDesc([Point("M365 E3", 40), Point("B. Premium", 8), Point("EXO P2", 12), Point("Power BI Pro", 6)])
      == [Point("M365 E3", 40), Point("EXO P2", 12), Point("B. Premium", 8), Point("Power BI Pro", 6)]
  {
    var e3, bp, exo, bi := Point("M365 E3", 40), Point("B. Premium", 8), Point("EXO P2", 12), Point("Power BI Pro", 6);
    assert [e3, bp, exo, bi][..3] == [e3, bp, exo];
    assert [e3, bp, exo][..2] == [e3, bp];
    assert [e3, bp][..1] == [e3];
    assert SortByValueDesc([e3]) == [e3];
    assert Insert([e3], bp) == [e3] + Insert([], bp);
    assert SortByValueDesc([e3, bp]) == [e3, bp];
    assert Insert([bp], exo) == [exo, bp];
    assert Insert([e3, bp], exo) == [e3] + Insert([bp], exo);
    assert SortByValueDesc([e3, bp, exo]) == [e3, exo, bp];
    assert Insert([bp], bi) == [bp] + Insert([], bi);
    assert Insert([exo, bp], bi) == [exo] + Insert([bp], bi);
    assert Insert([e3, exo, bp], bi) == [e3] + Insert([exo, bp], bi);
  }

  function DuoKeys(active: nat, disabled: nat): seq<string>
  {
    Repeat("active", active) + Repeat("disabled", disabled)
  }

  lemma {:induction false} DuoTally(active: nat, disabled: nat)
    requires active > 0 && disabled > 0
    ensures Tally(DuoKeys(active, disabled)) == [("active", active), ("disabled", disabled)]
  {
    TallyTwoRuns("active", active, "disabled", disabled);
  }

  /**
    * Duo users with `active` active then `disabled` disabled statuses (Contoso: 39 and 3)
    * chart as active then disabled.
    */
  lemma {:induction false} ContosoDuoChart(data: ClientData, active: nat, disabled: nat)
    requires active > 0 && disabled > 0
    requires data.duo.Some? && StatusKeys(data.duo.value.users.GetOr([])) == DuoKeys(active, disabled)
    ensures ChartData(data, Duo).pie == [Point("active", active), Point("disabled", disabled)]
  {
    DuoTally(active, disabled);
  }

  lemma {:induction false} HeavyDuoTally(active: nat, disabled: nat)
    requires active > 0 && disabled > 0
    ensures Tally(DuoKeys(active, disabled) + Repeat("bypass", 5))
      == [("active", active), ("disabled", disabled), ("bypass", 5)]
  {
    TallyThreeRuns("active", active, "disabled", disabled, "bypass", 5);
  }

  /** Security-Heavy turns that Duo chart into active, disabled, then five bypass users. */
  lemma {:induction false} SecurityHeavyDuoChart(data: ClientData, active: nat, disabled: nat)
    requires active > 0 && disabled > 0
    requires data.duo.Some? && data.duo.value.users.Some?
    requires StatusKeys(data.duo.value.users.value) == DuoKeys(active, disabled)
    ensures ChartData(ScenarioOf(data, SecurityHeavy), Duo).pie ==
      [Point("active", active), Point("disabled", disabled), Point("bypass", 5)]
  {
    var heavy := ScenarioOf(data, SecurityHeavy);
    StatusKeysConcat(data.duo.value.users.value, BypassUsers());
    assert StatusKeys(BypassUsers()) == Repeat("bypass", 5);
    assert StatusKeys(heavy.duo.value.users.GetOr([])) == DuoKeys(active, disabled) + Repeat("bypass", 5);
    HeavyDuoTally(active, disabled);
  }

  /** Agents listed group by group: servers, then laptops, then desktops. */
  function GroupRuns(servers: nat, laptops: nat, desktops: nat): seq<string>
  {
    Repeat("Servers", servers) + Repeat("Laptops", laptops) + Repeat("Desktops", desktops)
  }

  /** Two runs of distinct keys count as two entries, in run order. */
  lemma {:induction false} TallyTwoRuns(a: string, na: nat, b: string, nb: nat)
    requires na > 0 && nb > 0 && a != b
    ensures Tally(Repeat(a, na) + Repeat(b, nb)) == [(a, na), (b, nb)]
  {
    assert [] + Repeat(a, na) == Repeat(a, na);
    TallyRun([], a, na);
    RepeatOnly(a, na, b);
    TallyRun(Repeat(a, na), b, nb);
  }

  /** Three runs of distinct keys count as three entries, in run order. */
  lemma {:induction false} TallyThreeRuns(a: string, na: nat, b: string, nb: nat, c: string, nc: nat)
    requires na > 0 && nb > 0 && nc > 0
    requires a != b && a != c && b != c
    ensures Tally(Repeat(a, na) + Repeat(b, nb) + Repeat(c, nc)) == [(a, na), (b, nb), (c, nc)]
  {
    TallyTwoRuns(a, na, b, nb);
    RepeatOnly(a, na, c);
    RepeatOnly(b, nb, c);
    TallyRun(Repeat(a, na) + Repeat(b, nb), c, nc);
  }

  lemma {:induction false} GroupRunsPoints(servers: nat, laptops: nat, desktops: nat)
    requires servers > 0 && laptops > 0 && desktops > 0
    ensures CountPoints(Tally(GroupRuns(servers, laptops, desktops)))
      == [Point("Servers", servers), Point("Laptops", laptops), Point("Desktops", desktops)]
  {
    TallyThreeRuns("Servers", servers, "Laptops", laptops, "Desktops", desktops);
  }

  /** Three points whose middle one is largest and whose last one is smallest sort middle first. */
  lemma {:induction false} MiddleFirstSort(x: Point, y: Point, z: Point)
    requires y.value > x.value > z.value
    ensures SortByValueDesc([x, y, z]) == [y, x, z]
  {
    assert [x, y, z][..2] == [x, y];
    assert [x, y][..1] == [x];
    assert SortByValueDesc([x]) == [x];
    assert SortByValueDesc([x, y]) == [y, x];
    assert Insert([x], z) == [x] + Insert([], z);
    assert Insert([y, x], z) == [y] + Insert([x], z);
  }

  /**
    * Agents listed as servers, laptops, desktops with more laptops than servers and more
    * servers than desktops (Contoso: 11, 39 and 10) chart laptops first, then servers,
    * then desktops.
    */
  lemma {:induction false} ContosoS1Chart(data: ClientData, servers: nat, laptops: nat, desktops: nat)
    requires laptops > servers > desktops > 0
    requires data.s1.Some? && GroupKeys(data.s1.value.agents.GetOr([])) == GroupRuns(servers, laptops, desktops)
    ensures ChartData(data, SentinelOne).pie ==
      [Point("Laptops", laptops), Point("Servers", servers), Point("Desktops", desktops)]
  {
    GroupRunsPoints(servers, laptops, desktops);
    MiddleFirstSort(Point("Servers", servers), Point("Laptops", laptops), Point("Desktops", desktops));
  }
}

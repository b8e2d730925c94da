/** The Duo page: status metrics and one table row per Duo user. */
module DuoPage {
  import opened Wrappers
  import opened Dicts
  import opened DemoData
  import opened DataTable

  const HEADERS := ["Username", "Email", "Status"]

  /** A user's table row; a missing username, email or status becomes "". */
  function DuoRow(u: User): Row
  {
    [("username", u.username.GetOr("")), ("email", u.email.GetOr("")), ("status", u.status.GetOr(""))]
  }

  /** The number of users whose status key is `status`, as the page reads it from the histogram. */
  function StatusMetric(statuses: Dict<nat>, status: string): MetricValue
  {
    Num(Get(statuses, status).GetOr(0))
  }

  function DuoPageView(data: Option<DuoData>): (r: PageView)
    ensures r.Placeholder? <==> data.None?
  {
    if data.None? then Placeholder("No Duo data available")
    else
      var users := data.value.users.GetOr([]);
      var statuses := Tally(StatusKeys(users));
      Table(TableProps(
        "Duo Security",
        HEADERS,
        seq(|users|, i requires 0 <= i < |users| => DuoRow(users[i])),
        [ Metric("Users", Num(|users|)),
          Metric("Active", StatusMetric(statuses, "active")),
          Metric("Disabled", StatusMetric(statuses, "disabled")),
          Metric("Bypass", StatusMetric(statuses, "bypass")) ],
        Duo))
  }

  /**
    * The Active, Disabled and Bypass metrics count the users with that status (0 when it
    * never occurs), and the status histogram they are read from adds up to the user count.
    */
  lemma {:induction false} DuoPageMetrics(data: DuoData)
    ensures var users := data.users.GetOr([]);
      var keys := StatusKeys(users);
      && DuoPageView(Some(data)).props.metrics == [
           Metric("Users", Num(Len(data.users))),
           Metric("Active", Num(multiset(keys)["active"])),
           Metric("Disabled", Num(multiset(keys)["disabled"])),
           Metric("Bypass", Num(multiset(keys)["bypass"])) ]
      && SumValues(Tally(keys)) == |users|
  {
    var keys := StatusKeys(data.users.GetOr([]));
    TallyCount(keys, "active");
    TallyCount(keys, "disabled");
    TallyCount(keys, "bypass");
    TallySum(keys);
  }

  /**
    * One table row per user, in order. Row i holds the user's username, email and status
    * (each "" when missing) under three distinct keys, and the table shows them in the
    * Username, Email and Status columns, "-" standing for an empty value.
    */
  lemma {:induction false} DuoPageRows(data: DuoData, i: nat)
    requires i < Len(data.users)
    ensures var props := DuoPageView(Some(data)).props;
      var u := data.users.value[i];
      && |props.data| == Len(data.users)
      && Keys(props.data[i]) == ["username", "email", "status"]
      && props.data[i][0].1 == u.username.GetOr("")
      && props.data[i][1].1 == u.email.GetOr("")
      && props.data[i][2].1 == u.status.GetOr("")
      && var shown := RenderBody(props.headers, props.data)[i];
      && |shown| == 3
      && shown[0] == Shown(u.username.GetOr(""))
      && shown[1] == Shown(u.email.GetOr(""))
      && shown[2] == Shown(u.status.GetOr(""))
  {
    var props := DuoPageView(Some(data)).props;
    assert props.data[i] == DuoRow(data.users.value[i]);
    DuoRowKeys(data.users.value[i]);
    RenderedRowOfThree(props.headers, props.data, i);
  }

  lemma {:induction false} DuoRowKeys(u: User)
    ensures Keys(DuoRow(u)) == ["username", "email", "status"]
    ensures DistinctKeys(DuoRow(u))
  {
    assert Keys(DuoRow(u)) == ["username", "email", "status"];
  }

  /** A missing user list gives an empty table. */
  lemma {:induction false} DuoPageNoUsers(data: DuoData)
    requires data.users.None?
    ensures DuoPageView(Some(data)).props.data == []
  {
  }
}

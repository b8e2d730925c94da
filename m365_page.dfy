/** The Microsoft 365 page: list-size metrics and one table row per licensed user. */
module M365Page {
  import opened Wrappers
  import opened Dicts
  import opened Strings
  import opened DemoData
  import opened DataTable

  const HEADERS := ["User Principal Name", "Licenses", "Status"]

  /** A licensed user's row: principal name, number of licenses in decimal, "Active" or "Disabled". */
  function M365Row(u: User): Row
  {
    [ ("userPrincipalName", u.userPrincipalName.GetOr("")),
      ("licenses", DecimalString(Len(u.assignedLicenses))),
      ("status", if u.accountEnabled == Some(true) then "Active" else "Disabled") ]
  }

  function M365PageView(data: Option<M365Data>): (r: PageView)
    ensures r.Placeholder? <==> data.None?
  {
    if data.None? then Placeholder("No Microsoft 365 data available")
    else
      var m := data.value;
      var users := m.licensed.GetOr([]);
      Table(TableProps(
        "Microsoft 365",
        HEADERS,
        seq(|users|, i requires 0 <= i < |users| => M365Row(users[i])),
        [ Metric("Licensed", Num(Len(m.licensed))),
          Metric("Shared", Num(Len(m.shared))),
          Metric("Unlicensed", Num(Len(m.unlicensed))),
          Metric("DLs", Num(Len(m.distributionLists))),
          Metric("M365 Groups", Num(Len(m.groups))),
          Metric("Security Groups", Num(Len(m.securityGroups))) ],
        M365))
  }

  /** The six metrics are list lengths, 0 for a missing list, and each is at least 0. */
  lemma {:induction false} M365PageMetrics(m: M365Data)
    ensures var metrics := M365PageView(Some(m)).props.metrics;
      && |metrics| == 6
      && metrics[0].value.n == Len(m.licensed)
      && metrics[1].value.n == Len(m.shared)
      && metrics[2].value.n == Len(m.unlicensed)
      && metrics[3].value.n == Len(m.distributionLists)
      && metrics[4].value.n == Len(m.groups)
      && metrics[5].value.n == Len(m.securityGroups)
  {
  }

  /**
    * The table lists only the licensed users, one row each, in order. The Licenses cell
    * reads back as the number of assigned licenses (0 when the list is missing) and is
    * never shown as "-"; the first cell is the principal name ("" when missing); Status is
    * "Active" exactly when the account is enabled and "Disabled" otherwise.
    */
  lemma {:induction false} M365PageRows(m: M365Data, i: nat)
    requires i < Len(m.licensed)
    ensures var props := M365PageView(Some(m)).props;
      var u := m.licensed.value[i];
      var licenses := props.data[i][1].1;
      && |props.data| == Len(m.licensed)
      && Keys(props.data[i]) == ["userPrincipalName", "licenses", "status"]
      && (forall k :: 0 <= k < |licenses| ==> IsDigit(licenses[k]))
      && DecimalValue(licenses) == Len(u.assignedLicenses)
      && props.data[i][0].1 == u.userPrincipalName.GetOr("")
      && (props.data[i][2].1 == "Active" <==> u.accountEnabled == Some(true))
      && (u.accountEnabled != Some(true) ==> props.data[i][2].1 == "Disabled")
      && RenderBody(props.headers, props.data)[i][1] == licenses
  {
    var props := M365PageView(Some(m)).props;
    DecimalRoundTrip(Len(m.licensed.value[i].assignedLicenses));
    assert Keys(props.data[i]) == ["userPrincipalName", "licenses", "status"];
    RenderedCells(props.headers, props.data, i, 1);
  }
}

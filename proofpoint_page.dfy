/** The Proofpoint page: paid/functional metrics and one table row per Proofpoint user. */
module ProofpointPage {
  import opened Wrappers
  import opened Seqs
  import opened Dicts
  import opened DemoData
  import opened DataTable

  const HEADERS := ["Email", "Type", "Status"]

  /** A user's table row: email and type ("" when missing), and "Active" or "Inactive". */
  function ProofpointRow(u: User): Row
  {
    [ ("email", u.primaryEmail.GetOr("")),
      ("type", u.userType.GetOr("")),
      ("status", if IsActive(u) then "Active" else "Inactive") ]
  }

  function ProofpointPageView(data: Option<ProofpointData>): (r: PageView)
    ensures r.Placeholder? <==> data.None?
  {
    if data.None? then Placeholder("No Proofpoint data available")
    else
      var users := data.value.users.GetOr([]);
      var paid := |Filter(users, IsPaid)|;
      var functional := |users| - paid;
      Table(TableProps(
        "Proofpoint",
        HEADERS,
        seq(|users|, i requires 0 <= i < |users| => ProofpointRow(users[i])),
        [Metric("Users", Num(|users|)), Metric("Paid", Num(paid)), Metric("Functional", Num(functional))],
        Proofpoint))
  }

  /**
    * Paid plus functional is the user count: Functional counts exactly the users whose type is
    * "functional_account", and Paid every other user, including those with no type.
    */
  lemma {:induction false} ProofpointPageMetrics(data: ProofpointData)
    ensures var users := data.users.GetOr([]);
      var metrics := ProofpointPageView(Some(data)).props.metrics;
      && metrics[0] == Metric("Users", Num(Len(data.users)))
      && metrics[1] == Metric("Paid", Num(|Filter(users, IsPaid)|))
      && metrics[2] == Metric("Functional", Num(|Filter(users, IsFunctionalAccount)|))
      && metrics[1].value.n + metrics[2].value.n == Len(data.users)
  {
    FilterPartition(data.users.GetOr([]), IsPaid, IsFunctionalAccount);
  }

  /**
    * One table row per user, in order; a missing email shows as "-" in the table, and the
    * Status column reads "Active" exactly when `is_active` is truthy.
    */
  lemma {:induction false} ProofpointPageRows(data: ProofpointData, i: nat)
    requires i < Len(data.users)
    ensures var props := ProofpointPageView(Some(data)).props;
      var u := data.users.value[i];
      var shown := RenderBody(props.headers, props.data)[i];
      && |props.data| == Len(data.users)
      && Keys(props.data[i]) == ["email", "type", "status"]
      && props.data[i][0].1 == u.primaryEmail.GetOr("")
      && (props.data[i][2].1 == "Active" <==> IsActive(u))
      && (props.data[i][2].1 == "Inactive" <==> !IsActive(u))
      && |shown| == 3
      && shown[0] == Shown(u.primaryEmail.GetOr(""))
      && shown[1] == Shown(u.userType.GetOr(""))
      && shown[2] == props.data[i][2].1
  {
    var props := ProofpointPageView(Some(data)).props;
    assert props.data[i] == ProofpointRow(data.users.value[i]);
    ProofpointRowKeys(data.users.value[i]);
    RenderedRowOfThree(props.headers, props.data, i);
  }

  lemma {:induction false} ProofpointRowKeys(u: User)
    ensures Keys(ProofpointRow(u)) == ["email", "type", "status"]
    ensures DistinctKeys(ProofpointRow(u))
  {
    assert Keys(ProofpointRow(u)) == ["email", "type", "status"];
  }
}

/** The SentinelOne page: account, site and agent-total metrics, and one table row per agent. */
module S1Page {
  import opened Wrappers
  import opened Dicts
  import opened DemoData
  import opened DataTable

  const HEADERS := [
    "Account Name", "Site Name", "Group Name", "Device Name",
    "OS Version", "Agent Version", "Serial Number", "MAC Address"]

  const ROW_KEYS := [
    "account_name", "site_name", "group_name", "device_name",
    "os_version", "agent_version", "serial_number", "mac_address"]

  /** An agent's eight fields, in declared order. */
  function AgentFields(a: Agent): seq<string>
  {
    [a.accountName, a.siteName, a.groupName, a.deviceName, a.osVersion, a.agentVersion, a.serialNumber, a.macAddress]
  }

  function AgentRow(a: Agent): Row
  {
    var fields := AgentFields(a);
    seq(8, j requires 0 <= j < 8 => (ROW_KEYS[j], fields[j]))
  }

  function S1PageView(data: Option<S1Data>): (r: PageView)
    ensures r.Placeholder? <==> data.None?
  {
    if data.None? then Placeholder("No SentinelOne data available")
    else
      var s := data.value;
      var agents := s.agents.GetOr([]);
      Table(TableProps(
        "SentinelOne",
        HEADERS,
        seq(|agents|, i requires 0 <= i < |agents| => AgentRow(agents[i])),
        [ Metric("Account", Text(NameOrDash(s.accountName))),
          Metric("Site", Text(NameOrDash(s.siteName))),
          // `total_agents || 0`: the only falsy count is 0 itself, so the stored total is shown
          Metric("Agents", Num(s.totalAgents)) ],
        SentinelOne))
  }

  /**
    * Account and Site show the name when it is non-empty and "-" otherwise; Agents shows the record's displayed
    * total, which need not equal the number of agents listed.
    */
  lemma {:induction false} S1PageMetrics(s: S1Data)
    ensures var metrics := S1PageView(Some(s)).props.metrics;
      && (metrics[0].value == Text("-") <==> s.accountName.None? || s.accountName.value in {"", "-"})
      && (metrics[1].value == Text("-") <==> s.siteName.None? || s.siteName.value in {"", "-"})
      && (s.accountName.Some? && s.accountName.value != "" ==> metrics[0].value == Text(s.accountName.value))
      && (s.siteName.Some? && s.siteName.value != "" ==> metrics[1].value == Text(s.siteName.value))
      && metrics[2].value == Num(s.totalAgents)
  {
  }

  /**
    * One row per agent, in order, copying its eight fields unchanged under eight distinct
    * keys in declared order; the table shows field j in column j ("-" when empty).
    */
  lemma {:induction false} S1PageRows(s: S1Data, i: nat, j: nat)
    requires i < Len(s.agents) && j < 8
    ensures var props := S1PageView(Some(s)).props;
      && |props.data| == Len(s.agents)
      && Keys(props.data[i]) == ROW_KEYS
      && props.data[i][j].1 == AgentFields(s.agents.value[i])[j]
      && RenderBody(props.headers, props.data)[i][j] == Shown(AgentFields(s.agents.value[i])[j])
  {
    var props := S1PageView(Some(s)).props;
    assert Keys(props.data[i]) == ROW_KEYS;
    RenderedCells(props.headers, props.data, i, j);
  }

  /** A missing agent list gives an empty table. */
  lemma {:induction false} S1PageNoAgents(s: S1Data)
    requires s.agents.None?
    ensures S1PageView(Some(s)).props.data == []
  {
  }
}

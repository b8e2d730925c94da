/**
  * The tenant records the dashboard displays and the scenario presets that reshape them.
  * A record holds up to four service sub-records (Microsoft 365, Proofpoint, Duo and
  * SentinelOne); a missing sub-record means the service is not provisioned. Every list
  * inside a sub-record may itself be missing, because every consumer reads it with `?.`.
  */
module DemoData {
  import opened Wrappers
  import opened Seqs
  import opened Dicts
  import opened Strings

  /** A directory, Proofpoint or Duo user; each service fills in only its own fields. */
  datatype User = User(
    userPrincipalName: Option<string>,
    assignedLicenses: Option<seq<int>>,
    accountEnabled: Option<bool>,
    primaryEmail: Option<string>,
    userType: Option<string>,
    isActive: Option<bool>,
    username: Option<string>,
    email: Option<string>,
    status: Option<string>)

  datatype SharedMailbox = SharedMailbox(displayName: string, primarySmtpAddress: string)

  datatype Group = Group(displayName: string, mail: Option<string>)

  /** A license row; the source field `assigned` is a reserved word in Dafny, hence `assignedCount`. */
  datatype LicenseInfo = LicenseInfo(assignedCount: int, available: int)

  datatype Agent = Agent(
    accountName: string,
    siteName: string,
    groupName: string,
    deviceName: string,
    osVersion: string,
    agentVersion: string,
    serialNumber: string,
    macAddress: string)

  datatype M365Data = M365Data(
    licensed: Option<seq<User>>,
    unlicensed: Option<seq<User>>,
    shared: Option<seq<SharedMailbox>>,
    distributionLists: Option<seq<Group>>,
    groups: Option<seq<Group>>,
    securityGroups: Option<seq<Group>>,
    licenseUtilization: Option<Dict<LicenseInfo>>)

  datatype ProofpointData = ProofpointData(users: Option<seq<User>>)

  datatype DuoData = DuoData(users: Option<seq<User>>)

  datatype S1Data = S1Data(
    accountName: Option<string>,
    siteName: Option<string>,
    totalAgents: int,
    agents: Option<seq<Agent>>)

  /** A tenant record; `pp` is Proofpoint and `s1` is SentinelOne. */
  datatype ClientData = ClientData(
    m365: Option<M365Data>,
    pp: Option<ProofpointData>,
    duo: Option<DuoData>,
    s1: Option<S1Data>)

  /** `{}`: no service provisioned. */
  const NO_SERVICES := ClientData(None, None, None, None)

  /** The four services, as the summary focus and the table's `service` prop name them. */
  datatype Service = M365 | Proofpoint | Duo | SentinelOne

  /** `xs?.length || 0`. */
  function Len<T>(xs: Option<seq<T>>): nat
  {
    if xs.Some? then |xs.value| else 0
  }

  /** `name || "-"`. */
  function NameOrDash(name: Option<string>): string
  {
    if name.Some? && name.value != "" then name.value else "-"
  }

  /** A Duo user's status key, `user.status || "unknown"`: a missing or empty status counts as "unknown". */
  function StatusKey(u: User): string
  {
    if u.status.Some? && u.status.value != "" then u.status.value else "unknown"
  }

  /** The status key of every user, in order. */
  function StatusKeys(users: seq<User>): (keys: seq<string>)
    ensures |keys| == |users|
    ensures forall i :: 0 <= i < |users| ==> keys[i] == StatusKey(users[i])
  {
    seq(|users|, i requires 0 <= i < |users| => StatusKey(users[i]))
  }

  lemma {:induction false} StatusKeysConcat(a: seq<User>, b: seq<User>)
    ensures StatusKeys(a + b) == StatusKeys(a) + StatusKeys(b)
  {
  }

  /** A Proofpoint user is paid when `u.type !== "functional_account"`, which includes a missing type. */
  predicate IsPaid(u: User)
  {
    u.userType != Some("functional_account")
  }

  /** The complement of IsPaid, stated on its own. */
  predicate IsFunctionalAccount(u: User)
  {
    u.userType.Some? && u.userType.value == "functional_account"
  }

  /** `u.is_active` is truthy. */
  predicate IsActive(u: User)
  {
    u.isActive == Some(true)
  }

  predicate IsInactive(u: User)
  {
    u.isActive.None? || !u.isActive.value
  }

  // ---------------------------------------------------------------------------
  // Scenarios

  datatype Scenario = Default | LightTenant | SecurityHeavy | Empty

  const LIGHT_LICENSED_CAP: nat := 10
  const LIGHT_PROOFPOINT_CAP: nat := 12
  const LIGHT_DUO_CAP: nat := 10
  const LIGHT_TOTAL_AGENTS := 12
  const HEAVY_MIN_TOTAL_AGENTS := 150
  const BYPASS_COUNT := 5

  /** The n-th synthetic bypass user (n counts from 1). */
  function BypassUser(n: nat): User
  {
    var name := "bypass" + DecimalString(n);
    User(None, None, None, None, None, None, Some(name), Some(name + "@example.com"), Some("bypass"))
  }

  /** `Array.from({ length: 5 }, (_, i) => bypass user i + 1)`. */
  function BypassUsers(): (us: seq<User>)
    ensures |us| == BYPASS_COUNT
  {
    seq(BYPASS_COUNT, i requires 0 <= i < BYPASS_COUNT => BypassUser(i + 1))
  }

  function Max(a: int, b: int): int
  {
    if a >= b then a else b
  }

  /** Keeps at most the first `cap` users of a list that is present. */
  function Truncate(users: Option<seq<User>>, cap: nat): Option<seq<User>>
  {
    if users.Some? then Some(Prefix(users.value, cap)) else None
  }

  /**
    * What each scenario makes of a record: the specification that ApplyScenario is proved
    * against, one service at a time.
    */
  function ScenarioOf(data: ClientData, scenario: Scenario): ClientData
  {
    match scenario
    case Default => data
    case Empty => NO_SERVICES
    case LightTenant =>
      ClientData(
        if data.m365.Some? then Some(data.m365.value.(licensed := Truncate(data.m365.value.licensed, LIGHT_LICENSED_CAP))) else None,
        if data.pp.Some? then Some(ProofpointData(Truncate(data.pp.value.users, LIGHT_PROOFPOINT_CAP))) else None,
        if data.duo.Some? then Some(DuoData(Truncate(data.duo.value.users, LIGHT_DUO_CAP))) else None,
        if data.s1.Some? then Some(data.s1.value.(totalAgents := LIGHT_TOTAL_AGENTS)) else None)
    case SecurityHeavy =>
      data.(
        duo := if data.duo.Some? && data.duo.value.users.Some? then Some(DuoData(Some(data.duo.value.users.value + BypassUsers()))) else data.duo,
        s1 := if data.s1.Some? then Some(data.s1.value.(totalAgents := Max(HEAVY_MIN_TOTAL_AGENTS, data.s1.value.totalAgents))) else None)
  }

  /**
    * `applyScenario`: works on a private copy of the record, reassigning and appending
    * to its lists step by step. The copy is a value, so the caller's record is untouched.
    */
  method ApplyScenario(data: ClientData, scenario: Scenario) returns (result: ClientData)
    ensures result == ScenarioOf(data, scenario)
  {
    result := data;
    match scenario {
      case LightTenant =>
        if result.m365.Some? && result.m365.value.licensed.Some? {
          var m365 := result.m365.value;
          result := result.(m365 := Some(m365.(licensed := Some(Prefix(m365.licensed.value, LIGHT_LICENSED_CAP)))));
        }
        if result.pp.Some? && result.pp.value.users.Some? {
          result := result.(pp := Some(ProofpointData(Some(Prefix(result.pp.value.users.value, LIGHT_PROOFPOINT_CAP)))));
        }
        if result.duo.Some? && result.duo.value.users.Some? {
          result := result.(duo := Some(DuoData(Some(Prefix(result.duo.value.users.value, LIGHT_DUO_CAP)))));
        }
        if result.s1.Some? {
          result := result.(s1 := Some(result.s1.value.(totalAgents := LIGHT_TOTAL_AGENTS)));
        }
      case SecurityHeavy =>
        if result.duo.Some? && result.duo.value.users.Some? {
          var users := result.duo.value.users.value;
          users := users + BypassUsers();
          result := result.(duo := Some(DuoData(Some(users))));
        }
        if result.s1.Some? {
          result := result.(s1 := Some(result.s1.value.(totalAgents := Max(HEAVY_MIN_TOTAL_AGENTS, result.s1.value.totalAgents))));
        }
      case Empty =>
        return NO_SERVICES;
      case Default =>
    }
  }

  /** Default returns a record equal to its input. */
  lemma {:induction false} DefaultIsIdentity(data: ClientData)
    ensures ScenarioOf(data, Default) == data
  {
  }

  /** Empty discards the input: every sub-record is absent. */
  lemma {:induction false} EmptyHasNoServices(data: ClientData)
    ensures var r := ScenarioOf(data, Empty);
      r.m365.None? && r.pp.None? && r.duo.None? && r.s1.None?
  {
  }

  /** Under every scenario a missing sub-record stays missing. */
  lemma {:induction false} AbsentStaysAbsent(data: ClientData, scenario: Scenario)
    ensures var r := ScenarioOf(data, scenario);
      && (data.m365.None? ==> r.m365.None?)
      && (data.pp.None? ==> r.pp.None?)
      && (data.duo.None? ==> r.duo.None?)
      && (data.s1.None? ==> r.s1.None?)
  {
  }

  /**
    * Every scenario but Empty keeps every present sub-record present and leaves the fields
    * no rule names as they were: the M365 lists other than `licensed`, the license table,
    * SentinelOne's names and agents.
    */
  lemma {:induction false} UnnamedFieldsUnchanged(data: ClientData, scenario: Scenario)
    requires scenario != Empty
    ensures var r := ScenarioOf(data, scenario);
      && (data.m365.Some? <==> r.m365.Some?)
      && (data.pp.Some? <==> r.pp.Some?)
      && (data.duo.Some? <==> r.duo.Some?)
      && (data.s1.Some? <==> r.s1.Some?)
      && (data.m365.Some? ==> r.m365.value.(licensed := data.m365.value.licensed) == data.m365.value)
      && (data.s1.Some? ==> r.s1.value.(totalAgents := data.s1.value.totalAgents) == data.s1.value)
  {
  }

  /** A list cut by Light Tenant is the order-preserving prefix of length min(n, cap). */
  predicate IsCapPrefix(before: Option<seq<User>>, after: Option<seq<User>>, cap: nat)
  {
    && (before.None? <==> after.None?)
    && (before.Some? ==>
          && |after.value| == (if |before.value| <= cap then |before.value| else cap)
          && after.value == before.value[..|after.value|])
  }

  /**
    * Light Tenant keeps the first 10 licensed M365 users, the first 12 Proofpoint users
    * and the first 10 Duo users, and sets the displayed SentinelOne agent total to 12
    * without touching the agent list.
    */
  lemma {:induction false} LightTenantCaps(data: ClientData)
    ensures var r := ScenarioOf(data, LightTenant);
      && (data.m365.Some? ==> IsCapPrefix(data.m365.value.licensed, r.m365.value.licensed, LIGHT_LICENSED_CAP))
      && (data.pp.Some? ==> IsCapPrefix(data.pp.value.users, r.pp.value.users, LIGHT_PROOFPOINT_CAP))
      && (data.duo.Some? ==> IsCapPrefix(data.duo.value.users, r.duo.value.users, LIGHT_DUO_CAP))
      && (data.s1.Some? ==> r.s1.value.totalAgents == 12 && r.s1.value.agents == data.s1.value.agents)
  {
  }

  /** Light Tenant never lengthens a list, and a list already within its cap is unchanged. */
  lemma {:induction false} LightTenantWithinCapUnchanged(data: ClientData)
    requires data.duo.Some? && data.duo.value.users.Some?
    ensures var r := ScenarioOf(data, LightTenant);
      && |r.duo.value.users.value| <= |data.duo.value.users.value|
      && (|data.duo.value.users.value| <= LIGHT_DUO_CAP ==> r.duo == data.duo)
  {
  }

  /** Applying Light Tenant twice gives what applying it once gives. */
  lemma {:induction false} LightTenantIdempotent(data: ClientData)
    ensures ScenarioOf(ScenarioOf(data, LightTenant), LightTenant) == ScenarioOf(data, LightTenant)
  {
  }

  /**
    * Security-Heavy appends exactly five users after the unchanged existing Duo users:
    * user k (k = 1..5) is `bypassk`, `bypassk@example.com`, status "bypass".
    */
  lemma {:induction false} SecurityHeavyAppendsBypassUsers(data: ClientData)
    requires data.duo.Some? && data.duo.value.users.Some?
    ensures var before := data.duo.value.users.value;
      var after := ScenarioOf(data, SecurityHeavy).duo.value.users.value;
      && |after| == |before| + 5
      && after[..|before|] == before
      && forall k :: 1 <= k <= 5 ==>
           && after[|before| + k - 1].username == Some("bypass" + DecimalString(k))
           && after[|before| + k - 1].email == Some("bypass" + DecimalString(k) + "@example.com")
           && after[|before| + k - 1].status == Some("bypass")
  {
    var before := data.duo.value.users.value;
    assert ScenarioOf(data, SecurityHeavy).duo.value.users.value == before + BypassUsers();
  }

  /**
    * Security-Heavy raises the displayed SentinelOne agent total to at least 150 and never
    * lowers it; the agent list and every other sub-record but Duo are left as they were.
    */
  lemma {:induction false} SecurityHeavyTotalAgents(data: ClientData)
    ensures var r := ScenarioOf(data, SecurityHeavy);
      && r.m365 == data.m365 && r.pp == data.pp
      && (data.s1.Some? ==>
            && r.s1.value.totalAgents >= HEAVY_MIN_TOTAL_AGENTS
            && r.s1.value.totalAgents >= data.s1.value.totalAgents
            && (r.s1.value.totalAgents == HEAVY_MIN_TOTAL_AGENTS || r.s1.value.totalAgents == data.s1.value.totalAgents)
            && r.s1.value.agents == data.s1.value.agents)
  {
  }
}

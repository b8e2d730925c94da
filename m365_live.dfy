/**
  * The development-only live Microsoft 365 loader: its guards, the failure of each request
  * it makes, and how it reshapes the Graph answers into the dashboard's M365 record.
  * The requests themselves are not modelled: each one is a parameter holding what the
  * endpoint answered.
  */
module M365Live {
  import opened Wrappers
  import opened Seqs
  import opened Dicts
  import opened DemoData

  const USERS_URL := "https://graph.microsoft.com/v1.0/users?$select=userPrincipalName,accountEnabled,assignedLicenses&$top=999"
  const GROUPS_URL := "https://graph.microsoft.com/v1.0/groups?$select=displayName,mail,groupTypes,securityEnabled&$top=999"
  const SKUS_URL := "https://graph.microsoft.com/v1.0/subscribedSkus"

  /** The two build-time settings the loader reads: `PROD` and `VITE_USE_LOCAL_CREDS`. */
  datatype BuildEnv = BuildEnv(prod: bool, useLocalCreds: Option<string>)

  datatype LocalCreds = LocalCreds(tenantId: string, clientId: string, clientSecret: string)

  /**
    * What a `fetch` gave: no answer at all, or a status with the body read as JSON of the
    * expected shape. `body` is None when reading it would throw: `res.json()` rejects, or
    * (for a Graph list) the object has no `value` array, so the `filter` or `for ... of`
    * that follows throws.
    */
  datatype Response<T> = NetworkFailure | Reply(status: int, body: Option<T>)

  /** `res.ok`: a status in the range 200-299. */
  predicate IsOk(status: int)
  {
    200 <= status <= 299
  }

  /** A 2xx answer whose body could be read. */
  predicate Answered<T>(resp: Response<T>)
  {
    resp.Reply? && IsOk(resp.status) && resp.body.Some?
  }

  /** Why the loader threw. */
  datatype LoadError =
    | DevOnly
    | LocalCredsNotEnabled
    | CredsUnavailable
    | NetworkError
    | TokenError(status: int)
    | GraphError(status: int, url: string)
    | MalformedToken
    | MalformedResponse(url: string)

  /** The failure of a token request that was not answered with a readable 2xx body. */
  function TokenFailure(resp: Response<string>): (e: LoadError)
    requires !Answered(resp)
    ensures resp.NetworkFailure? <==> e == NetworkError
    ensures e.TokenError? <==> resp.Reply? && !IsOk(resp.status)
    ensures e.TokenError? ==> e.status == resp.status
    ensures resp.Reply? && IsOk(resp.status) <==> e == MalformedToken
  {
    if resp.NetworkFailure? then NetworkError
    else if !IsOk(resp.status) then TokenError(resp.status)
    else MalformedToken
  }

  /** The failure of a Graph request that was not answered with a readable 2xx body. */
  function GraphFailure<T>(resp: Response<T>, url: string): (e: LoadError)
    requires !Answered(resp)
    ensures resp.NetworkFailure? <==> e == NetworkError
    ensures e.GraphError? <==> resp.Reply? && !IsOk(resp.status)
    ensures e.GraphError? ==> e.status == resp.status && e.url == url
    ensures resp.Reply? && IsOk(resp.status) <==> e == MalformedResponse(url)
  {
    if resp.NetworkFailure? then NetworkError
    else if !IsOk(resp.status) then GraphError(resp.status, url)
    else MalformedResponse(url)
  }

  /** The loader runs only outside production and with the flag spelled exactly "true". */
  predicate Permitted(env: BuildEnv)
  {
    !env.prod && env.useLocalCreds == Some("true")
  }

  // ---------------------------------------------------------------------------
  // Graph shapes

  datatype GraphUser = GraphUser(userPrincipalName: string, accountEnabled: Option<bool>, assignedLicenses: Option<seq<int>>)

  datatype GraphGroup = GraphGroup(displayName: string, mail: Option<string>, groupTypes: Option<seq<string>>, securityEnabled: Option<bool>)

  datatype PrepaidUnits = PrepaidUnits(enabled: Option<int>)

  datatype Sku = Sku(skuPartNumber: string, consumedUnits: Option<int>, prepaidUnits: Option<PrepaidUnits>)

  /** `u.assignedLicenses?.length ?? 0`. */
  function LicenseCount(u: GraphUser): nat
  {
    if u.assignedLicenses.Some? then |u.assignedLicenses.value| else 0
  }

  predicate HasLicenses(u: GraphUser)
  {
    LicenseCount(u) > 0
  }

  predicate HasNoLicenses(u: GraphUser)
  {
    LicenseCount(u) == 0
  }

  /** A Graph user kept as the dashboard's user record, with the three selected fields. */
  function AsUser(u: GraphUser): User
  {
    User(Some(u.userPrincipalName), u.assignedLicenses, u.accountEnabled, None, None, None, None, None, None)
  }

  function AsUsers(us: seq<GraphUser>): (r: seq<User>)
    ensures |r| == |us|
    ensures forall i :: 0 <= i < |us| ==> r[i] == AsUser(us[i])
  {
    seq(|us|, i requires 0 <= i < |us| => AsUser(us[i]))
  }

  /** `g.groupTypes?.includes("Unified")`. */
  predicate IsUnified(g: GraphGroup)
  {
    g.groupTypes.Some? && "Unified" in g.groupTypes.value
  }

  /** `g.securityEnabled` is truthy. */
  predicate IsSecurityEnabled(g: GraphGroup)
  {
    g.securityEnabled == Some(true)
  }

  /** `!g.groupTypes?.includes("Unified") && !g.securityEnabled`. */
  predicate IsDistributionList(g: GraphGroup)
  {
    !IsUnified(g) && !IsSecurityEnabled(g)
  }

  predicate IsNotDistributionList(g: GraphGroup)
  {
    IsUnified(g) || IsSecurityEnabled(g)
  }

  /** `{ displayName, mail }`. */
  function AsGroups(gs: seq<GraphGroup>): (r: seq<Group>)
    ensures |r| == |gs|
    ensures forall i :: 0 <= i < |gs| ==> r[i] == Group(gs[i].displayName, gs[i].mail)
  {
    seq(|gs|, i requires 0 <= i < |gs| => Group(gs[i].displayName, gs[i].mail))
  }

  /**
    * One SKU's row: assigned is `consumedUnits ?? 0`, available is what the prepaid
    * enabled units leave over, floored at zero.
    */
  function SkuInfo(s: Sku): (info: LicenseInfo)
    ensures info.assignedCount == s.consumedUnits.GetOr(0)
    ensures info.available >= 0
    ensures var enabled := if s.prepaidUnits.Some? then s.prepaidUnits.value.enabled.GetOr(0) else 0;
      info.available >= enabled - info.assignedCount
      && (info.available == 0 || info.available == enabled - info.assignedCount)
      && info.available == Max(enabled - info.assignedCount, 0)
  {
    var assignedUnits := s.consumedUnits.GetOr(0);
    var enabled := if s.prepaidUnits.Some? then s.prepaidUnits.value.enabled.GetOr(0) else 0;
    LicenseInfo(assignedUnits, Max(enabled - assignedUnits, 0))
  }

  function SkuNames(skus: seq<Sku>): (names: seq<string>)
    ensures |names| == |skus|
    ensures forall i :: 0 <= i < |skus| ==> names[i] == skus[i].skuPartNumber
  {
    seq(|skus|, i requires 0 <= i < |skus| => skus[i].skuPartNumber)
  }

  /**
    * The license table the loop builds: `license_utilization[s.skuPartNumber] = ...` for
    * each SKU in turn, so a later SKU with the same part number overwrites the earlier row
    * in its original position.
    */
  function LicenseTable(skus: seq<Sku>): Dict<LicenseInfo>
  {
    if skus == [] then []
    else
      var last := skus[|skus| - 1];
      Put(LicenseTable(skus[..|skus| - 1]), last.skuPartNumber, SkuInfo(last))
  }

  /** The last SKU with part number `k`, if any. */
  function LastSku(skus: seq<Sku>, k: string): (r: Option<Sku>)
    ensures r.Some? <==> k in SkuNames(skus)
    ensures r.Some? ==> r.value in skus && r.value.skuPartNumber == k
  {
    if skus == [] then None
    else if skus[|skus| - 1].skuPartNumber == k then Some(skus[|skus| - 1])
    else
      var r := LastSku(skus[..|skus| - 1], k);
      assert SkuNames(skus) == SkuNames(skus[..|skus| - 1]) + [skus[|skus| - 1].skuPartNumber];
      r
  }

  /** The `for (const s of skus.value)` loop, writing one row per SKU. */
  method BuildLicenseUtilization(skus: seq<Sku>) returns (table: Dict<LicenseInfo>)
    ensures table == LicenseTable(skus)
  {
    table := [];
    for i := 0 to |skus|
      invariant table == LicenseTable(skus[..i])
    {
      assert skus[..i + 1][..i] == skus[..i];
      var s := skus[i];
      var assignedUnits := s.consumedUnits.GetOr(0);
      var available := (if s.prepaidUnits.Some? then s.prepaidUnits.value.enabled.GetOr(0) else 0) - assignedUnits;
      table := Put(table, s.skuPartNumber, LicenseInfo(assignedUnits, Max(available, 0)));
    }
    assert skus[..|skus|] == skus;
  }

  /** The M365 record built from the three Graph answers; no shared mailboxes are mapped. */
  function Reshape(users: seq<GraphUser>, groups: seq<GraphGroup>, skus: seq<Sku>): (r: M365Data)
    ensures r.licensed.Some? && r.unlicensed.Some? && r.shared == Some([])
    ensures |r.licensed.value| + |r.unlicensed.value| == |users|
    ensures r.distributionLists.Some? && r.groups.Some? && r.securityGroups.Some?
    ensures |r.distributionLists.value| + |Filter(groups, IsNotDistributionList)| == |groups|
    ensures r.licenseUtilization.Some? && Keys(r.licenseUtilization.value) == FirstSeen(SkuNames(skus))
  {
    FilterPartition(users, HasLicenses, HasNoLicenses);
    FilterPartition(groups, IsDistributionList, IsNotDistributionList);
    LicenseTableKeys(skus);
    M365Data(
      Some(AsUsers(Filter(users, HasLicenses))),
      Some(AsUsers(Filter(users, HasNoLicenses))),
      Some([]),
      Some(AsGroups(Filter(groups, IsDistributionList))),
      Some(AsGroups(Filter(groups, IsUnified))),
      Some(AsGroups(Filter(groups, IsSecurityEnabled))),
      Some(LicenseTable(skus)))
  }

  /**
    * `loadM365LiveData`: the two guards, then the credentials, the token request and the
    * three Graph requests in order; the first failure is the one reported. `token`,
    * `users`, `groups` and `skus` are what each endpoint answered.
    */
  method LoadM365LiveData(env: BuildEnv, creds: Option<LocalCreds>, token: Response<string>,
                          users: Response<seq<GraphUser>>, groups: Response<seq<GraphGroup>>,
                          skus: Response<seq<Sku>>)
    returns (r: Result<ClientData, LoadError>)
    ensures env.prod ==> r == Failure(DevOnly)
    ensures !env.prod && env.useLocalCreds != Some("true") ==> r == Failure(LocalCredsNotEnabled)
    ensures Permitted(env) && creds.None? ==> r == Failure(CredsUnavailable)
    ensures Permitted(env) && creds.Some? && !Answered(token) ==> r == Failure(TokenFailure(token))
    ensures Permitted(env) && creds.Some? && Answered(token) && !Answered(users) ==>
      r == Failure(GraphFailure(users, USERS_URL))
    ensures Permitted(env) && creds.Some? && Answered(token) && Answered(users) && !Answered(groups) ==>
      r == Failure(GraphFailure(groups, GROUPS_URL))
    ensures Permitted(env) && creds.Some? && Answered(token) && Answered(users) && Answered(groups) && !Answered(skus) ==>
      r == Failure(GraphFailure(skus, SKUS_URL))
    ensures r.Success? <==>
      Permitted(env) && creds.Some? && Answered(token) && Answered(users) && Answered(groups) && Answered(skus)
    ensures r.Success? ==> r.value == ClientData(Some(Reshape(users.body.value, groups.body.value, skus.body.value)), None, None, None)
  {
    if env.prod {
      return Failure(DevOnly);
    }
    if env.useLocalCreds != Some("true") {
      return Failure(LocalCredsNotEnabled);
    }
    if creds.None? {
      return Failure(CredsUnavailable);
    }
    if !Answered(token) {
      return Failure(TokenFailure(token));
    }
    if !Answered(users) {
      return Failure(GraphFailure(users, USERS_URL));
    }
    var licensed := AsUsers(Filter(users.body.value, HasLicenses));
    var unlicensed := AsUsers(Filter(users.body.value, HasNoLicenses));
    var shared: seq<SharedMailbox> := [];
    if !Answered(groups) {
      return Failure(GraphFailure(groups, GROUPS_URL));
    }
    var distributionLists := AsGroups(Filter(groups.body.value, IsDistributionList));
    var unified := AsGroups(Filter(groups.body.value, IsUnified));
    var securityGroups := AsGroups(Filter(groups.body.value, IsSecurityEnabled));
    if !Answered(skus) {
      return Failure(GraphFailure(skus, SKUS_URL));
    }
    var table := BuildLicenseUtilization(skus.body.value);
    var m365 := M365Data(Some(licensed), Some(unlicensed), Some(shared), Some(distributionLists),
                         Some(unified), Some(securityGroups), Some(table));
    r := Success(ClientData(Some(m365), None, None, None));
  }

  // ---------------------------------------------------------------------------
  // Properties of the reshaping

  /**
    * Every Graph user lands in exactly one of licensed and unlicensed: the two lists add
    * up to the users, licensed users hold at least one license and unlicensed ones none.
    * No shared mailbox is ever listed.
    */
  lemma {:induction false} UsersPartitioned(users: seq<GraphUser>)
    ensures var m := Reshape(users, [], []);
      && |m.licensed.value| + |m.unlicensed.value| == |users|
      && multiset(Filter(users, HasLicenses)) + multiset(Filter(users, HasNoLicenses)) == multiset(users)
      && (forall u :: u in m.licensed.value ==> u.assignedLicenses.Some? && |u.assignedLicenses.value| > 0)
      && (forall u :: u in m.unlicensed.value ==> u.assignedLicenses.None? || u.assignedLicenses.value == [])
      && m.shared == Some([])
  {
    FilterPartition(users, HasLicenses, HasNoLicenses);
    var m := Reshape(users, [], []);
    forall u | u in m.licensed.value
      ensures u.assignedLicenses.Some? && |u.assignedLicenses.value| > 0
    {
      var i :| 0 <= i < |m.licensed.value| && m.licensed.value[i] == u;
      assert Filter(users, HasLicenses)[i] in Filter(users, HasLicenses);
    }
    forall u | u in m.unlicensed.value
      ensures u.assignedLicenses.None? || u.assignedLicenses.value == []
    {
      var i :| 0 <= i < |m.unlicensed.value| && m.unlicensed.value[i] == u;
      assert Filter(users, HasNoLicenses)[i] in Filter(users, HasNoLicenses);
    }
  }

  /**
    * Every Graph group is listed somewhere: it is a distribution list exactly when it is
    * neither a Microsoft 365 group nor a security group, and a group that is both
    * "Unified" and security-enabled appears in both of those lists.
    */
  lemma {:induction false} GroupsClassified(groups: seq<GraphGroup>)
    ensures var dls := Filter(groups, IsDistributionList);
      var unified := Filter(groups, IsUnified);
      var security := Filter(groups, IsSecurityEnabled);
      && (forall g :: g in groups ==> (g in dls <==> g !in unified && g !in security))
      && (forall g :: g in groups && IsUnified(g) && IsSecurityEnabled(g) ==> g in unified && g in security)
      && |dls| + |Filter(groups, IsNotDistributionList)| == |groups|
      && |unified| + |security| >= |Filter(groups, IsNotDistributionList)|
  {
    FilterPartition(groups, IsDistributionList, IsNotDistributionList);
    NotDistributionListCount(groups);
  }

  lemma {:induction false} NotDistributionListCount(groups: seq<GraphGroup>)
    ensures |Filter(groups, IsUnified)| + |Filter(groups, IsSecurityEnabled)| >= |Filter(groups, IsNotDistributionList)|
  {
    if groups != [] {
      NotDistributionListCount(groups[1..]);
    }
  }

  /** The table's part numbers are the SKUs' distinct part numbers, in first-seen order. */
  lemma {:induction false} LicenseTableKeys(skus: seq<Sku>)
    ensures Keys(LicenseTable(skus)) == FirstSeen(SkuNames(skus))
  {
    if skus != [] {
      var init, last := skus[..|skus| - 1], skus[|skus| - 1];
      LicenseTableKeys(init);
      PutKeys(LicenseTable(init), last.skuPartNumber, SkuInfo(last));
      assert SkuNames(skus)[..|skus| - 1] == SkuNames(init);
    }
  }

  /**
    * Looking up a part number gives the row of the LAST SKU carrying it, and nothing for a
    * part number no SKU carries.
    */
  lemma {:induction false} LicenseTableLastWins(skus: seq<Sku>, k: string)
    ensures Get(LicenseTable(skus), k) == if LastSku(skus, k).Some? then Some(SkuInfo(LastSku(skus, k).value)) else None
  {
    if skus != [] {
      var init, last := skus[..|skus| - 1], skus[|skus| - 1];
      LicenseTableLastWins(init, k);
      PutGet(LicenseTable(init), last.skuPartNumber, SkuInfo(last), k);
    }
  }

  /** Every row of the table has a non-negative available count and no part number repeats. */
  lemma {:induction false} LicenseTableRows(skus: seq<Sku>)
    ensures DistinctKeys(LicenseTable(skus))
    ensures forall i :: 0 <= i < |LicenseTable(skus)| ==> LicenseTable(skus)[i].1.available >= 0
  {
    LicenseTableKeys(skus);
    var table := LicenseTable(skus);
    forall i | 0 <= i < |table|
      ensures table[i].1.available >= 0
    {
      GetAt(table, i);
      LicenseTableLastWins(skus, table[i].0);
    }
  }

  /** A concrete table: a repeated part number keeps its first position and its last values. */
  lemma {:induction false} RepeatedSkuExample()
    ensures LicenseTable([
      Sku("ENTERPRISEPACK", Some(40), Some(PrepaidUnits(Some(50)))),
      Sku("EMS", Some(12), None),
      Sku("ENTERPRISEPACK", Some(45), Some(PrepaidUnits(Some(44))))])
      == [("ENTERPRISEPACK", LicenseInfo(45, 0)), ("EMS", LicenseInfo(12, 0))]
  {
    var a := Sku("ENTERPRISEPACK", Some(40), Some(PrepaidUnits(Some(50))));
    var b := Sku("EMS", Some(12), None);
    var c := Sku("ENTERPRISEPACK", Some(45), Some(PrepaidUnits(Some(44))));
    assert [a, b, c][..2] == [a, b];
    assert [a, b][..1] == [a];
    assert [a][..0] == [];
    assert LicenseTable([a]) == [("ENTERPRISEPACK", LicenseInfo(40, 10))];
    var first := [("ENTERPRISEPACK", LicenseInfo(40, 10))];
    assert first[1..] == [];
    assert Put(first, "EMS", SkuInfo(b)) == [first[0]] + Put(first[1..], "EMS", SkuInfo(b));
    assert LicenseTable([a, b]) == [("ENTERPRISEPACK", LicenseInfo(40, 10)), ("EMS", LicenseInfo(12, 0))];
    var second := [("ENTERPRISEPACK", LicenseInfo(40, 10)), ("EMS", LicenseInfo(12, 0))];
    assert Put(second, "ENTERPRISEPACK", SkuInfo(c)) == [("ENTERPRISEPACK", SkuInfo(c))] + second[1..];
  }
}

# KLH reporting dashboard: the data layer in Dafny

The dashboard shows, for one client at a time, what four services report: Microsoft 365
(licensed and unlicensed users, shared mailboxes, distribution lists, groups, license
usage), Proofpoint (paid and functional mail users), Duo (users by status) and
SentinelOne (agents by group). Under the React markup sits a small layer of data logic,
and this project models that layer and proves what it promises:

- `DemoData` — the client record (four optional service sub-records) and
  `applyScenario`, which reshapes a demo record for the Default, Light Tenant,
  Security-Heavy and Empty scenarios. `ApplyScenario` updates a private copy step by step,
  as the source does, and is proved equal to the specification `ScenarioOf`.
- `SummaryPage` — `getKPIMetrics` (one KPI card per present service, built by appending)
  and `getChartData` (pie and bar series for the service in focus).
- `DuoPage`, `ProofpointPage`, `M365Page`, `S1Page` — the per-service pages: placeholder or
  table, metrics and table rows.
- `DataTable` — the shared table and its cell rule: cell j of a row shows the value of the
  row's j-th key, or "-".
- `IndexPage` — `refreshData`: choose the demo record, apply the scenario, overlay live
  Microsoft 365 data for Academic Therapy Publications, hide the services switched off.
- `M365Live` — the development-only live loader: its guards, the failure of each request
  and the reshaping of the Graph answers into the M365 record.
- `Credentials` — the environment flag and the order in which the company-secret sources
  are tried.
- `DemoFixtures` — the Contoso demo figures as concrete witnesses of the chart rules.
- Helper modules: `Wrappers` (Option, Result), `Seqs` (filter, slice, first-seen order),
  `Dicts` (JavaScript objects as ordered key/value lists, and the counting `reduce`),
  `Sorting` (stable descending sort), `Strings` (decimal strings, ASCII lowering, substring
  search).

JavaScript objects and `Record<string, …>` are lists of (key, value) pairs in insertion
order. Writing an existing key replaces its value in place; a new key goes at the end.
`Array.prototype.sort` is stable (section 23.1.3.30 of ECMA-262), so `SortByValueDesc`
is an insertion sort that keeps equal values in their original order. JavaScript
truthiness is written out where the source relies on it: `x || "unknown"` treats the
empty string as missing, and `xs?.length || 0` reads a missing list as 0.

## Model

| member | source | states |
|---|---|---|
| `DemoData.ApplyScenario` | src/data/demoData.ts:243-288 | The record it builds step by step on its copy equals `ScenarioOf(data, scenario)`, the per-scenario specification; the caller's record is a value and stays as it was |
| `DemoData.DefaultIsIdentity` | src/data/demoData.ts:283-287 | Default returns a record equal to its input |
| `DemoData.EmptyHasNoServices` | src/data/demoData.ts:280-281 | Empty returns a record with all four sub-records absent, whatever the input |
| `DemoData.AbsentStaysAbsent` | src/data/demoData.ts:249-287 | Under every scenario, a missing sub-record stays missing |
| `DemoData.UnnamedFieldsUnchanged` | src/data/demoData.ts:249-287 | Every scenario but Empty keeps each sub-record present or absent as it was, and leaves unchanged the M365 fields other than `licensed` and the SentinelOne fields other than `total_agents` |
| `DemoData.LightTenantCaps` | src/data/demoData.ts:250-263 | Light Tenant makes licensed M365 users, Proofpoint users and Duo users the order-preserving prefixes of length min(n, 10), min(n, 12) and min(n, 10); it sets `total_agents` to 12 and keeps the agent list |
| `DemoData.LightTenantWithinCapUnchanged` | src/data/demoData.ts:257-259 | Light Tenant never lengthens the Duo list, and a list already within its cap is unchanged |
| `DemoData.LightTenantIdempotent` | src/data/demoData.ts:250-263 | Applying Light Tenant twice gives the same record as applying it once |
| `DemoData.SecurityHeavyAppendsBypassUsers` | src/data/demoData.ts:266-274 | Security-Heavy keeps the existing Duo users as a prefix and appends exactly five: user k is `bypassk`, `bypassk@example.com`, status "bypass" |
| `DemoData.SecurityHeavyTotalAgents` | src/data/demoData.ts:275-277 | Security-Heavy sets `total_agents` to max(150, old): at least 150, at least the old value, equal to one of them; M365, Proofpoint and the agent list are unchanged |
| `Dicts.CountBy` | src/components/pages/SummaryPage.tsx:60-63 | The `reduce` loop that bumps `acc[key]` yields the histogram `Tally(keys)` |
| `Dicts.TallyKeys` | src/components/pages/SummaryPage.tsx:132-137 | The histogram's keys are the distinct keys of the input in first-encounter order |
| `Dicts.TallyCount` | src/components/pages/SummaryPage.tsx:132-135 | Each key's count is its number of occurrences, and a key that never occurs reads as 0 |
| `Dicts.TallySum` | src/components/pages/DuoPage.tsx:17-20 | The histogram's counts add up to the number of keys counted |
| `Dicts.PutKeys` | src/lib/m365Live.ts:108 | Assigning a property keeps the key order, appending a new key at the end |
| `Dicts.PutGet` | src/lib/m365Live.ts:108 | After assigning `d[k] = v`, reading k gives v and every other key reads as before |
| `Sorting.SortByValueDescSpec` | src/components/pages/SummaryPage.tsx:100 | The stable descending sort returns a non-increasing permutation of its input in which points of equal value keep their input order |
| `Sorting.StableSortUnique` | src/components/pages/SummaryPage.tsx:151 | Two non-increasing lists with the same points of each value in the same order are equal: the stable sort's output is determined by its input |
| `Strings.ContainsIgnoringCase` | src/pages/Index.tsx:42 | The search answers true exactly when the pattern occurs somewhere in the name with ASCII letters compared without case on both sides |
| `Strings.DecimalRoundTrip` | src/components/pages/M365Page.tsx:28 | `n.toString()` reads back as n |
| `DataTable.RenderBodyShape` | src/components/DataTable.tsx:42-45 | One body row per data row, in order, each with exactly one cell per header whatever the row's key count |
| `DataTable.CellPositional` | src/components/DataTable.tsx:46 | Cell j of a row with distinct keys shows the j-th key's value, or "-" when it is empty; past the last key it shows "-" unless the row has a key named "undefined" |
| `DataTable.RenderedCells` | src/components/DataTable.tsx:42-48 | For a row with distinct keys and one key per header, cell (i, j) is the j-th value of row i, or "-" when it is empty |
| `DuoPage.DuoPageView` | src/components/pages/DuoPage.tsx:9-15 | The page is a placeholder exactly when the Duo data is absent |
| `DuoPage.DuoPageMetrics` | src/components/pages/DuoPage.tsx:17-27 | Users is the user count; Active, Disabled and Bypass count the users with that status (0 when it never occurs, a missing status counting as "unknown"); the histogram adds up to the user count |
| `DuoPage.DuoPageRows` | src/components/pages/DuoPage.tsx:29-33 | One row per user, in order, with username, email and status ("" when missing), shown in the three columns |
| `DuoPage.DuoPageNoUsers` | src/components/pages/DuoPage.tsx:29-33 | A missing user list gives an empty table |
| `ProofpointPage.ProofpointPageView` | src/components/pages/ProofpointPage.tsx:9-15 | The page is a placeholder exactly when the Proofpoint data is absent |
| `ProofpointPage.ProofpointPageMetrics` | src/components/pages/ProofpointPage.tsx:17-18 | Functional counts the users typed "functional_account", Paid every other user including those with no type, and the two add up to the user count |
| `ProofpointPage.ProofpointPageRows` | src/components/pages/ProofpointPage.tsx:26-30 | One row per user, in order; a missing email becomes ""; Status is "Active" exactly when `is_active` is true and "Inactive" otherwise |
| `M365Page.M365PageView` | src/components/pages/M365Page.tsx:9-15 | The page is a placeholder exactly when the M365 data is absent |
| `M365Page.M365PageMetrics` | src/components/pages/M365Page.tsx:17-24 | The six metrics are the lengths of the six lists, 0 for a missing list |
| `M365Page.M365PageRows` | src/components/pages/M365Page.tsx:26-30 | Rows come from the licensed users only, one each and in order; the Licenses cell is the decimal number of assigned licenses (0 when missing) and never shows as "-"; the first cell is the principal name ("" when missing); Status is "Active" exactly when the account is enabled and "Disabled" otherwise |
| `S1Page.S1PageView` | src/components/pages/S1Page.tsx:9-15 | The page is a placeholder exactly when the SentinelOne data is absent |
| `S1Page.S1PageMetrics` | src/components/pages/S1Page.tsx:18-20 | Account and Site show the name when it is non-empty and "-" exactly when missing or empty (or "-" themselves); Agents shows `total_agents`, not the length of the agent list |
| `S1Page.S1PageRows` | src/components/pages/S1Page.tsx:23-32 | One row per agent, in order, copying its eight fields unchanged in declared order; column j shows field j |
| `S1Page.S1PageNoAgents` | src/components/pages/S1Page.tsx:32 | A missing agent list gives an empty table |
| `SummaryPage.GetKPIMetrics` | src/components/pages/SummaryPage.tsx:27-90 | One card per present sub-record, in the order m365, pp, duo, s1, none for an absent one, and each card agrees with `KpiAgrees`: the M365 card's six values are the lengths of licensed, unlicensed, shared, distribution lists, groups and security groups, 0 when missing |
| `SummaryPage.ProofpointGroup` | src/components/pages/SummaryPage.tsx:45-57 | The Proofpoint card shows the user count, then Paid as the users that are not functional accounts, then Functional as the functional accounts |
| `SummaryPage.DuoGroup` | src/components/pages/SummaryPage.tsx:59-75 | The Duo card shows the user count and the number of users whose status is active, disabled and bypass |
| `SummaryPage.S1Group` | src/components/pages/SummaryPage.tsx:77-87 | The SentinelOne card shows account and site ("-" when empty) and the stored agent total |
| `SummaryPage.AbsentFocusIsEmpty` | src/components/pages/SummaryPage.tsx:92-157 | When the service in focus has no sub-record, both series are empty |
| `SummaryPage.ChartData` | src/components/pages/SummaryPage.tsx:92-157 | Duo and SentinelOne use one series for pie and bar; the M365 bar is the three list lengths; the Proofpoint pie and bar each have two values summing to the user count (the per-service lemmas below state the rest) |
| `SummaryPage.M365Chart` | src/components/pages/SummaryPage.tsx:94-108 | The M365 pie holds exactly the license rows with assigned > 0 as (name, assigned), non-increasing, equal values in table order; the bar is Licensed, Unlicensed, Shared with the list lengths |
| `SummaryPage.ProofpointChart` | src/components/pages/SummaryPage.tsx:110-127 | The pie is Paid then Functional and sums to the user count; the bar is Active then Inactive and sums to the user count |
| `SummaryPage.DuoChart` | src/components/pages/SummaryPage.tsx:129-139 | Pie and bar are the same series: every distinct status key in first-encounter order with its number of users, summing to the user count |
| `SummaryPage.S1GroupCounts` | src/components/pages/SummaryPage.tsx:144-150 | Before sorting, the series has one point per distinct group name in first-encounter order, valued by its number of agents, summing to the agent count |
| `SummaryPage.S1Chart` | src/components/pages/SummaryPage.tsx:141-153 | Pie and bar are the group counts sorted non-increasing, groups of equal size in first-encounter order; each value is its group's agent count and they sum to the agent count |
| `SummaryPage.SecurityHeavyDuoCounts` | src/components/pages/SummaryPage.tsx:59-75 | After Security-Heavy the Duo card counts five more users and five more bypass users, with the same active and disabled counts |
| `DemoFixtures.ContosoLicensePie` | src/components/pages/SummaryPage.tsx:97-100 | Contoso's license table charts as M365 E3 40, EXO P2 12, B. Premium 8, Power BI Pro 6 |
| `DemoFixtures.ContosoDuoChart` | src/components/pages/SummaryPage.tsx:129-139 | Users with a active then d disabled statuses (Contoso: 39 and 3) chart as [active a, disabled d] |
| `DemoFixtures.SecurityHeavyDuoChart` | src/data/demoData.ts:266-274 | Under Security-Heavy that Duo chart becomes [active a, disabled d, bypass 5] |
| `DemoFixtures.ContosoS1Chart` | src/components/pages/SummaryPage.tsx:141-153 | Agents listed as servers, laptops, desktops with more laptops than servers and more servers than desktops (Contoso: 11, 39, 10) chart as Laptops, Servers, Desktops with those counts |
| `DemoFixtures.TallyRun` | src/components/pages/SummaryPage.tsx:144-147 | Counting a run of n copies of a new key appends that key with count n |
| `IndexPage.InitialClient` | src/pages/Index.tsx:27 | The first selected client is the first demo client, or "Contoso Ltd." when there is none |
| `IndexPage.BaseRecord` | src/pages/Index.tsx:38 | The base record is the client's demo record, or the record without services for an unknown name |
| `IndexPage.RefreshData` | src/pages/Index.tsx:37-64 | The record it builds by reassigning and clearing fields equals `Refreshed(...)`, and every service switched off is absent |
| `IndexPage.NonLiveClientShowsDemo` | src/pages/Index.tsx:42-43 | For a client not matching the pattern the live answer plays no part: the result is the scenario's record with the switched-off services removed |
| `IndexPage.FailedLiveLoadKeepsDemo` | src/pages/Index.tsx:47-55 | A failed live load leaves the scenario's demo record in place |
| `IndexPage.LiveOverlayReplacesOnlyM365` | src/pages/Index.tsx:44-46 | With the loader's answer only M365 is replaced; Proofpoint, Duo and SentinelOne come from the scenario |
| `IndexPage.EmptyScenarioStillShowsLive` | src/pages/Index.tsx:38-46 | The overlay comes after the scenario, so even Empty shows live M365 data once it loads |
| `IndexPage.UnknownClientShowsNothing` | src/pages/Index.tsx:38-39 | A client missing from the demo set shows no service unless live M365 data arrives |
| `IndexPage.TogglesOnlyHide` | src/pages/Index.tsx:59-62 | Each service is absent when its box is off and otherwise equals the all-on result |
| `IndexPage.LivePatternExamples` | src/pages/Index.tsx:42 | "Academic Therapy Publications" matches the lower-case pattern and "Contoso Ltd." does not |
| `M365Live.SkuInfo` | src/lib/m365Live.ts:106-108 | Assigned is `consumedUnits`, 0 when missing; available is never negative: it is enabled minus assigned when that is positive and 0 otherwise, a missing enabled count counting as 0 |
| `M365Live.BuildLicenseUtilization` | src/lib/m365Live.ts:104-109 | The loop over the SKUs builds `LicenseTable(skus)` |
| `M365Live.LoadM365LiveData` | src/lib/m365Live.ts:62-121 | Production fails with DevOnly; a flag other than exactly "true" fails; then missing credentials, the token request and the three Graph requests fail in that order, each on no answer, a non-2xx status or a 2xx body that cannot be read (`res.json()` rejects or there is no `value` list); success exactly when all four give a readable 2xx answer, with only the M365 sub-record built by `Reshape` |
| `M365Live.TokenFailure` | src/lib/m365Live.ts:45-50 | A token request fails with a network error, with its status when it is not 2xx, or as malformed when its 2xx body is not JSON |
| `M365Live.GraphFailure` | src/lib/m365Live.ts:55-59 | A Graph request fails with a network error, with its status and URL when it is not 2xx, or as malformed when its 2xx body cannot be read |
| `M365Live.Reshape` | src/lib/m365Live.ts:79-121 | All seven lists are present, shared is empty, licensed and unlicensed add up to the users, distribution lists and the other groups add up to the groups, and the license table's keys are the distinct part numbers in first-seen order |
| `M365Live.UsersPartitioned` | src/lib/m365Live.ts:79-84 | Licensed and unlicensed split the users, licensed ones holding at least one license and unlicensed ones none; shared is empty |
| `M365Live.GroupsClassified` | src/lib/m365Live.ts:93-98 | A group is a distribution list exactly when it is in neither the M365 groups nor the security groups; a Unified security-enabled group is in both; every group is listed |
| `M365Live.LicenseTableKeys` | src/lib/m365Live.ts:104-109 | The table's part numbers are the SKUs' distinct part numbers in first-seen order |
| `M365Live.LicenseTableLastWins` | src/lib/m365Live.ts:104-109 | Looking up a part number gives the row of the last SKU carrying it |
| `M365Live.LicenseTableRows` | src/lib/m365Live.ts:104-109 | No part number repeats and every row's available count is at least 0 |
| `M365Live.RepeatedSkuExample` | src/lib/m365Live.ts:104-109 | A repeated part number keeps its first position and takes its last values |
| `Credentials.ResolveEnv` | src/lib/credentials.ts:15 | The `import.meta.env` value wins unless it is missing or empty; when it is missing or empty, `process.env` is read |
| `Credentials.EnvFlagTrue` | src/lib/credentials.ts:14-17 | The flag is on exactly when some listed variable's stringified value lowercases to "true" |
| `Credentials.TrueTextSpelling` | src/lib/credentials.ts:16 | A value counts exactly when it is "true" in any mix of letter cases |
| `Credentials.UnsetKeyIsNotTrue` | src/lib/credentials.ts:15-16 | A variable set nowhere stringifies to "undefined" and never turns the flag on |
| `Credentials.EmptyMetaValueFallsBack` | src/lib/credentials.ts:15 | An empty `import.meta.env` value falls back to `process.env`, where "TRUE" turns the flag on |
| `Credentials.LocalSecret` | src/lib/credentials.ts:37 | The local entry has key "local-dev", name "Local Dev" and the module's default export (or the module) as secret |
| `Credentials.TryLocal` | src/lib/credentials.ts:33-42 | A failed import gives null, otherwise a single local entry |
| `Credentials.LoadCompanySecrets` | src/lib/credentials.ts:44-60 | Flag on and file present: the local entry; otherwise a non-empty AWS list wins; an empty or missing AWS list falls back to the local entry, then to [] |

## Left out

- Network and authentication I/O (`getToken`, `g`, `fetch`, `getLocalCreds`): each request is a parameter of `LoadM365LiveData` holding what the endpoint answered. The token request's body and the token itself are not modelled.
- M365Live.LoadM365LiveData: the thrown error carries the status and URL only; the response text and message wording are not modelled. A 2xx body that cannot be read is one case (`MalformedToken`, `MalformedResponse`): the JavaScript exception it raises (a rejected `res.json()`, or a `TypeError` on a missing `value`) is not told apart, and a token answer without `access_token` is treated as readable, because the token's value is not modelled.
- The AWS Secrets Manager placeholder (`tryAws`, which always returns null) and the dynamic import of the credentials file: they are parameters of `LoadCompanySecrets`. Both `tryLocal` calls get the same import outcome. The two loaders import the credentials file by different relative paths (`src/config` from `credentials.ts`, the project root's `config` from `m365Live.ts`); each outcome is a separate parameter.
- React state, hooks and effects, toasts and the async timing of `refreshData`: the refresh is a method of its inputs. The live loader's outcome is passed in and only read when the overlay is attempted. The initial `useState` record (before the first refresh) is not modelled.
- All JSX rendering: tabs, selects, checkboxes, the recharts charts, the `COLORS` cycling, the metric HTML strings (metrics are modelled as label/value lists) and the date shown on screen.
- `RotatingCube`, `GlassCard` and `KPICard`: presentation only.
- How `DEMO_CLIENTS` generates its records (hex and padded MAC and serial strings). The Contoso figures appear in `DemoFixtures` only as a license table and as runs of status and group keys.
- `JSON.parse(JSON.stringify(...))`: records are immutable values, so the copy is the value itself and no aliasing can occur.
- Object key order: ECMA-262 lists integer-like keys first, in numeric order (section 10.1.11.1). Keys are assumed not to be integer-like, and not to be `__proto__` or any other name inherited from `Object.prototype` (`constructor`, `toString`, `valueOf`, `hasOwnProperty`, ...).
- Dicts.Tally: the histogram reduce starts from `{}`, so for a key inherited from `Object.prototype` (such as `toString`) `acc[key]` is a function and `(acc[key] || 0) + 1` concatenates a string instead of counting; the model counts every key from 0, so `TallyCount` and `TallySum` (and the S1 sort over those counts) do not describe the source for such names.
- Table cells are strings: every page builds string-valued rows, so other JavaScript values in a cell are not modelled.
- Lowering is ASCII-only. The regex test and `toLowerCase` compare against fixed ASCII text ("academic therapy publications", "true"), and no non-ASCII character folds onto those letters in either operation.
- Environment values are strings; boolean entries of `import.meta.env` are not modelled.
- Numbers are unbounded integers: NaN, fractions and floating-point overflow in counts and license units are not modelled, and `assignedLicenses` elements are integers whose values are never read.
- IndexPage.Spread: a property that the live object holds with the value `undefined` would also override. The loader never returns one, so a missing sub-record does not override.
- Security-Heavy on a Duo record whose user list is missing appends nothing, as the source does. Only the Duo list is extended.

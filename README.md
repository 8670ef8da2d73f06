# DefensePro configuration modules, modelled in Dafny

This project models the deterministic core of an Ansible collection that configures Radware
DefensePro devices through the CyberController REST API (`/mgmt/device/byip/{dp_ip}/config/...`).
Each module walks a list of descriptors given in the playbook. It validates them, translates
friendly parameter names and enum words into the device's API fields and codes, plans the
requests, sends them, and aggregates per-item errors, a `changed` flag and summary counts.

The HTTP client is not modelled. Each request is one call to an oracle `net: nat -> Outcome`:
the k-th request of a run receives `net(k)`, which is either a reply (status, content type, text
and parsed JSON body) or a raised exception with its message. Every request a run sends is
recorded, so properties can speak about what is sent, in which order, and what is never sent.
Ansible's `exit_json`/`fail_json` become a returned result record.

Shared modules:

- `Py` (`py.dfy`): Python value semantics the modules rely on. It covers dynamically typed values,
  insertion-ordered dicts as association lists, truthiness, `str()`, `int()`, `.lower()`,
  `.strip()`, `.isdigit()`, `.split()` and `.join()`.
- `Http` (`http.dfy`): requests, replies, the oracle, URL paths and `raise_for_status`.
- `Tables` (`tables.dfy`): the generic dict translator behind every `map_*_parameters` /
  `translate_params` loop. One step function per module decides what each (key, value) pair
  becomes. Generic lemmas cover when it raises, which keys it produces, injectivity and round
  trips.

Per-module files model one Ansible module each, named after it.

The spreadsheet converter (`scripts/excel_to_yaml_converter.py`) turns a workbook into the YAML
variables the playbooks read. `ExcelSheets` (`excel_sheets.dfy`) describes what each sheet
contributes as functions over the sheet's header row and data rows, with lemmas about them.
`ExcelToYaml` (`excel_to_yaml.dfy`) holds the `Converter` class. Its `config` field is updated
sheet by sheet by methods whose loops mirror the script's; each is proved to leave exactly the
configuration the matching function describes. The workbook is a parameter: its sheets arrive
already read, as header and row values.

## Model

| member | source | states |
|---|---|---|
| DeleteClConfiguration.ComputeNeedsFetch | plugins/modules/delete_cl_configuration.py:50-63 | The loop's answer equals `NeedsFetch`: true iff some examined entry is a name, or an index in check mode; none when a `protections_to_delete` value cannot be iterated. |
| DeleteClConfiguration.BuildLookupLoop | plugins/modules/delete_cl_configuration.py:78-87 | The loop builds exactly `BuildLookup` of the fetched rows. |
| DeleteClConfiguration.BuildLookupSound | plugins/modules/delete_cl_configuration.py:78-87 | The name-to-index map holds only rows whose name and id are both truthy. An index is valid iff some row's id converts with `int()`. A name is mapped iff some row names it. |
| DeleteClConfiguration.PlanProfiles | plugins/modules/delete_cl_configuration.py:100-114 | The nested loop yields exactly `ProfileOps`. |
| DeleteClConfiguration.PlanProtections | plugins/modules/delete_cl_configuration.py:116-179 | The nested loop yields exactly `ProtectionPlan`. |
| DeleteClConfiguration.ProfileOpsCount | plugins/modules/delete_cl_configuration.py:100-114 | Profile deletions yield only remove-from-profile operations, one per listed (profile, protection) pair. |
| DeleteClConfiguration.ProtectionPlanShape | plugins/modules/delete_cl_configuration.py:116-179 | Protection deletions keep the earlier operations and add only well-formed delete-protection operations. |
| DeleteClConfiguration.PlanOrdered | plugins/modules/delete_cl_configuration.py:100-179 | Every remove-from-profile operation precedes every delete-protection operation, and there is one removal per listed pair. |
| DeleteClConfiguration.PlanWellFormed | plugins/modules/delete_cl_configuration.py:128-177 | Every planned deletion has a `url_path` iff it is not marked as an error. |
| DeleteClConfiguration.ItemsPlanErrors | plugins/modules/delete_cl_configuration.py:122-179 | Each entry adds one operation unless it is neither str nor int. Errors grow by one per error-marked operation plus one per invalid entry. Outside check mode every error-marked operation has index `NOT_FOUND`. |
| DeleteClConfiguration.PlanItemErrors | plugins/modules/delete_cl_configuration.py:122-179 | The same accounting for a single entry. |
| DeleteClConfiguration.ExecuteLoop | plugins/modules/delete_cl_configuration.py:216-246 | The execution loop yields exactly `Execute`. |
| DeleteClConfiguration.ExecuteSends | plugins/modules/delete_cl_configuration.py:216-227 | Execution sends exactly one DELETE per operation not marked as an error, in plan order, at its `url_path`. |
| DeleteClConfiguration.ExecuteAccounts | plugins/modules/delete_cl_configuration.py:216-246 | `changed` becomes true iff some DELETE returned. Each raised DELETE adds exactly one error. Every sent DELETE is counted once among the removals, the deletions or the errors. |
| DeleteClConfiguration.RunModule | plugins/modules/delete_cl_configuration.py:45-265 | The module run equals `Run`. |
| DeleteClConfiguration.PreviewSendsNoDelete | plugins/modules/delete_cl_configuration.py:182-200 | Preview sends at most the table fetch. It reports a change iff operations are planned. `profile_operations` followed by `protection_operations` is the whole plan. |
| DeleteClConfiguration.RemovalsThenDeletions | plugins/modules/delete_cl_configuration.py:184-185 | For a plan with removals before deletions, the two preview lists concatenate back to the plan. |
| DeleteClConfiguration.FetchAtMostOnce | plugins/modules/delete_cl_configuration.py:50-94 | The table is fetched at most once, as the first request, and exactly when `NeedsFetch` says so. Every later request is a DELETE. |
| DeleteClConfiguration.DeleteRequestsAreDeletes | plugins/modules/delete_cl_configuration.py:224-226 | Every request execution sends is a DELETE. |
| DeleteSynConfiguration.BuildIdMapLoop | plugins/modules/delete_syn_configuration.py:52-60 | The loop over the fetched rows yields exactly `BuildIdMap`. |
| DeleteSynConfiguration.BuildIdMapSound | plugins/modules/delete_syn_configuration.py:52-60 | Building raises iff some row is not a dict or has a truthy pair with an unhashable name. Otherwise the map holds only truthy names and ids, and each name gives the id of its last row. |
| DeleteSynConfiguration.PlanOperations | plugins/modules/delete_syn_configuration.py:65-94 | The four loops yield exactly `PlanAll`. |
| DeleteSynConfiguration.RemoveLoop | plugins/modules/delete_syn_configuration.py:70-81 | The loop over one profile's protections appends exactly `RemoveOpsOf`, or raises as it does. |
| DeleteSynConfiguration.DeleteLoop | plugins/modules/delete_syn_configuration.py:84-94 | The loop over one entry's `protections_to_delete` appends exactly `DeleteOpsOf`, or raises as it does. |
| DeleteSynConfiguration.ProfileLoop | plugins/modules/delete_syn_configuration.py:67-81 | The loop over `syn_profile_deletions` yields exactly `ProfileOps`. |
| DeleteSynConfiguration.ProtectionLoop | plugins/modules/delete_syn_configuration.py:83-94 | The loop over `syn_protection_deletions` appends exactly `ProtectionOps`. |
| DeleteSynConfiguration.PlanShape | plugins/modules/delete_syn_configuration.py:65-94 | All removals come first, one per listed (profile, protection) pair, then all deletions, one per listed name. `exists` holds iff the name resolved. A deletion carries the resolved id, and an unresolved one targets `.../NA`. |
| DeleteSynConfiguration.ExecuteLoop | plugins/modules/delete_syn_configuration.py:96-139 | The execution loop yields exactly `Execute`. |
| DeleteSynConfiguration.ExecuteSends | plugins/modules/delete_syn_configuration.py:101-118 | Execution sends one DELETE per operation whose protection exists, at its URL and in plan order, and nothing in check mode. |
| DeleteSynConfiguration.ExecuteAccounts | plugins/modules/delete_syn_configuration.py:101-139 | Every non-existent operation becomes a failure without a request. In check mode existing operations only set `changed`. Otherwise each operation is counted once as deleted or failed, and `changed` is set iff something was deleted. |
| DeleteSynConfiguration.RunModule | plugins/modules/delete_syn_configuration.py:49-164 | The module run equals `Run`. |
| DeleteSynConfiguration.RunOutcome | plugins/modules/delete_syn_configuration.py:52-161 | The table is fetched exactly once, first, and every later request is a DELETE. The run fails only when the fetch or the planning raised. `total_attempted` is the number of operations, and outside check mode deleted plus failed equals attempted. Check mode sends nothing but the fetch. |
| CreateDnsProfile.ApiFieldInverts | plugins/modules/create_dns_profile.py:13-98 | `FIELD_MAP` inverts `REVERSE_FIELD_MAP`: mapping a friendly name to its API field and back gives the name. |
| CreateDnsProfile.UserFieldInverts | plugins/modules/create_dns_profile.py:13-98 | The values of `REVERSE_FIELD_MAP` are distinct, so every API field maps back to itself. |
| CreateDnsProfile.EnumTablesAgree | plugins/modules/create_dns_profile.py:51-96 | A friendly field is enumerated iff its API field is, and then the reverse table maps each code back to its word. |
| CreateDnsProfile.MapDnsProfileParameters | plugins/modules/create_dns_profile.py:79-114 | The loop yields exactly `Translate(params, MapStep)`. |
| CreateDnsProfile.MapApiValuesToUserFriendly | plugins/modules/create_dns_profile.py:68-77 | The loop yields `Translate(apiParams, BackStep)`, which never raises. |
| CreateDnsProfile.MapStepShape | plugins/modules/create_dns_profile.py:101-112 | A pair is dropped iff its key is unknown. It is rejected iff its key is enumerated and the lowercased value is not in the table. Otherwise it is emitted under the key's API field. |
| CreateDnsProfile.MapperContents | plugins/modules/create_dns_profile.py:100-114 | The mapper raises iff some known enumerated value is outside its table. Otherwise its keys are exactly the API fields of the known friendly keys. |
| CreateDnsProfile.ReverseKeepsUnknown | plugins/modules/create_dns_profile.py:68-77 | The reverse mapper keeps an unknown API key, and a code missing from its table, unchanged. |
| CreateDnsProfile.MapperRoundTrip | plugins/modules/create_dns_profile.py:68-114 | For accepted input with distinct keys, reverse-mapping the mapper's output gives the input restricted to known keys, with enum values lowercased and other values stringified. |
| CreateDnsProfile.PhasesPartition | plugins/modules/create_dns_profile.py:178-184 | Phase 2 holds exactly the nine quota fields and phase 1 everything else. Together they partition the mapped parameters. |
| CreateDnsProfile.RunBatchLoop | plugins/modules/create_dns_profile.py:161-234 | The profile loop yields exactly `RunBatch`. |
| CreateDnsProfile.ProfileStepAccounts | plugins/modules/create_dns_profile.py:161-234 | One profile either adds exactly one error and is skipped (no name, failed validation, phase-1 failure), or is created and sets `changed` with at most one phase-2 error. It sends at most two requests. |
| CreateDnsProfile.BatchAccounts | plugins/modules/create_dns_profile.py:161-234 | Across the batch, created plus skipped profiles account for every profile. `changed` holds iff some profile was created. At most two requests are sent per profile. |
| CreateDnsProfile.RunModule | plugins/modules/create_dns_profile.py:142-262 | The module run equals `Run`. |
| CreateDnsProfile.RunOutcome | plugins/modules/create_dns_profile.py:146-256 | Preview reports a change iff profiles are listed, with one planned entry each. An applied run fails iff some error was recorded, and reports a change iff some profile was created. |
| Tables.TranslateLoop | plugins/modules/create_dns_profile.py:100-114 | The generic mapper loop yields exactly `Translate`. |
| Tables.TranslateRaises | plugins/modules/create_dns_profile.py:106-109 | A translation raises iff some pair is rejected, and then with the first rejection's message. |
| Tables.TranslateContents | plugins/modules/create_dns_profile.py:100-114 | A successful translation holds exactly the keys some pair emits, with distinct keys. With an injective step and distinct input keys, each emitted key holds its own pair's value. |
| Tables.RoundTrip | plugins/modules/create_dns_profile.py:68-114 | When the backward step undoes the forward step pointwise, translating back the forward output equals translating with the reference step. |
| Tables.SplitPartition | plugins/modules/create_dns_profile.py:183-184 | The selected and omitted parts of a dict partition it. |
| FormatDisplay.OrchestrationPlanShape | plugins/modules/format_display.py:9-29 | The plan is exactly eight lines, the second a rule of 42 `=`. The policy count is the policy list's length when `create_security_policies` is set and 0 otherwise. It raises only for a config that is not a dict, an unsized policy list that is counted, or devices that cannot be joined. |
| FormatDisplay.FormatPolicySummary | plugins/modules/format_display.py:31-72 | The method yields exactly `PolicySummary`. |
| FormatDisplay.AppendBlocks | plugins/modules/format_display.py:46-70 | The loop over policies appends exactly `Blocks`, or stops at the first entry that is not a dict. |
| FormatDisplay.AppendBindings | plugins/modules/format_display.py:56-70 | The inner loop appends one line per profile binding, in table order. |
| FormatDisplay.BlocksRaise | plugins/modules/format_display.py:46-47 | The policy lines raise iff some policy entry is not a dict. |
| FormatDisplay.BlocksLayout | plugins/modules/format_display.py:46-70 | There are twelve lines per policy, and the i-th block is that policy's heading, priority and ten binding lines, in input order. |
| FormatDisplay.PolicySummaryShape | plugins/modules/format_display.py:44-72 | With creation enabled and a non-empty list, the summary is one header plus exactly twelve lines per policy, in input order. |
| FormatDisplay.PolicySummaryCases | plugins/modules/format_display.py:31-47 | A disabled flag gives the single disabled line, and an empty policy list the single no-policies line. The summary raises iff the config is not a dict, or creation is enabled for a non-empty list and a length is missing or some policy is not a dict. |
| FormatDisplay.AppendItemLines | plugins/modules/format_display.py:83-117 | Each of the three per-item loops appends exactly `ItemLines`, or stops at the first item whose line raises. |
| FormatDisplay.ItemLinesShape | plugins/modules/format_display.py:83-117 | One line per item, in order, iff no item's line raises. |
| FormatDisplay.FormatCreationResults | plugins/modules/format_display.py:74-119 | The method yields exactly `CreationResults`. |
| FormatDisplay.SectionShape | plugins/modules/format_display.py:103-117 | An optional section adds nothing for an empty list, and otherwise a blank line, its title and one line per item. |
| FormatDisplay.ResultLinesShape | plugins/modules/format_display.py:88-117 | Execution results are four fixed lines plus the created and error sections. |
| FormatDisplay.CreationResultsShape | plugins/modules/format_display.py:79-117 | Preview is the device line, two fixed lines and one line per planned operation. Otherwise there are five fixed lines, and each section appears only for a non-empty list. |
| FormatDisplay.ErrorsListed | plugins/modules/format_display.py:111-117 | A non-empty error list ends the output with an `Errors:` line and one `- error` line per error, in order. |
| FormatDisplay.FormatLines | plugins/modules/format_display.py:144-153 | The formatter chosen by `format_type` is applied. |
| FormatDisplay.Show | plugins/modules/format_display.py:155-161 | With `output_method` "warn" every line becomes a warning, in order; debug output leaves none. |
| FormatDisplay.Run | plugins/modules/format_display.py:136-164 | The module fails exactly on an unknown `format_type` and never reports a change. |
| FormatDisplay.RunModule | plugins/modules/format_display.py:121-164 | The module run equals `Run`. |
| UpdatePolicies.ClassifyIgnoresCase | plugins/modules/update_policies.py:84-98 | A 200 reply whose data mentions an error word (error, failed, exception, timeout, denied) in any letter case is classified as a failure. |
| UpdatePolicies.ClassifySuccess | plugins/modules/update_policies.py:99-105 | Data mentioning no error word is a success. It is confirmed iff it mentions success, completed, applied or updated. |
| UpdatePolicies.PreviewPlansOne | plugins/modules/update_policies.py:44-58 | Preview plans exactly one operation, for this device. |
| UpdatePolicies.SuccessResponseFields | plugins/modules/update_policies.py:99-116 | A reported success has status "success" and carries the reply's data. Its warning is present iff the data confirms nothing. |
| UpdatePolicies.Run | plugins/modules/update_policies.py:35-142 | Check mode reports a change with the single planned operation and sends nothing. Otherwise exactly one POST to `updatepolicies` is sent. A raised request or a non-200 status fails. On 200 the module fails iff the lowercased data mentions an error word, and a success always sets `changed`. |
| GetSecurityPolicy.FormatSecurityPolicyForDisplay | plugins/modules/get_security_policy.py:11-103 | The formatter raises for a row that is not a dict and otherwise yields the display form `DisplayWith` of the row with the module's two tables. |
| GetSecurityPolicy.DisplayContents | plugins/modules/get_security_policy.py:89-101 | The display form has distinct fields. A field is present iff some non-falsy, non-`OBSOLETE` API field is renamed to it; unknown API fields keep their name. Its value is the shown value of the last such API field. |
| GetSecurityPolicy.ShownTranslates | plugins/modules/get_security_policy.py:98-101 | A value changes only when its friendly field has a value table containing `str(value)`, and then it becomes the word that table pairs with `str(value)`. |
| Grouping.FilterByNames | plugins/modules/get_security_policy.py:157-166 | The filter loop yields exactly `Filter`. |
| Grouping.FilterSound | plugins/modules/get_security_policy.py:159-163 | Filtering raises iff some row is not a dict. Otherwise a row is kept iff its name is listed, and nothing is added. |
| Grouping.FilterAppend | plugins/modules/get_security_policy.py:159-163 | Filtering distributes over concatenation, so the kept rows keep their original order. |
| Grouping.FilterOne | plugins/modules/get_security_policy.py:161-163 | A single dict row is kept iff its name is listed. |
| GetSecurityPolicy.GroupPolicies | plugins/modules/get_security_policy.py:171-183 | The grouping loop yields exactly `Group`, and the display groups are the same groups with each row formatted. |
| Grouping.GroupRaises | plugins/modules/get_security_policy.py:174-180 | Grouping raises iff some row is not a dict or is named by a list or dict. |
| Grouping.GroupKeys | plugins/modules/get_security_policy.py:174-183 | Group names are distinct and are exactly the rows' names. The group sizes add up to the number of rows. |
| Grouping.GroupRows | plugins/modules/get_security_policy.py:174-180 | Each group holds exactly the rows bearing its name, in their original order. |
| Grouping.GroupOrder | plugins/modules/get_security_policy.py:174-180 | Groups come in first-occurrence order of their names. |
| Grouping.FormatPut | plugins/modules/get_security_policy.py:180-183 | Appending a row to its group and formatting commute, so the display groups mirror the raw groups. |
| GetSecurityPolicy.RunModule | plugins/modules/get_security_policy.py:105-210 | The module run equals `Run`. |
| GetSecurityPolicy.RunOutcome | plugins/modules/get_security_policy.py:138-196 | Exactly one GET is sent. A table with no length (`None`, a bool, a number) fails: unfiltered with the `len()` TypeError raised by the log at line 168, filtered with the error of iterating it. A reported response counts every row once across the groups, with one group per distinct name. `filtered` holds iff names were listed, and a filtered table holds only listed rows. A JSON dict reply whose table is a list of groupable rows is always reported. |
| Tables.TranslateLastWins | plugins/modules/get_security_policy.py:87-101 | A translated key is present iff some pair emits it, and it holds the value of the last such pair. |
| Grouping.GroupByName | plugins/modules/get_network_class.py:147-152 | The grouping loop yields exactly `Group`. |
| GetNetworkClass.RunModule | plugins/modules/get_network_class.py:81-178 | The module run equals `Run`. |
| GetNetworkClass.RunOutcome | plugins/modules/get_network_class.py:114-164 | Exactly one GET of the class table is sent. A table with no length fails: unfiltered with the `len()` TypeError raised by the log at line 144, filtered with the error of iterating it. A reported response counts every row once across the groups, one group per distinct class name, in first-occurrence order. Each group holds exactly its class's rows. `filtered` holds iff names were listed, and a filtered table holds only listed rows. A JSON dict reply whose table is a list of groupable rows is always reported. |
| GetNetworkClass.HeadUrlSelection | plugins/modules/get_network_class.py:37-40 | In the other variant of the file, the URL extends the table URL, with `/` and the class name iff a non-empty class name is given. |
| Grouping.IndexRaises | plugins/modules/get_cl_configuration.py:52-52 | Indexing rows by a key raises iff some row has no usable key: it is not a dict, lacks the key, or holds a list or dict there. The same indexing files the protections by `rsIDSConnectionLimitAttackId` here and the SYN protections by `rsIDSSYNAttackName` at get_syn_configuration.py line 51. |
| Grouping.IndexKeys | plugins/modules/get_cl_configuration.py:52-52 | A key is indexed iff some row carries it. |
| Grouping.IndexUnique | plugins/modules/get_cl_configuration.py:52-52 | The indexed keys are distinct. |
| Grouping.IndexLastWins | plugins/modules/get_cl_configuration.py:52-52 | A key finds the last row carrying it, so a later duplicate replaces an earlier one. |
| GetClConfiguration.MissingProtection | plugins/modules/get_cl_configuration.py:63-76 | A row whose protection id is unknown keeps its own protection id and name, and every other setting is `''`. |
| GetClConfiguration.ProtectionReadBack | plugins/modules/get_cl_configuration.py:65-76 | Reading a protection back fails only on a list or dict code. Each coded setting is either the raw value or the word its code stands for. Threshold and application port group are copied, and the protection's own name and id take precedence over the row's. |
| GetClConfiguration.RowKeyErrors | plugins/modules/get_cl_configuration.py:56-59 | A profile row that is not a dict raises `TypeError`. Otherwise the first of its three keys that is missing raises `KeyError` naming it. |
| GetClConfiguration.RowNames | plugins/modules/get_cl_configuration.py:56-77 | Every profile row that can be read is filed under its `rsIDSConnectionLimitProfileName`, the name the grouping gives it. |
| Grouping.NestRows | plugins/modules/get_cl_configuration.py:55-77 | The loop that files each row under its name (here the profile loop) yields exactly `Nest`. |
| Grouping.NestRaises | plugins/modules/get_cl_configuration.py:56-77 | Filing the rows raises iff some row cannot be read. |
| Grouping.NestGroups | plugins/modules/get_cl_configuration.py:55-77 | When rows are filed under the names a grouping gives them, the result is that grouping with each row shown (here: the profile rows grouped by profile name, each shown as its protection's settings). |
| Grouping.NestShape | plugins/modules/get_cl_configuration.py:55-79 | Filed names are distinct, come in first-occurrence order and are exactly the rows' names. There is one shown value per row, and each name holds the shown values of exactly its rows, in row order. The SYN profiles are nested the same way at get_syn_configuration.py lines 54-74. |
| GetClConfiguration.RunModule | plugins/modules/get_cl_configuration.py:34-84 | The module run yields exactly `Run`, the run as written, whose failures end in the handler's TypeError. |
| GetClConfiguration.RunOutcome | plugins/modules/get_cl_configuration.py:34-84 | The protections are fetched only after the profiles were read. A run is reported iff both tables are read, every protection has an id and every profile row can be read. A reported run has one profile per distinct name, in first-occurrence order, and one protection per row. |
| GetClConfiguration.RunCrashes | plugins/modules/get_cl_configuration.py:82-84 | As written, a run that is not reported never fails with a message: it ends with the handler's TypeError (`debug_info` passed twice), raised while handling the exception that stopped it, after the GETs it sent. |
| GetClConfiguration.IntendedFails | plugins/modules/get_cl_configuration.py:34-84 | As the handler means it, a run that is not reported fails with the message of the first table or row it cannot read; the protections are fetched only when the profiles were read. |
| Tables.LookupReads | plugins/modules/get_cl_configuration.py:69-74 | `t.get(v, v)` fails only for a list or dict. It changes a value only when the value is a listed code, and then yields that code's word. |
| GetTrafficFilter.ActionReadBack | plugins/modules/get_traffic_filter.py:19-19 | Action codes "0" and "1" both read as `report_only`, "10" reads as `drop`, and any other string is kept raw. |
| GetTrafficFilter.CollectProfiles | plugins/modules/get_traffic_filter.py:58-67 | The profile loop yields exactly `Collect`. |
| GetTrafficFilter.CollectRaises | plugins/modules/get_traffic_filter.py:59-67 | Collecting raises iff some row is not a dict, names its profile by a list or dict, or is the first of its name and has an unreadable header. Headers of later rows with the same name are never read. |
| GetTrafficFilter.CollectKeys | plugins/modules/get_traffic_filter.py:59-67 | The profile names are the rows' names without repetitions, in first-occurrence order. |
| GetTrafficFilter.CollectFirstWins | plugins/modules/get_traffic_filter.py:61-67 | The first row of each name gives that profile its rule count and action. |
| GetTrafficFilter.AttachProtections | plugins/modules/get_traffic_filter.py:70-95 | The protection loop yields exactly `Attach`. |
| GetTrafficFilter.AttachContents | plugins/modules/get_traffic_filter.py:70-95 | Attaching keeps the profile names, their order and their headers. Each profile gains the entries of exactly the protection rows naming it, in row order. |
| GetTrafficFilter.AttachRaises | plugins/modules/get_traffic_filter.py:70-95 | Attaching raises iff some protection row is not a dict, names its profile by a list or dict, or names a known profile and has an unreadable entry. |
| GetTrafficFilter.AttachCount | plugins/modules/get_traffic_filter.py:70-95 | Every protection row naming a known profile is attached exactly once, and the others are dropped. |
| Grouping.ListedKeeps | plugins/modules/get_traffic_filter.py:98-104 | With names listed, a profile is kept iff its name is listed. With none listed, every profile is kept. get_oos_profile.py lines 81-82 filter the same way. |
| Grouping.ListedAppend | plugins/modules/get_traffic_filter.py:100-100 | The filter distributes over concatenation, so kept profiles keep their order. |
| GetTrafficFilter.CollectEmpty | plugins/modules/get_traffic_filter.py:62-67 | Freshly collected profiles hold no protections. |
| GetTrafficFilter.RunModule | plugins/modules/get_traffic_filter.py:42-117 | The module run yields exactly `Run`. |
| GetTrafficFilter.RunOutcome | plugins/modules/get_traffic_filter.py:42-113 | The filter rows are fetched only after the profile table was read. Without a name filter, a reported run has one profile per distinct profile name, and `total_protections` counts exactly the protection rows that name one of them. |
| Tables.StrLookupReads | plugins/modules/get_syn_configuration.py:68-68 | Reading a code back through `str()` turns a value whose string form is a code into that code's word, the same for an integer and its decimal string. Any other value is kept as it is, and nothing raises. |
| GetSynConfiguration.PacketReportCodes | plugins/modules/get_syn_configuration.py:34-34 | Codes 1 and 2, as strings or integers, read back as `enable` and `disable`. A missing value stays `None`. |
| GetSynConfiguration.RowNames | plugins/modules/get_syn_configuration.py:55-59 | Every profile row that can be read is filed under its `rsIDSSynProfilesName`, or under `DEFAULT_PROFILE` when it has none. |
| GetSynConfiguration.RowReads | plugins/modules/get_syn_configuration.py:55-62 | Reading a profile row fails iff the row is not a dict, or its profile name or protection name is a list or dict. A row without a profile name is filed under `DEFAULT_PROFILE`. |
| GetSynConfiguration.UnknownProtection | plugins/modules/get_syn_configuration.py:62-70 | A row naming no known protection keeps its protection name, and every other detail is `None`. |
| GetSynConfiguration.KnownProtection | plugins/modules/get_syn_configuration.py:51-70 | A row naming a protection gets the details of the last protection of that name. |
| GetSynConfiguration.RunModule | plugins/modules/get_syn_configuration.py:28-93 | The module run yields exactly `Run`. |
| GetSynConfiguration.RunOutcome | plugins/modules/get_syn_configuration.py:28-93 | The profiles are fetched only after the protections were read, and a failure keeps the counts taken so far. A run is reported iff both tables are read, every protection is a dict with a hashable name, and every profile row can be read. A reported run keeps exactly the listed profiles (all when none is listed), with distinct names in first-occurrence order and one entry per row. It records the total count and, when filtering, the names and the filtered count. |
| GetOosProfile.ReverseEnum | plugins/modules/get_oos_profile.py:71-73 | The inner loop over `ENUM_MAPS` yields exactly `Reverse`. |
| GetOosProfile.ReverseByKey | plugins/modules/get_oos_profile.py:71-73 | With one map per key, a key with a map reads the value back through it via `str()`, and a key without one keeps the value. |
| GetOosProfile.EnumMapsByKey | plugins/modules/get_oos_profile.py:34-40 | `ENUM_MAPS` has one map per playbook key. |
| GetOosProfile.RiskCodes | plugins/modules/get_oos_profile.py:38-38 | Risk codes 1 to 3, as strings or integers, read back as `low`, `medium` and `high`. |
| GetOosProfile.RiskZeroRaw | plugins/modules/get_oos_profile.py:38-38 | Risk code 0, which the creating module writes for `info`, is reported raw, as a string or an integer. |
| GetOosProfile.PlainKeys | plugins/modules/get_oos_profile.py:71-74 | A key without an enum map, such as a threshold or a timer, keeps the device's value. |
| GetOosProfile.MapParams | plugins/modules/get_oos_profile.py:65-74 | The outer loop over `FIELD_MAP` yields exactly `Params`. |
| GetOosProfile.ParamsKeys | plugins/modules/get_oos_profile.py:65-74 | With distinct playbook keys, the parameters hold exactly the keys whose column is set to something other than `None`, in `FIELD_MAP` order. |
| GetOosProfile.ParamsGet | plugins/modules/get_oos_profile.py:65-74 | With distinct playbook keys, a key whose column is set holds that column read back, and a key whose column is missing or `None` is absent. |
| GetOosProfile.FieldMapDistinct | plugins/modules/get_oos_profile.py:42-52 | `FIELD_MAP` names each playbook key once. |
| GetOosProfile.MapProfiles | plugins/modules/get_oos_profile.py:62-78 | The profile loop yields exactly `Outputs`. |
| GetOosProfile.OutputsPerRow | plugins/modules/get_oos_profile.py:62-78 | Mapping fails iff some row is not a dict. Otherwise there is one output per row, in row order, holding the row's name and parameters, with no deduplication. |
| GetOosProfile.RunModule | plugins/modules/get_oos_profile.py:54-98 | The module run yields exactly `Run` with `FIELD_MAP` and `ENUM_MAPS`, the run as written, whose failures end in the handler's TypeError. |
| GetOosProfile.RunOutcome | plugins/modules/get_oos_profile.py:54-98 | One GET is sent. A run is reported iff the table is read and every row is a dict. |
| GetOosProfile.RunReport | plugins/modules/get_oos_profile.py:62-91 | A reported run has one output per row, in row order, and reports the listed ones (all when none is listed). Both the raw count and the total count are the number of rows; the filtered count is recorded only when filtering. |
| GetOosProfile.RunCrashes | plugins/modules/get_oos_profile.py:96-98 | As written, a run that is not reported never fails with a message: after its one GET it ends with the handler's TypeError (`debug_info` passed twice), raised while handling the exception that stopped it. |
| GetOosProfile.IntendedFails | plugins/modules/get_oos_profile.py:54-98 | As the handler means it, a run that is not reported fails with the message of the unread table or unreadable row, after its one GET, and records the raw count only when the table was read. |
| GetHttpsProfile.FormatProfile | plugins/modules/get_https_profile.py:40-54 | The formatting loop yields exactly `Format`. |
| GetHttpsProfile.FormatKeys | plugins/modules/get_https_profile.py:44-52 | With distinct keys, a formatted profile holds `profile_name` first, then exactly the keys whose column is set to something other than `None`, in `REVERSE_FIELD_MAP` order. |
| GetHttpsProfile.FormatName | plugins/modules/get_https_profile.py:44-44 | `profile_name` is the row's name, or `unknown` when the row has none. |
| GetHttpsProfile.FormatGet | plugins/modules/get_https_profile.py:46-52 | A key whose column is set holds that column, read back through the column's enum map when it has one. A key whose column is missing or `None` is absent. |
| GetHttpsProfile.ReverseFieldMapDistinct | plugins/modules/get_https_profile.py:15-25 | `REVERSE_FIELD_MAP` maps no two columns to one key and none to `profile_name`. |
| GetHttpsProfile.ChallengeCodes | plugins/modules/get_https_profile.py:35-35 | Challenge-method codes read back as `redirect_302` and `javascript`, from integers or strings. |
| GetHttpsProfile.RateLimitKept | plugins/modules/get_https_profile.py:49-52 | The rate limit has no enum map and is kept as it is. |
| GetHttpsProfile.FormatAllPerRow | plugins/modules/get_https_profile.py:90-90 | Formatting fails iff some kept row is not a dict. Otherwise there is one formatted profile per row, in row order. |
| GetHttpsProfile.RunModule | plugins/modules/get_https_profile.py:76-118 | The module run yields exactly `Run` with `REVERSE_FIELD_MAP` and `REVERSE_ENUM_MAPS`. |
| GetHttpsProfile.RunOutcome | plugins/modules/get_https_profile.py:76-118 | One GET is sent, and a failure records its message. A run is reported iff the reply holds a table with a length whose rows are all dicts. |
| GetHttpsProfile.RunReport | plugins/modules/get_https_profile.py:86-103 | `unique_profiles` always equals `total_entries`, because every kept row is formatted once and nothing is deduplicated. The result is filtered iff names are listed. A filtered table holds exactly the rows whose name is listed; an unfiltered one is the reply's table. |
| GetOosProfile.EnumMapsLookup | plugins/modules/get_oos_profile.py:34-40 | Each enumerated key finds its own code-to-word table, and only those five keys have one. |
| Tables.CreateStepShape | plugins/modules/create_oos_profile.py:170-180 | A pair is dropped iff its key is unknown, and rejected iff a known enumerated value is not in its table. An emitted pair is named by the key's column. |
| Tables.CreateStepInjective | plugins/modules/create_oos_profile.py:157-173 | When no column repeats, two playbook keys never write the same column. |
| Tables.CreateContents | plugins/modules/create_oos_profile.py:169-182 | The mapper raises iff some known enumerated value is outside its table. Otherwise it holds exactly the columns of the known keys, each once. |
| Tables.CreateValue | plugins/modules/create_oos_profile.py:173-180 | For an accepted profile, a known key's column holds the code of its lowercased word, or the value's string when the key is not enumerated. |
| CreateOosProfile.MapOosProfileParameters | plugins/modules/create_oos_profile.py:143-182 | The mapping loop yields exactly `MapParams`. |
| CreateOosProfile.FieldMapDistinct | plugins/modules/create_oos_profile.py:157-167 | Each playbook key has one column, no column repeats, and none is the name column. |
| CreateOosProfile.EnumCodesLookup | plugins/modules/create_oos_profile.py:149-155 | Each enumerated key finds its own word-to-code table, and only those five keys have one. |
| CreateOosProfile.RiskStep | plugins/modules/create_oos_profile.py:174-178 | A risk value is looked up lowercased in the risk table. A found word becomes its code, and any other word is rejected. |
| CreateOosProfile.RiskCodes | plugins/modules/create_oos_profile.py:153-177 | Risk words match in any case. `info`, `low`, `medium` and `high` become "0" to "3", and any other word is rejected. |
| CreateOosProfile.PlainValues | plugins/modules/create_oos_profile.py:170-180 | An unknown key is dropped. A known key without an enum table is sent as its string. |
| CreateOosProfile.BodyContents | plugins/modules/create_oos_profile.py:81-82 | The request body holds the profile name under the name column and exactly the mapped parameters besides. |
| CreateOosProfile.FieldMapsMirror | plugins/modules/create_oos_profile.py:157-167 | The reader's column map is the creator's, turned around and in the same order. |
| CreateOosProfile.SwitchAndActionInvert | plugins/modules/create_oos_profile.py:150-152 | The reader maps the code of each enable/disable and action word back to that word. |
| CreateOosProfile.RiskLevelsInvert | plugins/modules/create_oos_profile.py:153 | The reader maps the codes of `low`, `medium` and `high` back to those words. It has no word for the code of `info`. |
| CreateOosProfile.CodeReadsBack | plugins/modules/create_oos_profile.py:149-155 | The code of each enumerated word reads back as the word, except risk `info`, which reads back as "0". |
| CreateOosProfile.PlainReadsBack | plugins/modules/create_oos_profile.py:180 | A value of a key without an enum table reads back unchanged. |
| CreateOosProfile.ReadsBackThrough | plugins/modules/create_oos_profile.py:81-82 | When the reader's column map mirrors the creator's, each known key of an accepted profile is read back from the column it was sent in. |
| CreateOosProfile.RoundTrip | plugins/modules/create_oos_profile.py:143-182 | Reading a created profile back gives each known key it set as `Expected`: the lowercased word for an enumerated key, except risk `info` (which gives "0"), and the value's string otherwise. |
| CreateOosProfile.RunBatchLoop | plugins/modules/create_oos_profile.py:65-107 | The profile loop yields exactly `RunBatch`. |
| CreateOosProfile.ProfileStepOutcome | plugins/modules/create_oos_profile.py:66-107 | A profile with no name, or with rejected parameters, adds one error and sends nothing. Otherwise it sends exactly its create request. It is recorded as created iff the reply is 200 or 201, and as one error otherwise. |
| CreateOosProfile.BatchAccounts | plugins/modules/create_oos_profile.py:65-107 | Every profile is either created or adds exactly one error. `changed` is set iff some profile was created, and at most one request is sent per profile. |
| CreateOosProfile.RunModule | plugins/modules/create_oos_profile.py:13-140 | The module run equals `Run` over the module's own maps. |
| CreateOosProfile.RunOutcome | plugins/modules/create_oos_profile.py:46-131 | Preview reports a change iff profiles are listed, with one planned entry each. An applied run fails iff some error was recorded, and reports a change iff some profile was created. Its successes and errors add up to the profiles attempted. |
| Py.RemoveKeeps | plugins/modules/create_https_profile.py:139-140 | Popping a key from a copy keeps exactly the entries under other keys, and keeps the keys distinct. |
| Tables.CreateRoundTrip | plugins/modules/create_https_profile.py:35-44 | When the reverse maps lead every known key's column back to the key and read each code back as its word, reverse-mapping the mapper's output gives the accepted input restricted to known keys, with enumerated words lowercased and other values stringified. |
| CreateHttpsProfile.MapHttpsFloodProfileParameters | plugins/modules/create_https_profile.py:205-242 | The mapping loop yields exactly `MapParams`. |
| CreateHttpsProfile.MapApiValuesToUserFriendly | plugins/modules/create_https_profile.py:35-44 | The reverse mapping never raises, and its loop yields exactly the translation by the reverse maps. |
| CreateHttpsProfile.FieldMapDistinct | plugins/modules/create_https_profile.py:217-226 | Each playbook key has one column, no column repeats, and none is the name column. |
| CreateHttpsProfile.EnumTablesDistinct | plugins/modules/create_https_profile.py:24-33 | Each enumerated key, and each enumerated column, has one table. |
| CreateHttpsProfile.FieldMapsMirror | plugins/modules/create_https_profile.py:12-22 | The reverse column map is the creating one turned around, in the same order. |
| CreateHttpsProfile.WordTablesInvert | plugins/modules/create_https_profile.py:24-33 | Each word table reads every code of its creating table back as the word. |
| CreateHttpsProfile.EnumTablesMirror | plugins/modules/create_https_profile.py:207-215 | The creating and reverse enum tables line up key by column, and each reverse table inverts its creating table. |
| CreateHttpsProfile.KeyInvertsAt | plugins/modules/create_https_profile.py:12-33 | At each playbook key, the reverse maps undo the creating maps: the column leads back to the key, and every code reads back as its word. |
| CreateHttpsProfile.MapsInvertHere | plugins/modules/create_https_profile.py:12-33 | The reverse maps undo the creating maps at every known key. |
| CreateHttpsProfile.MapperRoundTrip | plugins/modules/create_https_profile.py:35-44 | The user-friendly form of accepted parameters is the input restricted to known keys, with enumerated words lowercased and other values stringified. |
| CreateHttpsProfile.RetryBody | plugins/modules/create_https_profile.py:139-142 | The retry body names the profile, lacks the packet-reporting column and agrees with the first body on every other column. |
| CreateHttpsProfile.RunBatchLoop | plugins/modules/create_https_profile.py:95-171 | The profile loop yields exactly `RunBatch`. |
| CreateHttpsProfile.ProfileStepOutcome | plugins/modules/create_https_profile.py:96-171 | A profile with no name or with rejected parameters adds one error and sends nothing. Otherwise it sends its create request, and, when that fails with a message naming the packet-reporting column, one retry without that column. It is created once, on the first success, and it is otherwise in error. A successful retry whose reply is not JSON also adds one error. |
| CreateHttpsProfile.BatchAccounts | plugins/modules/create_https_profile.py:95-171 | Each profile is created at most once, adds at most one error, and is created or in error. `changed` is set iff some profile was created, and at most two requests are sent per profile. |
| CreateHttpsProfile.RunModule | plugins/modules/create_https_profile.py:47-202 | The module run equals `Run` over the module's own maps. |
| CreateHttpsProfile.RunOutcome | plugins/modules/create_https_profile.py:77-193 | Preview reports a change iff profiles are listed, with one planned entry each. An applied run fails iff some error was recorded, and reports a change iff some profile was created. Successes never exceed the profiles attempted, and successes plus errors cover them. |
| Py.LowerPlain | plugins/modules/create_bdos_profile.py:239 | A string without upper-case letters is unchanged by `.lower()`. |
| CreateBdosProfile.MapNetfloodProfileParameters | plugins/modules/create_bdos_profile.py:174-283 | The mapping loop yields exactly `MapParams`. |
| CreateBdosProfile.StepShape | plugins/modules/create_bdos_profile.py:233-236 | A pair is dropped iff its key is not in the field map. A kept pair is written to its key's column. |
| CreateBdosProfile.StepInjective | plugins/modules/create_bdos_profile.py:197-236 | When no column repeats, two playbook keys never write the same column. |
| CreateBdosProfile.RangeChecked | plugins/modules/create_bdos_profile.py:245-279 | A ranged value is accepted iff `int()` converts it to a number inside its key's range. It is then sent as a decimal string that converts back to that number. |
| CreateBdosProfile.RangeTypeError | plugins/modules/create_bdos_profile.py:246-276 | A rejected ranged value carries the `TypeError` message iff `int()` cannot convert it at all. |
| CreateBdosProfile.RangeErrorNotTypeError | plugins/modules/create_bdos_profile.py:248 | A range message is never the `TypeError` message. |
| CreateBdosProfile.UnitChecked | plugins/modules/create_bdos_profile.py:266-272 | The rate-limit unit becomes "0", "1" or "2" for `kbps`, `mbps` or `gbps` in any case, and any other word is rejected. |
| CreateBdosProfile.StepTypeError | plugins/modules/create_bdos_profile.py:238-279 | Of all the mapper's rejections, only the `TypeError` of `int()` on a ranged value carries that message. |
| CreateBdosProfile.MapRaises | plugins/modules/create_bdos_profile.py:232-283 | The mapper raises iff some pair is rejected. Its message is the `TypeError` one iff the first rejected pair is an unconvertible ranged value. |
| CreateBdosProfile.MappedInRange | plugins/modules/create_bdos_profile.py:245-279 | For an accepted profile, with distinct columns, every ranged key's column holds the decimal string of `int()` of its value, inside the range. |
| CreateBdosProfile.FieldMapDistinct | plugins/modules/create_bdos_profile.py:197-230 | No device column repeats. |
| CreateBdosProfile.ColumnsDistinct | plugins/modules/create_bdos_profile.py:197-230 | Rows in each block of the field map have columns distinct from all later rows. |
| CreateBdosProfile.NoEnumForChecked | plugins/modules/create_bdos_profile.py:176-195 | No key with a range or unit check has an enum table, so its check is the one applied. |
| CreateBdosProfile.EnumKeysUnchecked | plugins/modules/create_bdos_profile.py:176-195 | No enum key is a ranged or unit key, and none ends in `_quota`. |
| CreateBdosProfile.AcceptedInRange | plugins/modules/create_bdos_profile.py:245-279 | With the module's own maps, an accepted profile's ranged columns hold in-range decimal strings of their values. |
| CreateBdosProfile.SensitivityAsWrittenUnreachable | plugins/modules/create_bdos_profile.py:193 | As written, no value selects code "1" of the sensitivity table. |
| CreateBdosProfile.SensitivityAsWrittenNotReachable | plugins/modules/create_bdos_profile.py:193 | As written, the sensitivity table has a word that no value can select. |
| CreateBdosProfile.SensitivityTable | plugins/modules/create_bdos_profile.py:193 | Whatever table is supplied for the sensitivity key is the one the enum maps hold for it. The maps the module runs with (`EnumCodes`) are built from the table as written, and the corrected maps (`CorrectedEnumCodes`) from the corrected table. |
| CreateBdosProfile.SensitivityReachable | plugins/modules/create_bdos_profile.py:193 | In the corrected table every word selects its own code, in any case. |
| CreateBdosProfile.WordLower | plugins/modules/create_bdos_profile.py:193 | Each word of the corrected sensitivity table is already lowercase. |
| CreateBdosProfile.WordFound | plugins/modules/create_bdos_profile.py:193 | Each word of the corrected sensitivity table finds its own code. |
| CreateBdosProfile.WrittenLacksIgnore | plugins/modules/create_bdos_profile.py:193 | The sensitivity table as written has no entry for the word `ignore_or_disable`. |
| CreateBdosProfile.SensitivityColumn | plugins/modules/create_bdos_profile.py:214 | The sensitivity key is sent as the column `rsNetFloodProfileLevelOfReuglarzation`. |
| CreateBdosProfile.SensitivityNeverOne | plugins/modules/create_bdos_profile.py:193-241 | With the maps the module runs with, no sensitivity value puts code "1" in the body. |
| CreateBdosProfile.SensitivityRejected | plugins/modules/create_bdos_profile.py:238-241 | With the maps the module runs with, a sensitivity value that lowercases to `ignore_or_disable` is rejected with the `Invalid value` error. |
| CreateBdosProfile.SensitivityCorrected | plugins/modules/create_bdos_profile.py:238-241 | With the corrected maps, a sensitivity value that lowercases to `ignore_or_disable` puts code "1" in the sensitivity column. |
| CreateBdosProfile.PhasesPartition | plugins/modules/create_bdos_profile.py:78-94 | The two phases are disjoint and together hold exactly the mapped parameters. The first phase holds the listed columns. |
| CreateBdosProfile.QuotasInPhase2 | plugins/modules/create_bdos_profile.py:78-94 | No quota column is sent with the creating POST. |
| CreateBdosProfile.RunBatchLoop | plugins/modules/create_bdos_profile.py:61-140 | The profile loop yields exactly `RunBatch`. |
| CreateBdosProfile.QuotaPhaseAccounts | plugins/modules/create_bdos_profile.py:116-132 | The second phase sends its PUT only when it has parameters. It adds one error iff that PUT raises or is refused, and changes nothing else. |
| CreateBdosProfile.ProfileStepOutcome | plugins/modules/create_bdos_profile.py:61-140 | A profile with no name or a rejected value adds one error and sends nothing. Otherwise its POST carries the first phase. A refused POST adds one error and no profile. An accepted POST creates the profile and sets `changed`, whatever the quota PUT then does. |
| CreateBdosProfile.ProfileStepRaises | plugins/modules/create_bdos_profile.py:69-75 | A named profile stops the run iff its parameters are not a dict or the mapper raises the `TypeError` of `int()`. |
| CreateBdosProfile.BatchAccounts | plugins/modules/create_bdos_profile.py:61-140 | Each profile is created at most once, and every profile not created adds an error. `changed` is set iff some profile was created, and at most two requests are sent per profile. |
| CreateBdosProfile.RunModule | plugins/modules/create_bdos_profile.py:13-171 | The module run equals `Run` over the module's own maps, with the sensitivity table as written. |
| CreateBdosProfile.RunOutcome | plugins/modules/create_bdos_profile.py:43-162 | Preview reports a change iff profiles are listed, with one planned entry each. An applied run fails iff some error was recorded, and reports a change iff some profile was created. Profiles not created are covered by errors. |
| Py.GetAppend | plugins/modules/edit_security_policy.py:110-124 | In two dicts written one after the other, a key's value is its first occurrence. |
| Tables.FillLoop | plugins/modules/edit_security_policy.py:97-152 | The loop of conditional insertions builds exactly the body and change list that `Fill` describes. |
| Tables.FillShape | plugins/modules/edit_security_policy.py:97-157 | The built body has distinct keys, each from a slot whose condition held. It is empty iff no condition held. Every change text comes from such a slot, one per key when columns are distinct. |
| Tables.FillGet | plugins/modules/edit_security_policy.py:97-152 | With distinct columns, each column holds its slot's value iff the slot's condition held. |
| EditSecurityPolicy.MapSecurityPolicyParameters | plugins/modules/edit_security_policy.py:218-265 | The conditional fill of `result` yields the mapper's code table. |
| EditSecurityPolicy.MapPolicyKeys | plugins/modules/edit_security_policy.py:243-263 | The mapper emits a key iff it is one of the four enumerated settings and the policy gives it a non-None value. |
| EditSecurityPolicy.MapPolicyCodes | plugins/modules/edit_security_policy.py:246-263 | Each emitted code is the table entry for the lowercased `str()` of the value, or the default ("2" for packet reporting, "1" for the others). |
| EditSecurityPolicy.DirectionWords | plugins/modules/edit_security_policy.py:222-225 | The five two-way words give "2". Any other word, known or unknown, gives "1". |
| EditSecurityPolicy.StateWords | plugins/modules/edit_security_policy.py:227-230 | The four disabling words give "2". Any other word gives "1". |
| EditSecurityPolicy.ActionWords | plugins/modules/edit_security_policy.py:232-235 | `report_only` and `report` give "0". Any other word gives "1". |
| EditSecurityPolicy.PacketReportingWords | plugins/modules/edit_security_policy.py:237-240 | The three enabling words give "1". Any other word gives "2". |
| EditSecurityPolicy.BuildRequest | plugins/modules/edit_security_policy.py:97-152 | Builds `request_body` and `changes_applied` as the module's ordered insertions describe. |
| EditSecurityPolicy.BodySettings | plugins/modules/edit_security_policy.py:100-128 | The networks are sent as given, the enumerated settings as the mapper's codes, and the priority as its string. Each is present iff the playbook gives it a non-None value. |
| EditSecurityPolicy.BodyBinding | plugins/modules/edit_security_policy.py:130-152 | A profile column is in the body iff the playbook names its key. It holds the stripped value, or "" when the value is None. |
| EditSecurityPolicy.BodyKeys | plugins/modules/edit_security_policy.py:97-152 | The body holds only the seventeen policy columns, each once, with one change description per column. |
| EditSecurityPolicy.BodyEmpty | plugins/modules/edit_security_policy.py:97-157 | The body is empty (the policy is skipped) iff no setting is given a non-None value and no profile key is named. |
| EditSecurityPolicy.RunBatchLoop | plugins/modules/edit_security_policy.py:84-183 | The loop over the policies ends in the batch state that the per-policy step describes. |
| EditSecurityPolicy.EditStepOutcome | plugins/modules/edit_security_policy.py:85-183 | A nameless policy adds one error and sends nothing. An empty body is skipped with no error and no request. Otherwise exactly one PUT is sent, and the policy is edited iff the reply's JSON status is "ok", otherwise it adds one error. |
| EditSecurityPolicy.BatchAccounts | plugins/modules/edit_security_policy.py:84-193 | Edits plus errors equal the requests sent plus the nameless policies, which is at most the number of policies. `changed` holds iff some policy was edited. |
| EditSecurityPolicy.ChangesListed | plugins/modules/edit_security_policy.py:56-60 | The preview lists `key: value` for exactly the keys other than `policy_name` whose value is not None. |
| EditSecurityPolicy.PlanAccounts | plugins/modules/edit_security_policy.py:47-77 | The preview rejects exactly the nameless policies and plans every other one. |
| EditSecurityPolicy.RunModule | plugins/modules/edit_security_policy.py:38-216 | Runs the preview or the edit loop as `Run` describes. |
| EditSecurityPolicy.RunOutcome | plugins/modules/edit_security_policy.py:47-211 | Preview sends nothing, plans every named policy, and fails iff some policy lacks a name. An applied run fails iff it has errors and no edit, and reports a change iff some policy was edited. |
| CreateSecurityPolicy.MapDefaults | plugins/modules/create_security_policy.py:214-219 | A policy naming none of the four settings maps to direction "1", state "1", action "1", packet reporting "2". |
| CreateSecurityPolicy.DefaultWords | plugins/modules/create_security_policy.py:194-219 | The default words `oneway`, `enable`, `block`, `disable` are lowercase and select codes 1, 1, 1, 2 in their tables. |
| CreateSecurityPolicy.CreateActionWords | plugins/modules/create_security_policy.py:204-207 | `report_only` and `report` give "0"; the blocking words and every unknown word give "1". |
| CreateSecurityPolicy.BuildBody | plugins/modules/create_security_policy.py:92-119 | Building the body in place yields the specified body, or the `strip()` exception when a binding value is not a string. |
| CreateSecurityPolicy.AttachLoop | plugins/modules/create_security_policy.py:117-119 | The binding loop adds exactly the non-blank bindings after the fixed columns. It raises iff some binding value is truthy but not a string. |
| CreateSecurityPolicy.BodyFixed | plugins/modules/create_security_policy.py:92-101 | The body always holds the name, both networks (`any` by default), the four codes and `str()` of the priority ("100" by default). |
| CreateSecurityPolicy.BodyBinding | plugins/modules/create_security_policy.py:104-119 | A profile column is present iff the playbook's value is a non-blank string. It then holds that string unstripped. |
| CreateSecurityPolicy.BodyKeys | plugins/modules/create_security_policy.py:92-119 | The body has distinct keys, all among the 18 rule-table columns. |
| CreateSecurityPolicy.RunBatchLoop | plugins/modules/create_security_policy.py:80-152 | The loop over policies computes the batch fold, stopping at the first exception that escapes a policy. |
| CreateSecurityPolicy.PostOutcome | plugins/modules/create_security_policy.py:128-152 | One POST per named policy. Status 200 records a creation and sets `changed`. Any other status or an exception records exactly one error. |
| CreateSecurityPolicy.BatchAccounts | plugins/modules/create_security_policy.py:80-152 | Creations plus errors equal the policies listed. `changed` iff something was created. At most one request per policy. |
| CreateSecurityPolicy.RunBatchRaises | plugins/modules/create_security_policy.py:80-119 | The batch raises iff some named policy has a binding whose `strip()` raises, and then carries that exception's message. |
| CreateSecurityPolicy.RunModule | plugins/modules/create_security_policy.py:46-188 | The module run equals the specified run with the create module's code tables. |
| CreateSecurityPolicy.RunOutcome | plugins/modules/create_security_policy.py:46-185 | Preview reports a change iff policies are listed, one planned entry each. An applied run fails iff an error was recorded, changes iff something was created, and its summary adds up. |
| CreateFullConfig.BuildBody | plugins/modules/create_full_config.py:94-141 | Building the body in place yields the specified sparse body, or the `strip()` exception when a binding value is not a string. |
| CreateFullConfig.BodySettings | plugins/modules/create_full_config.py:97-123 | The body always names the policy. Networks, the four enumerated codes and the priority string are present exactly when the playbook gives them a non-None value. |
| CreateFullConfig.BodyBinding | plugins/modules/create_full_config.py:125-141 | A profile column is present iff the playbook's value is a non-blank string. It then holds that string unstripped. |
| CreateFullConfig.BodyKeys | plugins/modules/create_full_config.py:97-141 | The body has distinct keys, all among the 18 rule-table columns. |
| CreateFullConfig.ReportPriority | plugins/modules/create_full_config.py:157-177 | The created-policy report carries `priority` exactly when the playbook gives a non-None one, and carries it as given. |
| CreateFullConfig.RunBatchLoop | plugins/modules/create_full_config.py:86-186 | The loop over policies computes the batch fold, stopping at the first exception that escapes a policy. |
| CreateFullConfig.BatchAccounts | plugins/modules/create_full_config.py:86-186 | Creations plus errors equal the policies listed. `changed` iff something was created. At most one request per policy. |
| CreateFullConfig.RunBatchRaises | plugins/modules/create_full_config.py:86-141 | The batch raises iff some named policy has a binding whose `strip()` raises, and then carries that exception's message. |
| CreateFullConfig.RunModule | plugins/modules/create_full_config.py:46-222 | The module run equals the specified run with the edit module's code tables, which this module's mapper repeats. |
| CreateFullConfig.RunOutcome | plugins/modules/create_full_config.py:46-219 | Preview reports a change iff policies are listed, with one eleven-key entry each. An applied run fails iff an error was recorded, changes iff something was created, and its summary adds up. |
| DeleteSecurityPolicy.DefaultMode | plugins/modules/delete_security_policy.py:91-121 | With no `deletion_mode`, a policy is deleted by a DELETE of its `rsIDSNewRulesTable` row with no body. |
| DeleteSecurityPolicy.RunBatchLoop | plugins/modules/delete_security_policy.py:89-143 | The loop over deletions computes the batch fold. |
| DeleteSecurityPolicy.DeleteStepOutcome | plugins/modules/delete_security_policy.py:89-143 | A nameless item adds one error and sends nothing. A named item sends exactly the DELETE its mode selects: `deletenetworktemplatelist` with `policiesToDelete` in `policy_and_profiles` mode, the table row otherwise. It is recorded as deleted iff the JSON reply's status is "ok", and as one error otherwise. |
| DeleteSecurityPolicy.BatchAccounts | plugins/modules/delete_security_policy.py:86-154 | Deletions plus errors equal the items. Exactly the named items send a request. `changed` iff something was deleted. |
| DeleteSecurityPolicy.PlanLoop | plugins/modules/delete_security_policy.py:50-70 | The preview loop computes the preview plan. |
| DeleteSecurityPolicy.PlanMatchesSent | plugins/modules/delete_security_policy.py:50-121 | Preview and execution reject the same items. Each planned operation corresponds, in order, to the DELETE that execution sends for it. |
| DeleteSecurityPolicy.DescribeMode | plugins/modules/delete_security_policy.py:61-68 | The description names the policy and ends with " and associated profiles" exactly in `policy_and_profiles` mode. |
| DeleteSecurityPolicy.RunModule | plugins/modules/delete_security_policy.py:46-171 | The module run equals the specified run. |
| DeleteSecurityPolicy.RunOutcome | plugins/modules/delete_security_policy.py:50-171 | Preview reports no change and fails iff an item lacks a name. An applied run fails iff it has errors and no deletion, changes iff something was deleted, and its counts add up. |
| CreateNetworkClass.GroupsLoop | plugins/modules/create_network_class.py:64-116 | the per-class loop over `enumerate(groups)` yields exactly the fold ClassGroups: an incomplete group adds one error, a complete one one POST and one success or failed entry |
| CreateNetworkClass.RunBatchLoop | plugins/modules/create_network_class.py:51-116 | the loop over the network classes yields exactly the fold RunBatch, stopping with the exception a non-dict or non-iterable value raises |
| CreateNetworkClass.GroupStepOutcome | plugins/modules/create_network_class.py:64-116 | one group: without address or mask it adds one error and sends nothing; otherwise it sends the POST to `rsBWMNetworkTable/{class}/{index}` with the five-field body and records success iff the reply parsed as JSON, else one error and a failed entry |
| CreateNetworkClass.PlanGroupsLoop | plugins/modules/create_network_class.py:151-165 | the preview loop over one class's groups yields exactly the fold PlanGroups |
| CreateNetworkClass.PlanLoop | plugins/modules/create_network_class.py:143-165 | the preview loop over the classes yields exactly the fold Plan |
| CreateNetworkClass.PlanGroupsIndex | plugins/modules/create_network_class.py:151-165 | every planned operation of a class comes from a complete dict group at the position its index names, with that group's address and mask |
| CreateNetworkClass.PlanGroupsOrdered | plugins/modules/create_network_class.py:151-165 | the planned indices of a class lie within its group list and increase strictly, so no group is planned twice |
| CreateNetworkClass.PlanGroupsCovers | plugins/modules/create_network_class.py:151-165 | every complete dict group of a class is planned |
| CreateNetworkClass.CountSplit | plugins/modules/create_network_class.py:124-128 | every created_groups entry is a success or a failure, so the two counts add up to the groups attempted |
| CreateNetworkClass.PlanMatchesSent | plugins/modules/create_network_class.py:51-165 | preview and execution raise on the same inputs; otherwise the POSTs sent are exactly the planned operations in order, the execution's errors are the preview's plus one per failed POST, and `changed` is set iff some POST succeeded |
| CreateNetworkClass.RunModule | plugins/modules/create_network_class.py:31-200 | the module run (the pre-try group count, then preview or execution, then the error handling) yields exactly Run |
| CreateNetworkClass.RunOutcome | plugins/modules/create_network_class.py:34-197 | a run raises before its `try` iff some class's groups have no length; a preview changes something iff it plans an operation; attempted = successful + failed; a run fails iff it has errors and changed nothing, and otherwise reports its errors as warnings |
| DeleteNetworkClass.IndexRules | plugins/modules/delete_network_class.py:52-65 | an entry without an `index` key is rejected, while index 0 is accepted and deletes row `/0` of its class |
| DeleteNetworkClass.RunBatchLoop | plugins/modules/delete_network_class.py:51-98 | the deletion loop yields exactly the fold RunBatch |
| DeleteNetworkClass.DeleteStepOutcome | plugins/modules/delete_network_class.py:52-98 | an entry without a class name or with index "" or None adds its error and sends nothing; an accepted entry sends one DELETE of `rsBWMNetworkTable/{class}/{index}` and adds one entry, a success iff the reply parsed as JSON and otherwise a failure with one error |
| DeleteNetworkClass.CountSplit | plugins/modules/delete_network_class.py:104-108 | every deleted_groups entry is a success or a failure, so the two counts add up to the attempts |
| DeleteNetworkClass.BatchAccounts | plugins/modules/delete_network_class.py:51-108 | one DELETE and one entry per accepted item, in order; errors = rejected items + failed deletions; `changed` iff some deletion succeeded |
| DeleteNetworkClass.PlanLoop | plugins/modules/delete_network_class.py:122-139 | the preview loop yields exactly the fold Plan |
| DeleteNetworkClass.PlanMatchesSent | plugins/modules/delete_network_class.py:51-139 | the preview rejects the same entries as execution, and its planned operations are the DELETEs execution sends, in order, under the same class and index |
| DeleteNetworkClass.RunModule | plugins/modules/delete_network_class.py:37-174 | the module run yields exactly Run |
| DeleteNetworkClass.RunOutcome | plugins/modules/delete_network_class.py:100-167 | a preview changes something iff it plans a deletion; attempted = successful + failed and attempted + rejected = entries; a run fails iff it has errors and no change, otherwise its errors are warnings |
| ConnectionLimit.CodeExact | plugins/modules/edit_cl_configuration.py:60-66 | `MAP[value]` yields a code exactly for a string spelled as a listed word, the code listed for it; it raises only for an unhashable value |
| ConnectionLimit.CodesCaseSensitive | plugins/modules/edit_cl_configuration.py:26-30 | lookups are exact: `TCP` and `Drop` are not words of their tables, while `tcp` gives 2 and `drop` gives 10 |
| ConnectionLimit.PartialLoop | plugins/modules/edit_cl_configuration.py:57-98 | the successive conditional insertions into `body` yield exactly the fold PartialBody |
| ConnectionLimit.PartialFirstFailure | plugins/modules/edit_cl_configuration.py:58-98 | a body is built iff every given parameter is accepted; otherwise the build stops at the first parameter that is not, with its `Invalid <key> value: <value>` message or its exception |
| ConnectionLimit.PartialContents | plugins/modules/edit_cl_configuration.py:58-98 | a built body holds a column exactly for each given parameter, in the insertion order, carrying the given value or its table code |
| EditClConfiguration.PrepareOutcome | plugins/modules/edit_cl_configuration.py:52-102 | an item whose index is missing or None is skipped; an item is ready iff all its given parameters are accepted and at least one is given, and its body then holds one column per given parameter |
| EditClConfiguration.PrepareRejects | plugins/modules/edit_cl_configuration.py:60-98 | the first value outside its table drops the item with that parameter's message, and an unhashable value raises |
| EditClConfiguration.RunBatchLoop | plugins/modules/edit_cl_configuration.py:49-121 | the loop over the items yields exactly the fold RunBatch, stopping at an uncaught exception |
| EditClConfiguration.EditStepOutcome | plugins/modules/edit_cl_configuration.py:99-121 | a skipped item adds no result and sends nothing; a ready item adds exactly one result for its PUT to `rsIDSConnectionLimitAttackTable/{idx}`, sent only outside check mode; the result is a change iff the reply parsed as JSON, and otherwise records the error |
| EditClConfiguration.BatchAccounts | plugins/modules/edit_cl_configuration.py:103-122 | check mode sends nothing and changes nothing; otherwise the results' requests are the PUTs sent, in order; `changed` holds iff some PUT succeeded |
| EditClConfiguration.ResultsCount | plugins/modules/edit_cl_configuration.py:49-121 | `results` holds exactly one entry per ready item |
| EditClConfiguration.RunModule | plugins/modules/edit_cl_configuration.py:38-124 | the module run yields exactly Run |
| EditClConfiguration.RunOutcome | plugins/modules/edit_cl_configuration.py:49-122 | a finished run has one result per ready item and reports a change iff some result records one, never in check mode |
| EditClProtection.RunModule | plugins/modules/edit_cl_protection.py:235-318 | the module run yields exactly Run, the run as written, over the parameters in the module's insertion order |
| EditClProtection.RunSends | plugins/modules/edit_cl_protection.py:238-298 | a request is sent iff the run is not in check mode, every non-None parameter is accepted and at least one is given; a change is reported only after a request |
| EditClProtection.RunRequest | plugins/modules/edit_cl_protection.py:240-309 | the request sent is one PUT of `rsIDSConnectionLimitAttackTable/{protection_index}` whose body has one column per non-None parameter, carrying the value or its code; the run changes something iff the reply is JSON |
| EditClProtection.RunRejects | plugins/modules/edit_cl_protection.py:247-281 | a value outside its table fails the module with the first such parameter's `Invalid <key> value` message, before anything is sent |
| EditClProtection.NothingGivenFails | plugins/modules/edit_cl_protection.py:284-285 | As written, outside check mode with no parameter given, `exit_json` receives `changed` twice; the handler fails the module with that TypeError's message, and nothing is sent. |
| EditClProtection.IntendedNothingGiven | plugins/modules/edit_cl_protection.py:284-285 | As meant, outside check mode with no parameter given the module exits unchanged with "No parameters provided to update"; on every other input the run meant is the run as written. |
| CreateClProtection.TranslateExact | plugins/modules/create_cl_protection.py:227-234 | translation succeeds iff each of the five values (or its default) is spelled exactly as a word of its table, and every code is the one listed for that word |
| CreateClProtection.DefaultCodes | plugins/modules/create_cl_protection.py:201-232 | with the word parameters left out, the codes are tcp 2, dst_ip 3, cps 1, drop 10 and disable 2 |
| CreateClProtection.BodyFields | plugins/modules/create_cl_protection.py:248-256 | the body has exactly the seven columns, each once; the threshold is the parameter (50 by default) unchanged |
| CreateClProtection.DefaultIndex | plugins/modules/create_cl_protection.py:247 | with no index given, the POST targets row 0 |
| CreateClProtection.RunModule | plugins/modules/create_cl_protection.py:223-288 | the module run yields exactly Run |
| CreateClProtection.RunOutcome | plugins/modules/create_cl_protection.py:227-285 | an untranslatable value fails before any request, check mode included; check mode sends nothing; otherwise one refresh GET is sent iff `refresh_state`, then the POST of the full row, and only the POST's reply decides the outcome |
| CreateClConfiguration.MapGetExact | plugins/modules/create_cl_configuration.py:144-150 | `MAP.get(v, fallback)` raises exactly for an unhashable value; otherwise it gives the listed word's code, or the fallback for any value that is not a listed word |
| CreateClConfiguration.WordRaises | plugins/modules/create_cl_configuration.py:144-150 | a word column raises exactly when the given value cannot be a dict key, and otherwise holds the code of the given word (or of its default) or the fallback |
| CreateClConfiguration.MapParametersRaises | plugins/modules/create_cl_configuration.py:131-153 | the mapping succeeds iff the protection is a dict with a `name` whose five word values are all hashable |
| CreateClConfiguration.MapParametersShape | plugins/modules/create_cl_configuration.py:142-151 | a mapped row has exactly the eight columns, in order, each once |
| CreateClConfiguration.RowShape | plugins/modules/create_cl_configuration.py:142-151 | the row written by the mapping has the eight distinct columns |
| CreateClConfiguration.RowValues | plugins/modules/create_cl_configuration.py:142-151 | each column of the row holds the value it was written with |
| CreateClConfiguration.MapParametersValues | plugins/modules/create_cl_configuration.py:142-151 | name, application port group (empty by default) and threshold as a string (50 by default) pass through; each word column holds its table's code or its fallback |
| CreateClConfiguration.MapDefaults | plugins/modules/create_cl_configuration.py:135-151 | a protection that gives only its name maps to tcp 2, no port group, threshold "50", dst_ip 3, drop 10, disable 2 and cps 1 |
| CreateClConfiguration.MapDefaultsWith | plugins/modules/create_cl_configuration.py:142-151 | with any tables whose defaults are listed with their fallback codes, a name-only protection maps to the fallback codes |
| CreateClConfiguration.TableDefaults | plugins/modules/create_cl_configuration.py:135-139 | each default word (tcp, dst_ip, drop, disable, cps) is listed and its code equals its fallback |
| CreateClConfiguration.WordDefault | plugins/modules/create_cl_configuration.py:144-150 | a word that is left out maps through its default |
| CreateClConfiguration.FoldStaysAborted | plugins/modules/create_cl_configuration.py:124-126 | once an exception has ended the run, later elements change nothing |
| CreateClConfiguration.FoldLast | plugins/modules/create_cl_configuration.py:54-109 | a loop over a list is the loop over all but the last element followed by the last element's step |
| CreateClConfiguration.CreateOne | plugins/modules/create_cl_configuration.py:55-80 | the body of the protection loop is exactly the protection step |
| CreateClConfiguration.ProtectionsLoop | plugins/modules/create_cl_configuration.py:54-80 | the protection loop, stopping at the first exception, computes exactly Protections |
| CreateClConfiguration.AttachLoop | plugins/modules/create_cl_configuration.py:90-109 | the loop over one profile's protections computes exactly Attachments |
| CreateClConfiguration.AttachOne | plugins/modules/create_cl_configuration.py:86-109 | the body of the profile loop is exactly the profile step |
| CreateClConfiguration.ProfilesLoop | plugins/modules/create_cl_configuration.py:86-109 | the profile loop computes exactly Profiles |
| CreateClConfiguration.RunModule | plugins/modules/create_cl_configuration.py:45-126 | the module run yields exactly Run with the module's mapping and `str` |
| CreateClConfiguration.PathBelow | plugins/modules/create_cl_configuration.py:68 | a path built below a table's configuration path lies below that table |
| CreateClConfiguration.TablesApart | plugins/modules/create_cl_configuration.py:68-92 | no request lies below both the protection table and the profile table |
| CreateClConfiguration.ProtectionRequestsOnTable | plugins/modules/create_cl_configuration.py:68 | the refresh GET and each protection POST are for the protection table |
| CreateClConfiguration.AttachRequestOnTable | plugins/modules/create_cl_configuration.py:92-101 | each attach request is a POST for the profile table |
| CreateClConfiguration.ProtectionStepOutcome | plugins/modules/create_cl_configuration.py:55-80 | one protection is created iff it has a name, maps and its POST (after the refresh GET unless first) is answered with JSON; then its record and requests are appended and nothing else changes |
| CreateClConfiguration.ProtectionStepSucceeds | plugins/modules/create_cl_configuration.py:63-73 | a created protection adds two requests, or one for the first |
| CreateClConfiguration.ProtectionsLast | plugins/modules/create_cl_configuration.py:54-80 | the protection loop is the loop over all but the last protection, then the last one's step |
| CreateClConfiguration.ProtectionsOnTable | plugins/modules/create_cl_configuration.py:54-80 | however it ends, the protection loop has sent requests for the protection table only |
| CreateClConfiguration.ProtectionsSucceed | plugins/modules/create_cl_configuration.py:54-80 | the protections are all created iff each maps and the POST of the k-th, request 2k, is answered with JSON; they then take 2n-1 requests |
| CreateClConfiguration.CreateRequestsAt | plugins/modules/create_cl_configuration.py:61-72 | the k-th protection's POST is request 2k, to the row of its index (0 by default), and for k > 0 the refresh GET comes just before it |
| CreateClConfiguration.ProtectionsSent | plugins/modules/create_cl_configuration.py:54-72 | when all protections are created, exactly their refresh GETs and POSTs have been sent, in order |
| CreateClConfiguration.ProtectionsCreated | plugins/modules/create_cl_configuration.py:54-80 | when all protections are created, each is recorded with its name, its index and the reply to its POST, in order, and no profile is recorded yet |
| CreateClConfiguration.AttachmentsLast | plugins/modules/create_cl_configuration.py:90-109 | attaching is attaching all but the last protection, then the last |
| CreateClConfiguration.AttachmentsSent | plugins/modules/create_cl_configuration.py:90-101 | however it ends, attaching keeps the earlier requests and sends the k-th protection's POST at its own position, at most one per protection |
| CreateClConfiguration.AttachmentsSucceed | plugins/modules/create_cl_configuration.py:90-109 | attaching carries on iff every one of its POSTs is answered with JSON |
| CreateClConfiguration.AttachRequestsAppend | plugins/modules/create_cl_configuration.py:90-101 | the attach requests of two lists of pairs are those of the first followed by those of the second |
| CreateClConfiguration.RecordsAppend | plugins/modules/create_cl_configuration.py:102-108 | the records of two lists of pairs are those of the first followed by those of the second, read from the following replies |
| CreateClConfiguration.ExtendsJoin | plugins/modules/create_cl_configuration.py:86-109 | attaching one list of pairs and then another attaches their concatenation |
| CreateClConfiguration.AttachmentsDone | plugins/modules/create_cl_configuration.py:90-109 | when attaching carries on, it has sent the POST of each of the profile's pairs, recorded each with the reply to its POST, and left the created protections unchanged |
| CreateClConfiguration.ProfileStepPairs | plugins/modules/create_cl_configuration.py:87-90 | a profile whose name or protections cannot be read ends the run before its POSTs; otherwise its protections are attached in order |
| CreateClConfiguration.ProfilesLast | plugins/modules/create_cl_configuration.py:86-109 | the profile loop is the loop over all but the last profile, then the last one's step |
| CreateClConfiguration.ProfilesOnTable | plugins/modules/create_cl_configuration.py:86-101 | however it ends, the profile loop keeps the earlier requests and adds only POSTs for the profile table |
| CreateClConfiguration.AnsweredSplit | plugins/modules/create_cl_configuration.py:72-73 | a run of replies is all JSON iff both of its parts are |
| CreateClConfiguration.ProfilesSucceed | plugins/modules/create_cl_configuration.py:86-109 | the profile loop carries on iff every profile's pairs can be read and each pair's POST is answered with JSON; it then sends one POST per pair |
| CreateClConfiguration.ProfilesDone | plugins/modules/create_cl_configuration.py:86-109 | when the profile loop carries on, it has attached exactly the pairs the profiles ask for, in order |
| CreateClConfiguration.RunSucceeds | plugins/modules/create_cl_configuration.py:49-126 | check mode sends nothing and reports no change; otherwise the run completes iff every protection maps, every profile can be read and every POST is answered with JSON |
| CreateClConfiguration.RunDone | plugins/modules/create_cl_configuration.py:49-116 | a completed run reports a change iff there was a protection or a pair, each protection with its name, index and reply, each pair with its reply, and sent exactly the protections' requests followed by one POST per pair |
| CreateClConfiguration.RunOrder | plugins/modules/create_cl_configuration.py:49-109 | every request is for the protection table or a POST for the profile table, and no protection-table request follows a profile-table one |
| CreateClConfiguration.AttachmentsAgree | plugins/modules/create_cl_configuration.py:90-109 | attaching reads only the replies to the requests it sends itself |
| CreateClConfiguration.ProfilesAgree | plugins/modules/create_cl_configuration.py:86-109 | the profile loop reads only the replies to the requests it sends itself |
| CreateClConfiguration.ProtectionsAgree | plugins/modules/create_cl_configuration.py:54-80 | the protection loop reads only the replies to its POSTs |
| CreateClConfiguration.RunIgnoresRefreshReplies | plugins/modules/create_cl_configuration.py:155-163 | what the refresh GETs return or raise never changes the run's result |
| CreateSynConfiguration.MergeLoop | plugins/modules/create_syn_configuration.py:111-115 | the loop over the profile's params builds the body that `Merge` specifies |
| CreateSynConfiguration.Post | plugins/modules/create_syn_configuration.py:64-95 | one POST: an exception ends the run with the POST sent; otherwise the job is recorded with its status and reply and the refresh GET follows |
| CreateSynConfiguration.CreateOne | plugins/modules/create_syn_configuration.py:50-95 | one iteration of the protections loop carries out that protection's plan |
| CreateSynConfiguration.AttachAll | plugins/modules/create_syn_configuration.py:100-149 | one iteration of the profiles loop carries out that profile's plan, pair by pair |
| CreateSynConfiguration.RunModule | plugins/modules/create_syn_configuration.py:44-167 | the two nested loops compute the result that `Run` specifies |
| CreateSynConfiguration.ExecuteAppend | plugins/modules/create_syn_configuration.py:50-149 | running two lists of POSTs one after the other is running the first and, unless it raised, the second from where it left off |
| CreateSynConfiguration.PerformThen | plugins/modules/create_syn_configuration.py:50-149 | the loops over two stretches of entries compose: nothing runs after an exception |
| CreateSynConfiguration.ExecuteStaysAborted | plugins/modules/create_syn_configuration.py:162-164 | once a POST raised, later jobs change nothing |
| CreateSynConfiguration.ProtectionsStayAborted | plugins/modules/create_syn_configuration.py:50-51 | once the protections loop raised, later protections change nothing |
| CreateSynConfiguration.ProfilesStayAborted | plugins/modules/create_syn_configuration.py:100-102 | once the profiles loop raised, later profiles change nothing |
| CreateSynConfiguration.ProtectionBodyValues | plugins/modules/create_syn_configuration.py:53-78 | a protection's row has its four distinct columns, and the record's parameters are the given thresholds and port group or 1000, 500 and "" |
| CreateSynConfiguration.DefaultIndex | plugins/modules/create_syn_configuration.py:52-60 | a named protection without an index is POSTed once, to `rsIDSSYNAttackTable/0` |
| CreateSynConfiguration.ParamMapping | plugins/modules/create_syn_configuration.py:97-114 | only `profile_type` is renamed, to `rsIDSSynProfileType`; only its string values can change, and one becomes 4 iff it lowercases to `syn_protection` |
| CreateSynConfiguration.MergeKeys | plugins/modules/create_syn_configuration.py:105-115 | merging params keeps the body's keys first and in order, and keeps them distinct |
| CreateSynConfiguration.MergeGetUntouched | plugins/modules/create_syn_configuration.py:111-115 | a column no param is written to keeps its value |
| CreateSynConfiguration.MergeGetLast | plugins/modules/create_syn_configuration.py:111-115 | a column params are written to holds the translated value of the last such param |
| CreateSynConfiguration.RequestsAt | plugins/modules/create_syn_configuration.py:64-95 | with every POST answered, the k-th job's POST is request 2k and the refresh GET comes right after it |
| CreateSynConfiguration.RequestsAppend | plugins/modules/create_syn_configuration.py:50-149 | the requests of two lists of jobs are those of the first followed by those of the second |
| CreateSynConfiguration.ExecuteSucceeds | plugins/modules/create_syn_configuration.py:64-95 | running jobs carries on iff every POST gets a reply, and has then sent each POST followed by its refresh GET |
| CreateSynConfiguration.ExecuteCreates | plugins/modules/create_syn_configuration.py:71-82 | running protections records each of them, in order, with the status and data of its own reply, and attaches nothing |
| CreateSynConfiguration.ExecuteAttaches | plugins/modules/create_syn_configuration.py:128-135 | running pairs records each of them, in order, with its own reply, and creates nothing |
| CreateSynConfiguration.FirstRaised | plugins/modules/create_syn_configuration.py:64 | when some POST raises, there is a first one |
| CreateSynConfiguration.ExecuteAborted | plugins/modules/create_syn_configuration.py:64 | the first POST that raises ends the run with its exception, after the earlier jobs' requests and that POST, with no refresh GET after it |
| CreateSynConfiguration.ExecuteAgree | plugins/modules/create_syn_configuration.py:170-178 | running jobs reads only the replies to the POSTs |
| CreateSynConfiguration.CreateJobs | plugins/modules/create_syn_configuration.py:50-60 | one POST per protection, each a protection |
| CreateSynConfiguration.ProtectionsPlanShape | plugins/modules/create_syn_configuration.py:50-52 | the protections loop raises iff some protection has no name, and otherwise POSTs every protection, in order; it only ever POSTs protections |
| CreateSynConfiguration.ProtectionsPlanStops | plugins/modules/create_syn_configuration.py:51 | the first protection without a name stops the loop with its `KeyError`, after the protections before it |
| CreateSynConfiguration.ProfilePlanShape | plugins/modules/create_syn_configuration.py:100-117 | a profile raises iff it has no name, its protections cannot be iterated, or it has protections and params that are not a dict; otherwise one pair per protection, in order, POSTed to `rsIDSSynProfilesTable/{profile}/{protection}` |
| CreateSynConfiguration.PairBodyNames | plugins/modules/create_syn_configuration.py:105-115 | a pair's body starts with the profile and protection names, keeps its keys distinct, and holds each name unless a param is written to that column |
| CreateSynConfiguration.ProfilesPlanShape | plugins/modules/create_syn_configuration.py:100-104 | the profiles loop raises iff some profile does, and only ever POSTs pairs |
| CreateSynConfiguration.ProfilesPlanStops | plugins/modules/create_syn_configuration.py:100-104 | the first profile that raises stops the loop with its exception, after the pairs of the profiles before it |
| CreateSynConfiguration.RunOrder | plugins/modules/create_syn_configuration.py:50-104 | every protection is POSTed before any pair |
| CreateSynConfiguration.RunSucceeds | plugins/modules/create_syn_configuration.py:48-167 | check mode sends nothing and changes nothing; otherwise the run completes iff every entry is read without an exception and every POST is answered |
| CreateSynConfiguration.ExecuteBoth | plugins/modules/create_syn_configuration.py:50-149 | protections then pairs, all answered, are recorded in their two lists with their replies, each POST followed by its refresh GET |
| CreateSynConfiguration.FinishDone | plugins/modules/create_syn_configuration.py:151-155 | a completed run of protections then pairs reports a change iff it POSTed something, with the two lists of records |
| CreateSynConfiguration.RunDone | plugins/modules/create_syn_configuration.py:44-155 | a completed run has every protection named and every profile read; it created every protection, then attached every pair, with each record holding its own reply, and reports a change iff it sent a POST |
| CreateSynConfiguration.FinishFailed | plugins/modules/create_syn_configuration.py:162-164 | a failed run either met a read exception after all earlier POSTs were answered, or stopped right after the first POST that raised |
| CreateSynConfiguration.FinishRaised | plugins/modules/create_syn_configuration.py:162-164 | the first POST that raises fails the module with its message right after that POST is sent |
| CreateSynConfiguration.RunFailed | plugins/modules/create_syn_configuration.py:162-164 | the module fails either on an entry that cannot be read, after answered POSTs, or right after the first POST that raised, with that exception's message |
| CreateSynConfiguration.RunIgnoresRefreshReplies | plugins/modules/create_syn_configuration.py:170-178 | what the refresh GETs return or raise makes no difference to the result |
| EditSynConfiguration.SendOne | plugins/modules/edit_syn_configuration.py:67-86 | one PUT or POST and its entry: sent only outside check mode, its outcome recorded as `Send` specifies |
| EditSynConfiguration.EditProtections | plugins/modules/edit_syn_configuration.py:43-87 | the protections loop computes what `Prots` specifies |
| EditSynConfiguration.AttachProfiles | plugins/modules/edit_syn_configuration.py:92-123 | the nested profiles loop computes what `Profiles` specifies |
| EditSynConfiguration.RunModule | plugins/modules/edit_syn_configuration.py:36-131 | the two steps and the final `exit_json`, or the handler's TypeError, compute what `Run` specifies |
| EditSynConfiguration.ProtsStayStopped | plugins/modules/edit_syn_configuration.py:128-129 | once a protection raised, later protections change nothing |
| EditSynConfiguration.ProfilesStayStopped | plugins/modules/edit_syn_configuration.py:128-129 | once a profile raised, later profiles change nothing |
| EditSynConfiguration.PacketReportCodes | plugins/modules/edit_syn_configuration.py:15 | `packet_report` maps to 1 iff it is `enable`, to 2 for every other hashable value (`disable` included), and raises iff it is a list or dict |
| EditSynConfiguration.CopiedGet | plugins/modules/edit_syn_configuration.py:53-58 | copying one key writes its column, at most once, with the item's value, and nothing else |
| EditSynConfiguration.CopiedRowShape | plugins/modules/edit_syn_configuration.py:53-58 | the three copied columns are distinct and each holds the item's value for its key, if it has one |
| EditSynConfiguration.ProtBodyRaises | plugins/modules/edit_syn_configuration.py:59-60 | building the row raises iff `packet_report` is present and unhashable |
| EditSynConfiguration.ProtBodyKeys | plugins/modules/edit_syn_configuration.py:53-62 | the row holds only the four known columns, each at most once, and is empty iff the item carries none of the four keys |
| EditSynConfiguration.ProtBodyValues | plugins/modules/edit_syn_configuration.py:53-60 | each copied column holds the item's value unchanged, and the packet-report column the code of `packet_report` |
| EditSynConfiguration.PrepareOutcome | plugins/modules/edit_syn_configuration.py:47-65 | a non-dict protection raises; one without an index is skipped with "Missing protection index"; one carrying no parameter is skipped with "No parameters to update"; otherwise it is ready with its index and row |
| EditSynConfiguration.AttemptMeaning | plugins/modules/edit_syn_configuration.py:74-85 | an entry records a change iff it was sent outside check mode and answered with JSON, and then holds that JSON; otherwise an error is recorded iff not in check mode, the exception's own message when the request raised |
| EditSynConfiguration.SendAccounted | plugins/modules/edit_syn_configuration.py:67-86 | sending one request keeps the results accounted for: requests sent in entry order, each entry with its own outcome, `changed` iff some entry changed |
| EditSynConfiguration.SkipAccounted | plugins/modules/edit_syn_configuration.py:47-65 | a skipped protection keeps the results accounted for |
| EditSynConfiguration.ProtsAccounted | plugins/modules/edit_syn_configuration.py:43-87 | the protections loop keeps the results accounted for |
| EditSynConfiguration.AttachPairsAccounted | plugins/modules/edit_syn_configuration.py:96-123 | the attachments of one profile keep the results accounted for |
| EditSynConfiguration.ProfilesAccounted | plugins/modules/edit_syn_configuration.py:92-123 | the profiles loop keeps the results accounted for |
| EditSynConfiguration.RunAccounted | plugins/modules/edit_syn_configuration.py:36-131 | However the module ends, it sent exactly the requests of the entries the run meant holds, in order. A completed run is the run meant: each entry holds the outcome of its own request, and `changed` holds iff some entry changed. A run that does not complete ends with the handler's TypeError (`debug_info` passed twice) and reports no entries. |
| EditSynConfiguration.IntendedAccounted | plugins/modules/edit_syn_configuration.py:36-131 | The run as the handler means it: check mode sends nothing and changes nothing. Otherwise the requests sent are those of the entries, in order. Each entry holds the outcome of its own request, and a skipped entry has an error and no change. A completed run has `changed` iff some entry changed. |
| EditSynConfiguration.ProtsGoing | plugins/modules/edit_syn_configuration.py:43-87 | the protections loop completes iff every protection can be read |
| EditSynConfiguration.ProtsStops | plugins/modules/edit_syn_configuration.py:128-129 | the first protection that raises stops the module with its message, keeping the entries of the protections before it |
| EditSynConfiguration.ProtStepEntry | plugins/modules/edit_syn_configuration.py:47-86 | one protection adds exactly one entry: its skip reason, or the PUT of its own index and row |
| EditSynConfiguration.ProtsLast | plugins/modules/edit_syn_configuration.py:43 | a completed protections loop completed before its last protection and then took one more step |
| EditSynConfiguration.ProtsEntries | plugins/modules/edit_syn_configuration.py:43-87 | a completed protections loop leaves one entry per protection, in order, each the one its preparation calls for |
| EditSynConfiguration.AttachPairsAppend | plugins/modules/edit_syn_configuration.py:92-96 | attaching two lists of pairs is attaching the first and then the second |
| EditSynConfiguration.ProfilesPairs | plugins/modules/edit_syn_configuration.py:92-96 | the profiles loop completes iff every profile has a name and iterable protections, and then attaches every (profile, protection) pair in order; otherwise it stops with the first exception |
| EditSynConfiguration.AttachPairsShape | plugins/modules/edit_syn_configuration.py:96-123 | attaching pairs adds one entry per pair with the outcome of its own POST to `rsIDSSynProfilesTable/{profile}/{protection}`, and sends one POST per pair outside check mode and none in it |
| EditSynConfiguration.RunDone | plugins/modules/edit_syn_configuration.py:36-131 | the module completes iff every protection and every profile can be read; it then holds one entry per protection followed by one per pair, and the attach POSTs are the last requests sent |
| CreateTrafficFilter.ColumnsDistinct | plugins/modules/create_traffic_filter.py:105-123 | the filter row names seventeen distinct columns |
| CreateTrafficFilter.ActionCodes | plugins/modules/create_traffic_filter.py:52 | a profile's action code is "1" exactly when the action is `report_only` or absent, and "0" otherwise |
| CreateTrafficFilter.FlagCodes | plugins/modules/create_traffic_filter.py:111-116 | a TCP flag code is "1" exactly for `disabled` and "2" for every other hashable value; a list or dict raises |
| CreateTrafficFilter.ReportCodes | plugins/modules/create_traffic_filter.py:119 | the packet report code is "2" exactly for `disabled` and "1" for every other hashable value; a list or dict raises |
| CreateTrafficFilter.ProtocolCodes | plugins/modules/create_traffic_filter.py:109 | the protocol code is "0" exactly when absent or `any`, "2" exactly for `tcp`, and "3" otherwise |
| CreateTrafficFilter.FilterRowRaises | plugins/modules/create_traffic_filter.py:111-119 | building the row raises exactly when one of the six flags or the packet report is a list or dict |
| CreateTrafficFilter.FilterRowKeys | plugins/modules/create_traffic_filter.py:105-123 | a row holds all seventeen columns, each once, in the source's order |
| CreateTrafficFilter.FilterRowValues | plugins/modules/create_traffic_filter.py:106-121 | a row carries the two names, the protocol code, and the thresholds, `threshold_used` and tracking type as strings with their defaults 10000, 0, 2 and 0 |
| CreateTrafficFilter.ActionReadBack | plugins/modules/create_traffic_filter.py:52 | whatever action was given, the code sent reads back through the get module's table as `report_only` |
| CreateTrafficFilter.ProtocolReadBack | plugins/modules/create_traffic_filter.py:109 | the protocol code sent reads back as `any` for `any`, but `tcp` reads back as `udp` and every other protocol as `icmp` |
| CreateTrafficFilter.FlagReadBack | plugins/modules/create_traffic_filter.py:102 | a TCP flag code sent reads back inverted: `disabled` as `enabled`, anything else as `disabled` |
| CreateTrafficFilter.ReportReadBack | plugins/modules/create_traffic_filter.py:103 | the packet report code sent reads back as given |
| CreateTrafficFilter.ProfileJobs | plugins/modules/create_traffic_filter.py:50 | one job per listed profile |
| CreateTrafficFilter.FilterJobs | plugins/modules/create_traffic_filter.py:65 | one job per listed filter |
| TrafficFilterRun.StepOne | plugins/modules/create_traffic_filter.py:51-62 | one iteration of either loop computes what `Step` specifies |
| CreateTrafficFilter.ProfilesLoop | plugins/modules/create_traffic_filter.py:50-62 | the profiles' loop computes `Perform` over the profile jobs |
| CreateTrafficFilter.FiltersLoop | plugins/modules/create_traffic_filter.py:65-78 | the filters' loop computes `Perform` over the filter jobs from the state the profiles left |
| CreateTrafficFilter.RunModule | plugins/modules/create_traffic_filter.py:43-94 | the module's two loops and its exit compute the result that `Run` specifies |
| TrafficFilterRun.PerformAppend | plugins/modules/create_traffic_filter.py:50-78 | running profiles then filters is running the profiles and, unless one raised, the filters from where they left off |
| TrafficFilterRun.PerformStaysAborted | plugins/modules/create_traffic_filter.py:92-94 | once an exception is raised no later item is run |
| TrafficFilterRun.StepOutcome | plugins/modules/create_traffic_filter.py:51-62 | an item goes through exactly when it is read and its reply is JSON; it then adds its POST and one entry to its own list |
| TrafficFilterRun.ClearLast | plugins/modules/create_traffic_filter.py:50-78 | items are all clear exactly when all but the last are and the last is |
| TrafficFilterRun.RecordsLast | plugins/modules/create_traffic_filter.py:61-77 | the POSTs and entries of clear items grow by the last item's POST and entry |
| TrafficFilterRun.PerformGoing | plugins/modules/create_traffic_filter.py:50-78 | items run to the end exactly when all are clear, and they have then sent one POST each, in order |
| TrafficFilterRun.PerformProfiles | plugins/modules/create_traffic_filter.py:50-62 | clear profile items add one entry each, with its own reply, to `created_profiles` and none to `created_protections` |
| TrafficFilterRun.PerformFilters | plugins/modules/create_traffic_filter.py:65-78 | clear filter items add one entry each, with its own reply, to `created_protections` and none to `created_profiles` |
| TrafficFilterRun.PerformStops | plugins/modules/create_traffic_filter.py:92-94 | the first item that cannot be read or whose POST raises ends the run with that message, after the earlier POSTs and its own if read |
| TrafficFilterRun.FirstStop | plugins/modules/create_traffic_filter.py:50-78 | items that are not all clear have a first one that is not |
| TrafficFilterRun.ClearSplit | plugins/modules/create_traffic_filter.py:50-78 | profiles then filters are clear exactly when the profiles are and the filters are, counted on from the profiles' POSTs |
| CreateTrafficFilter.ProfileJobOutcome | plugins/modules/create_traffic_filter.py:51-60 | a profile is read exactly when it has `profile_name`; its POST goes to `rsNewTrafficProfileTable/{name}` and creates a profile entry under that name |
| CreateTrafficFilter.FilterJobOutcome | plugins/modules/create_traffic_filter.py:66-72 | a filter is read exactly when it has both names and hashable flags and report; its POST goes to `rsNewTrafficFilterTable/{profile}/{protection}` with the mapped row |
| CreateTrafficFilter.JobsKinds | plugins/modules/create_traffic_filter.py:61-77 | profile items only create profile entries and filter items only filter entries |
| TrafficFilterRun.PerformBothGoing | plugins/modules/create_traffic_filter.py:50-78 | profiles then filters run to the end exactly when each list is clear in turn |
| TrafficFilterRun.PerformBoth | plugins/modules/create_traffic_filter.py:50-84 | profiles then filters that run to the end give one entry per profile, one per filter, and every profile POST before any filter POST |
| CreateTrafficFilter.RunDone | plugins/modules/create_traffic_filter.py:47-84 | check mode sends nothing and reports no change; otherwise the module completes exactly when every item is read and answered, with profile POSTs before filter POSTs, each entry holding its own reply, and `changed` exactly when an item was listed |
| CreateTrafficFilter.RunFailed | plugins/modules/create_traffic_filter.py:92-94 | a failed run stopped at its first unreadable or unanswered item, with that exception's message |
| EditTrafficFilter.ActionCodes | plugins/modules/edit_traffic_filter.py:109-112 | the profile action code is "2" exactly for `disable` and "1" for every other hashable value, `enable` being the default; a list or dict raises |
| EditTrafficFilter.ReportCodes | plugins/modules/edit_traffic_filter.py:118-124 | the packet report code is "2" exactly for `disable` and "1" for every other hashable value; a list or dict raises |
| EditTrafficFilter.ProfileBodyOutcome | plugins/modules/edit_traffic_filter.py:107-113 | profile params map exactly when they are a dict with a hashable action; the body holds the params' own `name` (None when absent) and the action code |
| EditTrafficFilter.ParamsBodyKeys | plugins/modules/edit_traffic_filter.py:116-126 | filter params map exactly when they are a dict with a hashable packet report, and then always to the same six columns, each once |
| EditTrafficFilter.ParamsBodyValues | plugins/modules/edit_traffic_filter.py:120-125 | the six columns take the defaults 1, 0, 10000, 0, enable and 0, with the thresholds stringified and the other values as given |
| EditTrafficFilter.FilterBodyNames | plugins/modules/edit_traffic_filter.py:76-78 | the filter body is the six mapped columns plus the item's profile and filter names, which are always the item's |
| EditTrafficFilter.ActionReadBack | plugins/modules/edit_traffic_filter.py:109-112 | an edited action reads back through the get module's table as `report_only`, except `disable`, whose code "2" the table does not know |
| EditTrafficFilter.ProfileJobs | plugins/modules/edit_traffic_filter.py:55 | one job per listed profile |
| EditTrafficFilter.FilterJobs | plugins/modules/edit_traffic_filter.py:73 | one job per listed filter |
| EditTrafficFilter.ProfilesLoop | plugins/modules/edit_traffic_filter.py:55-70 | the profiles' loop computes `Perform` over the profile jobs |
| EditTrafficFilter.FiltersLoop | plugins/modules/edit_traffic_filter.py:73-92 | the filters' loop computes `Perform` over the filter jobs from the state the profiles left |
| EditTrafficFilter.RunModule | plugins/modules/edit_traffic_filter.py:49-102 | the module's two loops and its exit, or the handler's TypeError, compute the result that `Run` specifies |
| EditTrafficFilter.ProfileJobOutcome | plugins/modules/edit_traffic_filter.py:56-64 | a profile is read exactly when it has `name` and its params map; its PUT goes to `rsNewTrafficProfileTable/{name}` with the mapped body |
| EditTrafficFilter.FilterJobOutcome | plugins/modules/edit_traffic_filter.py:74-85 | a filter is read exactly when it has both names and its params map; its PUT goes to `rsNewTrafficFilterTable/{profile}/{name}` with the mapped params and the two names |
| EditTrafficFilter.JobsKinds | plugins/modules/edit_traffic_filter.py:66-91 | profile items only make profile entries and filter items only filter entries |
| EditTrafficFilter.RunDone | plugins/modules/edit_traffic_filter.py:53-99 | check mode sends nothing and reports no change; otherwise the module completes exactly when every item is read and answered, with profile PUTs before filter PUTs, each entry holding its own reply, and `changed` exactly when an item was listed |
| EditTrafficFilter.RunCrashed | plugins/modules/edit_traffic_filter.py:101-102 | As written, a run that does not complete stopped at its first unreadable or unanswered item, having sent the PUTs before it. It then ends with the handler's TypeError (`debug_info` passed twice), raised while handling that item's exception. |
| EditTrafficFilter.IntendedFailed | plugins/modules/edit_traffic_filter.py:101-102 | As the handler means it, a failed run stopped at its first unreadable or unanswered item, with that exception's message and the PUTs before it. |
| TrafficFilterRun.PerformFiltersFirst | plugins/modules/delete_traffic_filter.py:54-101 | filters then profiles that run to the end give one entry per filter, one per profile, and every filter request before any profile request |
| DeleteTrafficFilter.TolerantReads | plugins/modules/delete_traffic_filter.py:63-67 | only the DELETE itself can raise; a reply is recorded as its JSON body, or as `{"status": code}` when it is not JSON |
| DeleteTrafficFilter.ClearTolerant | plugins/modules/delete_traffic_filter.py:55-94 | items go through exactly when each can be read and none of their DELETEs raises |
| DeleteTrafficFilter.ReadableSplit | plugins/modules/delete_traffic_filter.py:55-94 | filters then profiles can all be read exactly when each list can |
| DeleteTrafficFilter.FilterJobs | plugins/modules/delete_traffic_filter.py:55 | one job per listed filter |
| DeleteTrafficFilter.ProfileJobs | plugins/modules/delete_traffic_filter.py:77 | one job per listed profile |
| DeleteTrafficFilter.DeleteOne | plugins/modules/delete_traffic_filter.py:56-74 | one iteration of either loop computes what `Step` specifies under the caught parsing error |
| DeleteTrafficFilter.FiltersLoop | plugins/modules/delete_traffic_filter.py:55-74 | the filters' loop computes `Perform` over the filter jobs |
| DeleteTrafficFilter.ProfilesLoop | plugins/modules/delete_traffic_filter.py:77-94 | the profiles' loop computes `Perform` over the profile jobs from the state the filters left |
| DeleteTrafficFilter.RunModule | plugins/modules/delete_traffic_filter.py:49-104 | the module's two loops and its exit, or the handler's TypeError, compute the result that `Run` specifies |
| DeleteTrafficFilter.FilterJobOutcome | plugins/modules/delete_traffic_filter.py:56-63 | a filter is read exactly when it has both names; its DELETE has no body and goes to `rsNewTrafficFilterTable/{profile}/{name}` |
| DeleteTrafficFilter.ProfileJobOutcome | plugins/modules/delete_traffic_filter.py:78-84 | a profile is read exactly when it has `name`; its DELETE has no body and goes to `rsNewTrafficProfileTable/{name}` |
| DeleteTrafficFilter.JobsKinds | plugins/modules/delete_traffic_filter.py:69-93 | filter items only make filter entries and profile items only profile entries |
| DeleteTrafficFilter.RunDone | plugins/modules/delete_traffic_filter.py:53-101 | check mode sends nothing and reports no change; otherwise the module completes exactly when every item can be read and no DELETE raises, with every filter DELETE before any profile DELETE, one entry per item with its own reply, and `changed` exactly when an item was listed |
| DeleteTrafficFilter.RunCrashed | plugins/modules/delete_traffic_filter.py:103-104 | As written, a run that does not complete stopped at its first unreadable item or raising DELETE, having sent the DELETEs before it. It then ends with the handler's TypeError (`debug_info` passed twice), raised while handling that exception. |
| DeleteTrafficFilter.IntendedFailed | plugins/modules/delete_traffic_filter.py:103-104 | As the handler means it, a failed run stopped at its first unreadable item or raising DELETE, with that exception's message and the DELETEs before it. |
| ExcelSheets.DpIpsAppend | scripts/excel_to_yaml_converter.py:54-60 | The `dp_ip` addresses are collected in row order: two blocks of rows give the first block's addresses followed by the second's. |
| ExcelSheets.DpIpsFrom | scripts/excel_to_yaml_converter.py:54-60 | An address is listed iff some row is a `dp_ip` row (first cell `dp_ip` in any case) with that non-empty value. |
| ExcelSheets.SwitchesStored | scripts/excel_to_yaml_converter.py:61-63 | A switch is stored iff some row sets it. |
| ExcelSheets.SwitchesLastWins | scripts/excel_to_yaml_converter.py:61-63 | A stored switch holds the boolean of the last row that sets it. |
| ExcelSheets.SwitchOfShape | scripts/excel_to_yaml_converter.py:56-63 | A row sets a switch only when its setting starts with `create_` or is `apply_policies_after_creation`, is not `dp_ip`, and its value is `true` or `false` in any case; the boolean is true iff the value is `true`. |
| ExcelSheets.ConfigSheetKeys | scripts/excel_to_yaml_converter.py:65-68 | The Config sheet sets `dp_ip` iff some address was read and `security_policy_config` iff some switch was read; every other key keeps its old value. |
| ExcelSheets.ColumnsExact | scripts/excel_to_yaml_converter.py:77-80 | The entity columns are exactly the indices of headers that are truthy and mention neither `parameter` nor `required` in any case, in increasing order, each keyed by its own header. |
| ExcelSheets.InitGet | scripts/excel_to_yaml_converter.py:85-87 | Initially each column key has one entity, named by the key, with an empty body; no other key has one. |
| ExcelSheets.InitKeyed | scripts/excel_to_yaml_converter.py:85-87 | Every column's key has an entity after initialisation. |
| ExcelSheets.RenameKeeps | scripts/excel_to_yaml_converter.py:100-104 | The `Name` row creates and deletes no entity and leaves every body unchanged. |
| ExcelSheets.RenameUnnamed | scripts/excel_to_yaml_converter.py:100-104 | An entity none of whose columns has a filled cell in the `Name` row keeps its name. |
| ExcelSheets.RenameLast | scripts/excel_to_yaml_converter.py:100-104 | An entity takes the text of the last filled `Name` cell among its columns. |
| ExcelSheets.EmittedExactly | scripts/excel_to_yaml_converter.py:136-141 | The output holds exactly the rendered entities whose body is non-empty, and no more items than there are entities. |
| ExcelSheets.NumericSheets | scripts/excel_to_yaml_converter.py:211-225 | Only the sheet types `bdos`, `dns`, `https` and `oos` have numeric fields; any other type has none. |
| ExcelSheets.StrNonEmpty | scripts/excel_to_yaml_converter.py:185-198 | `str()` of any value other than the empty string is non-empty, so a kept cell never stores an empty string. |
| ExcelSheets.CellValueIs | scripts/excel_to_yaml_converter.py:184-198 | A cell is skipped iff it is `None` or a blank string. A kept cell is stored as an integer iff the key is numeric and `int()` accepts the stripped cell, and then as that integer; otherwise as the non-empty `str()` of the stripped cell. |
| ExcelSheets.SetParamClean | scripts/excel_to_yaml_converter.py:200 | Storing a mapped key with a well-formed value keeps every profile clean and creates no profile. |
| ExcelSheets.SetParamsClean | scripts/excel_to_yaml_converter.py:183-200 | A parameter row keeps every profile clean and creates or deletes no profile. |
| ExcelSheets.ProfileRowClean | scripts/excel_to_yaml_converter.py:164-200 | Any row, whether `Name`, mapped or ignored, keeps every profile clean and the set of profiles unchanged. |
| ExcelSheets.ProfileRowsClean | scripts/excel_to_yaml_converter.py:164-200 | After all the rows, every stored parameter is a key the mapping produces, an integer only when that key is numeric for the sheet type and otherwise a non-empty string; the set of profiles is the initial one. |
| ExcelSheets.ProfileSheetIs | scripts/excel_to_yaml_converter.py:143-209 | On a sheet with at least two headers, the profiles are exactly the entity columns' keys, all clean, and the output lists exactly those with some parameter. |
| ExcelSheets.AddGroupGet | scripts/excel_to_yaml_converter.py:128-133 | Appending a group changes only the named class, extending its groups by that group and keeping its name. |
| ExcelSheets.NetRowsKeep | scripts/excel_to_yaml_converter.py:94-112 | The row pass creates or deletes no class and adds no group; only the `Name` row renames. |
| ExcelSheets.AddGroupsHas | scripts/excel_to_yaml_converter.py:120-133 | An address row and its mask row add to a class exactly the stripped non-empty pairs of its columns where both cells are filled; the name is kept. |
| ExcelSheets.PairedAtLast | scripts/excel_to_yaml_converter.py:116-118 | A group is paired from the address rows iff it is paired from all but the last one, or from the last one with its mask row. |
| ExcelSheets.PairHas | scripts/excel_to_yaml_converter.py:116-133 | Pairing keeps every class and its name; a class's groups are its old groups plus exactly those paired from an address number that also has a mask row. |
| ExcelSheets.NetworkClasses | scripts/excel_to_yaml_converter.py:70-141 | On a sheet with at least two headers, the classes are exactly the entity columns' keys; a class's groups are exactly the paired address/mask cells; the output lists exactly the classes with a group. |
| ExcelSheets.ProtectionParts | scripts/excel_to_yaml_converter.py:243-263 | A protection is its name and the columns before the threshold, then the threshold, then the columns after it. |
| ExcelSheets.ProtectionKept | scripts/excel_to_yaml_converter.py:265-266 | A protection is kept iff one of columns 2 to 8 is filled. |
| ExcelSheets.HeadNoThreshold | scripts/excel_to_yaml_converter.py:244-250 | The fields before the threshold never include `threshold`, and `name` is the row's name. |
| ExcelSheets.TailNoThreshold | scripts/excel_to_yaml_converter.py:257-263 | The fields after the threshold never include `threshold`. |
| ExcelSheets.ProtectionFields | scripts/excel_to_yaml_converter.py:243-256 | A protection is named by its row, and has a threshold iff column 4 is filled, holding that cell normalised. |
| ExcelSheets.ThresholdNormal | scripts/excel_to_yaml_converter.py:251-256 | A threshold `int()` accepts is written as decimal text that parses back to the same integer, and normalising it again changes nothing. |
| ExcelSheets.SplitNoSeparator | scripts/excel_to_yaml_converter.py:271 | No piece of a split contains the separator. |
| ExcelSheets.StripSlice | scripts/excel_to_yaml_converter.py:271 | Stripping adds no character. |
| ExcelSheets.TrimmedClean | scripts/excel_to_yaml_converter.py:271 | Every kept protection name is non-empty, already stripped, and is the stripped form of some piece. |
| ExcelSheets.PiecesClean | scripts/excel_to_yaml_converter.py:269-271 | The protections of a profile row are non-empty, stripped and free of commas. |
| ExcelSheets.SplitPrefix | scripts/excel_to_yaml_converter.py:271 | Splitting a comma-free piece followed by a comma and a rest gives the piece, then the split of the rest. |
| ExcelSheets.SplitJoin | scripts/excel_to_yaml_converter.py:271 | Splitting the comma-join of non-empty comma-free pieces gives the pieces back. |
| ExcelSheets.SplitNone | scripts/excel_to_yaml_converter.py:271 | A comma-free string splits into itself alone. |
| ExcelSheets.TrimmedKeeps | scripts/excel_to_yaml_converter.py:271 | Pieces that are non-empty and already stripped are all kept, unchanged. |
| ExcelSheets.PiecesJoin | scripts/excel_to_yaml_converter.py:269-271 | A profile's protection list round-trips: writing non-empty, stripped, comma-free names joined by commas and reading the cell back gives the same list. |
| ExcelSheets.PriorityNormal | scripts/excel_to_yaml_converter.py:310-314 | The normalised priority parses to the same integer as the cell text, and normalising twice is normalising once. |
| ExcelSheets.PolicyFieldsGrow | scripts/excel_to_yaml_converter.py:306-316 | The field loop adds a field iff some column gives a value; when none does the policy is unchanged. |
| ExcelSheets.PolicyFieldsUnset | scripts/excel_to_yaml_converter.py:306-316 | A field whose columns give no value keeps its old value. |
| ExcelSheets.PolicyFieldsLast | scripts/excel_to_yaml_converter.py:306-316 | A field takes the value of the last of its columns that gives one. |
| ExcelSheets.PolicyColumnFields | scripts/excel_to_yaml_converter.py:297-304 | No policy column writes `policy_name`, and only column 3 writes `priority`. |
| ExcelSheets.PolicyKept | scripts/excel_to_yaml_converter.py:318-319 | A policy is kept iff some policy column gives a value. |
| ExcelSheets.PolicyNamePriority | scripts/excel_to_yaml_converter.py:294-316 | A policy carries its row's name, and a priority iff column 3 is filled and non-empty once stripped, holding it normalised. |
| ExcelSheets.PoliciesAppend | scripts/excel_to_yaml_converter.py:289-319 | Policies are collected in row order: two blocks of rows give the first block's policies followed by the second's. |
| ExcelToYaml.NonEmptyRowsAre | scripts/excel_to_yaml_converter.py:39-41 | The rows read are exactly the stored rows with some cell that is not `None`, and no more than were stored. |
| ExcelToYaml.SetIfKeys | scripts/excel_to_yaml_converter.py:65-68 | Setting a key only when its value is truthy adds at most that key. |
| ExcelToYaml.NetworkSheetKeys | scripts/excel_to_yaml_converter.py:140-141 | The Network_Classes sheet adds at most the key `netclasses`. |
| ExcelToYaml.ProfileKeys | scripts/excel_to_yaml_converter.py:208-209 | A profile sheet adds at most its own configuration key. |
| ExcelToYaml.ConvertedKeys | scripts/excel_to_yaml_converter.py:324-397 | A conversion from an empty configuration writes only the ten known top-level keys. |
| ExcelToYaml.BdosNumericMapped | scripts/excel_to_yaml_converter.py:214-217 | Every numeric field of the `bdos` type is a key the BDOS mapping produces. |
| ExcelToYaml.DnsNumericMapped | scripts/excel_to_yaml_converter.py:218-221 | Every numeric field of the `dns` type is a key the DNS mapping produces. |
| ExcelToYaml.HttpsNumericMapped | scripts/excel_to_yaml_converter.py:222 | Every numeric field of the `https` type is a key the HTTPS mapping produces. |
| ExcelToYaml.OosNumericMapped | scripts/excel_to_yaml_converter.py:223 | Every numeric field of the `oos` type is a key the OOS mapping produces. |
| ExcelToYaml.NumericFieldsMapped | scripts/excel_to_yaml_converter.py:336-391 | No numeric rule is dead: each sheet's lower-cased name selects numeric fields that its mapping produces. |
| ExcelToYaml.EntityColumns | scripts/excel_to_yaml_converter.py:150-153 | The header loop builds exactly the entity columns. |
| ExcelToYaml.InitEntities | scripts/excel_to_yaml_converter.py:158-161 | The initialisation loop builds exactly the initial entities. |
| ExcelToYaml.RenameEntities | scripts/excel_to_yaml_converter.py:169-175 | The `Name` row's loop renames exactly as the rename function does. |
| ExcelToYaml.SetParamsLoop | scripts/excel_to_yaml_converter.py:183-200 | A parameter row's loop stores exactly what the parameter function does. |
| ExcelToYaml.AddGroupsLoop | scripts/excel_to_yaml_converter.py:120-133 | An address/mask pair of rows appends exactly the groups the pairing function gives. |
| ExcelToYaml.KeepFilled | scripts/excel_to_yaml_converter.py:203-206 | The result loop keeps exactly the entities with a non-empty body, in order. |
| ExcelToYaml.PolicyFieldsLoop | scripts/excel_to_yaml_converter.py:306-316 | The field loop sets exactly the fields the policy function does. |
| ExcelToYaml.NetStep | scripts/excel_to_yaml_converter.py:94-112 | One row of the Network_Classes sheet renames, records an address row or records a mask row, as the row function does. |
| ExcelToYaml.ProfileStep | scripts/excel_to_yaml_converter.py:164-200 | One row of a profile sheet renames, stores one mapped key, or is ignored, as the row function does. |
| ExcelToYaml.PolicyStep | scripts/excel_to_yaml_converter.py:289-319 | One row of the Security_Policies sheet adds its policy iff it has a name and some field. |
| ExcelToYaml.Converter.constructor | scripts/excel_to_yaml_converter.py:18-21 | The converter starts with an empty configuration. |
| ExcelToYaml.Converter.ParseConfigSheet | scripts/excel_to_yaml_converter.py:48-68 | Parsing the Config sheet leaves the configuration described by the Config-sheet function. |
| ExcelToYaml.Converter.ParseNetworkClassesSheet | scripts/excel_to_yaml_converter.py:70-141 | Parsing the Network_Classes sheet leaves the configuration described by the network-classes function. |
| ExcelToYaml.Converter.ParseTransposedProfileSheet | scripts/excel_to_yaml_converter.py:143-209 | Parsing a profile sheet leaves the configuration described by the profile-sheet function. |
| ExcelToYaml.Converter.ParseConnectionLimitSheet | scripts/excel_to_yaml_converter.py:227-282 | Parsing the Connection_Limit sheet leaves the configuration described by the connection-limit function. |
| ExcelToYaml.Converter.ParseSecurityPoliciesSheet | scripts/excel_to_yaml_converter.py:284-322 | Parsing the Security_Policies sheet leaves the configuration described by the policies function. |
| ExcelToYaml.Converter.Convert | scripts/excel_to_yaml_converter.py:324-397 | A conversion parses the sheets in the source's order and leaves the configuration the conversion function describes. |
| DeleteHttpsProfile.EntryShapes | plugins/modules/delete_https_profile.py:137-140 | A success entry carries the profile and no `failed` flag; a failure entry carries the profile, its response and `failed: true`. |
| DeleteHttpsProfile.EntryFlags | plugins/modules/delete_https_profile.py:126-145 | A profile's entry is flagged failed iff its DELETE did not answer 200 or 204; a failed entry's response always holds an `error`; the entry names its profile. |
| DeleteHttpsProfile.DeleteOne | plugins/modules/delete_https_profile.py:115-145 | One profile needs a `name` and logs one request. In check mode it adds the check-mode entry and sends nothing. Otherwise it sends exactly one DELETE to that profile's path, records the entry for its reply, and sets `changed` iff the delete succeeded or it was already set. |
| DeleteHttpsProfile.DeleteLoop | plugins/modules/delete_https_profile.py:115-145 | The loop over the profiles computes exactly the pass the deletion function describes. |
| DeleteHttpsProfile.StoppedStays | plugins/modules/delete_https_profile.py:111-150 | Once a profile without a `name` has stopped the pass, later profiles change nothing. |
| DeleteHttpsProfile.DeleteAllRecords | plugins/modules/delete_https_profile.py:115-145 | A completed pass logs one request and one entry per profile. In check mode it sends nothing, leaves `changed` false and gives every profile the check-mode entry. Otherwise it sends one request per profile. |
| DeleteHttpsProfile.DeleteAllSent | plugins/modules/delete_https_profile.py:83-85 | Outside check mode the i-th request sent is the DELETE of the i-th profile's name under the device's HTTPS Flood profile table. |
| DeleteHttpsProfile.DeleteAllEntries | plugins/modules/delete_https_profile.py:126-145 | Outside check mode the i-th entry is built from the i-th profile and the reply (or exception) to the i-th request. |
| DeleteHttpsProfile.DeleteAllChanged | plugins/modules/delete_https_profile.py:139-141 | Outside check mode `changed` is true iff at least one DELETE answered 200 or 204. |
| DeleteHttpsProfile.DeleteAllStops | plugins/modules/delete_https_profile.py:115-119 | A pass stops at the first profile without a `name`, with that KeyError's message, after logging exactly the profiles before it. |
| DeleteHttpsProfile.RunModule | plugins/modules/delete_https_profile.py:90-150 | The module run computes exactly the result the run function describes. |
| DeleteHttpsProfile.RunOutcome | plugins/modules/delete_https_profile.py:106-150 | A missing or empty provider field fails with its message and an empty log. Otherwise the module exits normally iff every profile has a `name`; then there is one entry per profile, and check mode sends nothing and reports no change. |
| EditDnsProfile.TranslateParams | plugins/modules/edit_dns_profile.py:121-133 | The translation loop computes exactly what the generic translator gives with this module's step. |
| EditDnsProfile.TranslateOutcome | plugins/modules/edit_dns_profile.py:121-133 | Translation raises iff some key with an enum table has a value outside it; it then raises the ValueError of the first such pair. A successful translation produces exactly the renamed keys of the input: the FIELD_MAP name, or the key itself when unmapped. |
| EditDnsProfile.StepIgnoresCase | plugins/modules/edit_dns_profile.py:126-130 | An enum key's value is matched case-insensitively: two values with the same lower-cased text translate alike. |
| EditDnsProfile.StrictnessWords | plugins/modules/edit_dns_profile.py:117 | `DNS Footprint Strictness` sends low, medium and high in any case as 0, 1 and 2, and raises on any other word. |
| EditDnsProfile.ExpectedQpsDigits | plugins/modules/edit_dns_profile.py:131-132 | `DNS Expected Qps`, which has no enum table, sends the integer when its text is all digits and the value unchanged otherwise. |
| EditDnsProfile.ColumnOf | plugins/modules/edit_dns_profile.py:103-111 | Every FIELD_MAP key looks up its own column; no earlier entry shadows it. |
| EditDnsProfile.SwitchSends | plugins/modules/edit_dns_profile.py:116-118 | The two status switches send enable as 1 and disable as 2, in any case, under their API column. |
| EditDnsProfile.SwitchColumnReads | plugins/modules/create_dns_profile.py:53-54 | The reverse table of the create module reads codes 1 and 2 of the two status columns back as enable and disable. |
| EditDnsProfile.SwitchReadsBack | plugins/modules/edit_dns_profile.py:116-118 | A status switch this module sends reads back through the create module's reverse tables as the same word, lower-cased. |
| EditDnsProfile.StrictnessColumnReads | plugins/modules/create_dns_profile.py:56 | The reverse table reads strictness codes 0, 1 and 2 back as low, medium and high. |
| EditDnsProfile.StrictnessReadsBack | plugins/modules/edit_dns_profile.py:117 | A strictness word this module sends reads back through the create module's reverse tables as the same word, lower-cased. |
| EditDnsProfile.ActionColumnReads | plugins/modules/create_dns_profile.py:52 | The reverse table reads action codes 0 and 1 back as `report_only` and `block_&_report`. |
| EditDnsProfile.ActionReadsBack | plugins/modules/edit_dns_profile.py:115 | An action this module sends reads back through the create module's reverse tables: `report` as `report_only`, `block & report` as `block_&_report`. The words differ, so this round trip is not the identity. |
| EditDnsProfile.RunModule | plugins/modules/edit_dns_profile.py:135-191 | The module run computes exactly the result the run function describes. |
| EditDnsProfile.RunOutcome | plugins/modules/edit_dns_profile.py:153-191 | Check mode exits unchanged with an empty response and sends nothing. An invalid enum value fails with the translator's message before anything is sent. Otherwise exactly one PUT of the translated body goes to the profile's path, and the run succeeds, reporting a change and the parsed reply, iff the reply parses as JSON. |
| EditOosProfile.TranslateOutcome | plugins/modules/edit_oos_profile.py:101-103 | Translation raises iff some key with a code table has an unhashable value, and then with Python's unhashable-type TypeError. A successful translation produces exactly the renamed keys of the input: the FIELD_MAP name, or the key itself. |
| EditOosProfile.ColumnOf | plugins/modules/edit_oos_profile.py:92-99 | Every FIELD_MAP key looks up its own column. |
| EditOosProfile.CodesOf | plugins/modules/edit_oos_profile.py:84-89 | Every PARAM_MAP key looks up its own code table. |
| EditOosProfile.SwitchExact | plugins/modules/edit_oos_profile.py:85-87 | The three switches send exactly `enable` as 1 and `disable` as 2. Matching is case-sensitive, and any other hashable value is sent unchanged. |
| EditOosProfile.ActionExact | plugins/modules/edit_oos_profile.py:88 | `Action` sends exactly `report` as 0 and `block & report` as 1; any other hashable value is sent unchanged. |
| EditOosProfile.PlainKept | plugins/modules/edit_oos_profile.py:103 | A key without a code table sends its value unchanged under its FIELD_MAP column, or under itself. |
| EditOosProfile.ReaderWords | plugins/modules/get_oos_profile.py:34-51 | The reader module reads codes 1 and 2 of the two switch columns as enable and disable, and action codes 0 and 1 as `report_only` and `block_and_report`. |
| EditOosProfile.SwitchReadsBack | plugins/modules/edit_oos_profile.py:85-97 | A switch word this module sends reads back through the reader module as the same word. `Packet Trace Status` has no column in the reader, so it cannot be read back. |
| EditOosProfile.ActionReadsBack | plugins/modules/edit_oos_profile.py:88-98 | An action word this module sends reads back through the reader module: `report` as `report_only`, `block & report` as `block_and_report`. |
| EditOosProfile.RunModule | plugins/modules/edit_oos_profile.py:105-161 | The module run computes exactly the result the run function describes. |
| EditOosProfile.RunOutcome | plugins/modules/edit_oos_profile.py:123-161 | Check mode exits unchanged and sends nothing. An unhashable coded value fails before anything is sent. Otherwise exactly one PUT goes to the profile's path, carrying the profile name and the translated fields. The run succeeds iff the reply has status 200 or 201 and, when it declares JSON, parses. The response is then the JSON or the raw text. Any other status fails with `API error <status>: <payload>`. |
| CreateSynProtection.TranslateParams | plugins/modules/create_syn_protection.py:70-78 | The translation loop computes exactly the translated dict the translation function describes. |
| CreateSynProtection.TranslatedKeys | plugins/modules/create_syn_protection.py:70-78 | The translated keys are distinct, and are exactly the input keys renamed through FIELD_MAP, or kept when unmapped. |
| CreateSynProtection.PacketReportWords | plugins/modules/create_syn_protection.py:66-75 | `packet_report` sends a string `enable` or `disable`, in any case, as 1 or 2. Any other value, including a non-string, is sent unchanged under `rsIDSSYNAttackPacketReport`. |
| CreateSynProtection.PacketReportReadsBack | plugins/modules/get_syn_configuration.py:34 | A packet-report word this module sends is read back by the reader's PACKET_REPORT_MAP as the same word, lower-cased. |
| CreateSynProtection.RenamedTo | plugins/modules/create_syn_protection.py:59-64 | A key is renamed to a FIELD_MAP column iff it is that column's user key or already the column itself. |
| CreateSynProtection.PlainColumn | plugins/modules/create_syn_protection.py:73-77 | For the three plain fields, the API column holds exactly the value given under the user key, provided the column name itself is not also given. |
| CreateSynProtection.SameRowAsConfiguration | plugins/modules/create_syn_configuration.py:53-58 | For a protection naming all three fields, every column of the row the syn-configuration module would send gets the same value from this module. |
| CreateSynProtection.RunModule | plugins/modules/create_syn_protection.py:80-125 | The module run computes exactly the result the run function describes. |
| CreateSynProtection.RunOutcome | plugins/modules/create_syn_protection.py:96-125 | A provider without `server` fails with that KeyError's message and sends nothing. With a complete provider, check mode exits unchanged. Otherwise exactly one POST to index 0 of the SYN attack table is sent, carrying the name and the translated parameters. The run succeeds, with a change and the parsed reply, iff the reply parses as JSON; otherwise it fails with `Invalid JSON response: ` and the reply text. |
| CreateSynProfile.StepAgreesWithConfiguration | plugins/modules/create_syn_profile.py:71-80 | Each parameter is renamed and coded exactly as the syn-configuration module codes a profile's parameters (plugins/modules/create_syn_configuration.py:97-115). |
| CreateSynProfile.MergesLikeConfiguration | plugins/modules/create_syn_profile.py:115-119 | Updating a body with the translated parameters gives every column the value the syn-configuration module's merge loop gives it. |
| CreateSynProfile.SameRequestAsConfiguration | plugins/modules/create_syn_configuration.py:104-121 | This module's request for a profile/protection pair has the same verb, path and column values as the syn-configuration module's request for that pair. |
| CreateSynProfile.RunModule | plugins/modules/create_syn_profile.py:83-141 | The module run computes exactly the result the run function describes. |
| CreateSynProfile.RunOutcome | plugins/modules/create_syn_profile.py:102-141 | An incomplete provider fails with the required-fields message and sends nothing. Check mode exits reporting a change and sends nothing. Otherwise exactly one POST to the profile/protection path is sent, carrying both names and the translated parameters. The run succeeds iff the reply parses as JSON with status 200 or 201; a parsed reply with another status fails with `Failed to create SYN profile: ` and the reply. |
| SingleProfile.DigitsToInt | plugins/modules/create_http_profile.py:105 | A value whose `str()` is all digits becomes the non-negative integer `int()` gives for it; any other value is kept. |
| SingleProfile.DigitStrings | plugins/modules/create_http_profile.py:105 | When `str(v)` is all digits, `int(v)` succeeds with the decimal value of those digits. |
| SingleProfile.DigitsPositive | plugins/modules/create_http_profile.py:105 | A digit string without a leading zero has a value of at least 1. |
| SingleProfile.DigitsCanonical | plugins/modules/create_http_profile.py:105 | A digit string without a superfluous leading zero is the decimal text of its own value. |
| SingleProfile.StrDigitsToInt | plugins/modules/create_http_profile.py:105 | Converting digits to an integer loses nothing visible unless the text has a superfluous leading zero: `str()` of the result equals `str()` of the value. |
| SingleProfile.StrTranslation | plugins/modules/edit_https_profile.py:90-99 | The all-strings translation never raises and sends only strings. It holds exactly the renamed keys: the FIELD_MAP name, or the key itself. |
| SingleProfile.StrAgreesWithCreate | plugins/modules/edit_https_profile.py:90-99 | For known keys with lower-case words from the tables, the all-strings translation is exactly what the creating mapper produces with the same tables. |
| SingleProfile.StrCodes | plugins/modules/edit_http_profile.py:67-87 | Each word keeps its position and its code becomes the code's decimal string. |
| SingleProfile.GetStrCodes | plugins/modules/edit_http_profile.py:94 | Looking a word up in the stringified codes gives the decimal string of its code, and nothing for an unknown word. |
| SingleProfile.GetStringifiedAt | plugins/modules/edit_http_profile.py:93-94 | Index-wise stringified enum tables have the same keys, and each key's table is the stringified one. |
| SingleProfile.StringifiedByIndex | plugins/modules/edit_http_profile.py:67-87 | Tables stringified entry by entry are stringified as lookups: the same keys, words and fields, each code as its decimal string. |
| SingleProfile.StrOfIntTranslation | plugins/modules/create_http_profile.py:96-107 | With stringified tables, and no digit string with a superfluous leading zero, the all-strings translation is the integer translation with every value turned into its `str()`. |
| SingleProfile.TranslateAgree | plugins/modules/edit_https_profile.py:93-98 | Two steps that agree on every pair of the input translate it identically. |
| SingleProfile.TranslateSends | plugins/modules/edit_https_profile.py:93-98 | When every value a step can emit has a property, every value of a successful translation has it. |
| SingleProfile.MapValues | plugins/modules/edit_https_profile.py:93-98 | Mapping values keeps every key and its position, and applies the function to each value. |
| SingleProfile.MapValuesPut | plugins/modules/edit_https_profile.py:93-98 | Mapping values commutes with storing a key. |
| SingleProfile.TranslateMapsValues | plugins/modules/create_http_profile.py:96-107 | When one step emits, at every pair, the other's key with a function applied to its value, the second translation is the first with that function applied to every value. |
| EditHttpsProfile.TranslateParams | plugins/modules/edit_https_profile.py:90-99 | The translation loop computes exactly the translated dict the translation function describes. |
| EditHttpsProfile.TranslatedShape | plugins/modules/edit_https_profile.py:90-99 | Every translated value is a string, and the translated keys are exactly the input keys renamed through FIELD_MAP, or kept. |
| EditHttpsProfile.SameTablesAsCreate | plugins/modules/edit_https_profile.py:67-87 | This module's field and enum tables are the create module's (plugins/modules/create_https_profile.py:207-231). |
| EditHttpsProfile.ChallengeMethodExact | plugins/modules/edit_https_profile.py:71-96 | `challenge_method` sends exactly `redirect_302` as `"1"` and `javascript` as `"2"`; matching is case-sensitive, and anything else is sent as its `str()`. |
| EditHttpsProfile.MixedCaseDiffers | plugins/modules/edit_https_profile.py:52 | A mixed-case `javaScript`, as in the module's own example, is sent unchanged by this module, while the create module lower-cases it and sends `"2"`. |
| EditHttpsProfile.UnknownKeyKept | plugins/modules/edit_https_profile.py:94-98 | A key without a FIELD_MAP entry or enum table is sent under its own name as its `str()`. |
| EditHttpsProfile.AgreesWithCreate | plugins/modules/create_https_profile.py:205-243 | For known keys with lower-case words from the tables, the create module maps the parameters exactly as this module translates them. The create module's reverse tables then read that body back as the normalised input. |
| EditHttpsProfile.AttemptSucceeds | plugins/modules/edit_https_profile.py:133-148 | An attempt succeeds iff the PUT answers 200 or 204 and its body can be read by its content type; it then yields that body. |
| EditHttpsProfile.RunModule | plugins/modules/edit_https_profile.py:102-185 | The module run computes exactly the result the run function describes. |
| EditHttpsProfile.RunOutcome | plugins/modules/edit_https_profile.py:129-185 | Check mode exits reporting a change and sends nothing. Otherwise the first request is the PUT of the translated body. A second PUT, without `rsHttpsFloodProfilePacketReporting`, is sent iff the first attempt failed with a message naming that column. The run succeeds iff the last attempt succeeds, reporting its body. A first failure that names no such column fails with `Failed to edit profile <name>: <message>`. |
| EditHttpsProfile.RetryBody | plugins/modules/edit_https_profile.py:156-157 | The retry body drops `rsHttpsFloodProfilePacketReporting` and keeps every other column's value. |
| CreateHttpProfile.TranslateParams | plugins/modules/create_http_profile.py:96-107 | The translation loop computes exactly the translated dict the translation function describes. |
| CreateHttpProfile.ChallengeMethodExact | plugins/modules/create_http_profile.py:90-102 | `Challenge Method` sends exactly `httpRedirect` as 1 and `javaScript` as 2; matching is case-sensitive, and any other value is sent unchanged. |
| CreateHttpProfile.RateLimitDigits | plugins/modules/create_http_profile.py:104-105 | `Rate Limit`, which has no code table, sends an integer when its text is all digits and the value unchanged otherwise. |
| CreateHttpProfile.NameFieldUnmapped | plugins/modules/create_http_profile.py:75-93 | Only `rsHttpsFloodProfileName` itself is renamed to the name column, and it has no code table. |
| CreateHttpProfile.TranslatedName | plugins/modules/create_http_profile.py:104-105 | The translated name column holds the given `rsHttpsFloodProfileName` parameter, converted when all digits, and is absent when none is given. |
| CreateHttpProfile.BodyName | plugins/modules/create_http_profile.py:132-133 | The body's name column is the module's `name`, unless the parameters give `rsHttpsFloodProfileName`, which then overrides it. |
| CreateHttpProfile.RunModule | plugins/modules/create_http_profile.py:109-158 | The module run computes exactly the result the run function describes. |
| CreateHttpProfile.RunOutcome | plugins/modules/create_http_profile.py:127-158 | Check mode exits unchanged with an empty response and sends nothing. Otherwise exactly one POST of the name and the translated parameters goes to the profile's path. The run succeeds iff the reply body can be read by its content type, whatever the status, reporting a change and that body. |
| EditHttpProfile.TranslateParams | plugins/modules/edit_http_profile.py:88-97 | The translation loop computes exactly the translated dict the translation function describes. |
| EditHttpProfile.TranslatedShape | plugins/modules/edit_http_profile.py:88-97 | Every translated value is a string, and the translated keys are exactly the input keys renamed through PARAMS_MAP, or kept. |
| EditHttpProfile.ChallengeMethodExact | plugins/modules/edit_http_profile.py:82-94 | `Challenge Method` sends exactly `httpRedirect` as `"1"` and `javaScript` as `"2"`; matching is case-sensitive, and anything else is sent as its `str()`. |
| EditHttpProfile.TablesStringified | plugins/modules/edit_http_profile.py:67-85 | This module's tables are the create module's (plugins/modules/create_http_profile.py:75-93) with every code written as its decimal string. |
| EditHttpProfile.StringsOfCreate | plugins/modules/edit_http_profile.py:88-97 | Unless a digit string has a superfluous leading zero, this module sends, key for key, the `str()` of what the create module sends. |
| EditHttpProfile.RunModule | plugins/modules/edit_http_profile.py:100-151 | The module run computes exactly the result the run function describes. |
| EditHttpProfile.RunOutcome | plugins/modules/edit_http_profile.py:121-151 | Check mode exits reporting a change and sends nothing. Otherwise exactly one PUT of the translated body goes to the profile's path. The run succeeds iff the reply has status 200 or 204 and its body can be read by its content type, reporting a change and that body. A readable reply with another status fails with `Failed to edit profile: HTTP <status>`. |
| CreateSslObjectCon.TranslateHttpsParams | plugins/modules/create_ssl_object_con.py:121-129 | The translation loop computes exactly the translated dict the HTTPS translation function describes. |
| CreateSslObjectCon.SslBodyFields | plugins/modules/create_ssl_object_con.py:156-161 | The SSL object body names the object, is enabled (`"1"`) exactly when `ssl_object_profile` is absent or `enable` and otherwise disabled (`"2"`), and carries `IP_Address` (default empty) and `Port` (default 443). |
| CreateSslObjectCon.HttpsIsHttpCreate | plugins/modules/create_ssl_object_con.py:102-129 | For `https`, the request sent is exactly the one the HTTP flood profile create module would send for the same name and parameters. |
| CreateSslObjectCon.TargetNames | plugins/modules/create_ssl_object_con.py:153-175 | The request is a POST to the SSL object table or the HTTPS flood profile table under the device's config path, for the given name, and its body names the entry. |
| CreateSslObjectCon.RunModule | plugins/modules/create_ssl_object_con.py:131-191 | The module run computes exactly the result the run function describes. |
| CreateSslObjectCon.RunOutcome | plugins/modules/create_ssl_object_con.py:149-191 | Check mode exits with no change and sends nothing. Otherwise exactly one POST is sent; the run succeeds iff a reply comes back, whatever its status, reporting a change and the reply's JSON or `{"raw": text}`; a transport error fails with its message. |

## Left out

- The CyberController client is not modelled; its behaviour is the oracle `net`. That covers login, the retry loop with random jitter, the client's own `raise_for_status`, and lock/unlock.
- Logging and Ansible argument validation are left out. Arguments are taken as already validated: lists of descriptor dicts, a `check_mode` flag and the DefensePro address.
- `debug_info` is modelled where a stated property depends on it: the `Debug` records of `plugins/modules/get_oos_profile.py` and `plugins/modules/get_https_profile.py`, the per-entry records of `plugins/modules/edit_syn_configuration.py`, and the `debug_info` key that makes five failure handlers raise (see Findings). Elsewhere its contents are not modelled.
- Python exception messages are modelled as fixed strings (`Py.NoItems`, `Py.NoGet`, `Py.NotIterable`, `Py.Unhashable`, `Py.JsonDecodeError`, `Py.NoLen`, `Py.NotSubscriptable`, `Py.NoStrip`, `Py.BadIntLiteral`, `Py.IntArgument`, `Py.CannotJoin`, `Py.JoinNonStr`, `DeleteHttpsProfile.NoSetdefault`, and `Http.StatusError` without reason phrase and URL). Python's messages also name the offending value's type.
- The `message` text of an empty preview in `plugins/modules/create_network_class.py`, `plugins/modules/create_security_policy.py` and `plugins/modules/create_full_config.py` is not modelled. Their preview result then carries `changed` false and no planned entries. The create modules for BDoS, DNS and HTTPS flood profiles do carry the text.
- `https://{cc_ip}` is not part of the recorded request paths.
- Characters are ASCII: `.lower()`, `.strip()` and `.isdigit()` do not model Unicode case folding, Unicode whitespace or Unicode digits.
- `int()` of a string does not accept digit-group underscores.
- `repr()` of a string does not model escaping or the choice of quote character.
- Dict keys that compare equal in Python while having different types (such as `True` and `1`) are distinct keys in the model.
- Descriptor lists whose elements are not dicts are not modelled. Ansible passes the list elements through unchecked.
- The committed client `plugins/module_utils/radware_cc.py` does not match the modules that call it. Its `__init__` has no `log_level` parameter, although every module passes `log_level=`. Its `_delete(self, url)` takes no `json` argument, although `plugins/modules/delete_security_policy.py:110` calls `cc._delete(url, json=request_body)`. With that client, each `policy_and_profiles` deletion would end in the error recorded at lines 140-143 and send nothing. The model assumes a client that accepts `log_level` and `_delete(..., json=...)`: `DeleteSecurityPolicy.DeleteRequest` sends the DELETE with its body, and `net` answers it.
- Constructing the client logs in, which the model assumes succeeds. Exceptions raised while building the client (such as a missing provider field), and the resulting "initialization failed" results, are not modelled unless a row above says otherwise.
- `plugins/modules/get_network_class.py` holds two variants between merge-conflict markers and is not valid Python as committed. The model follows the variant at lines 71-184; of the variant at lines 1-69 only the URL selection is modelled.
- In `plugins/modules/create_cl_configuration.py` the lemmas about the run are stated for any row mapping and any rendering of path segments. `Run` itself uses `map_protection_parameters` and `str()`, so the lemmas cover the module as written.
- In `plugins/modules/create_syn_configuration.py` the lemmas are likewise stated for any rendering of path segments; `Run` defaults to `str()`. A created protection's `parameters` are not stored in its record: `Parameters` reads them back from the recorded row.
- The workbook converter's file handling is not modelled. That covers opening the workbook, the error printing when a worksheet cannot be read, `write_yaml`, `main` and the progress messages. The workbook is a parameter: a list of named sheets, each a header row and data rows.
- The value type `Py.Value` has no float case: values are `None`, booleans, integers, strings, lists and dictionaries. Float values are not modelled, whether they are playbook parameters, fields of device replies or workbook cells. So `int()` truncating a float is not covered (the range checks of `plugins/modules/create_bdos_profile.py` at lines 246, 253, 260 and 275, `int()` on reply values at `plugins/modules/get_traffic_filter.py:64`), nor is `str()` of a float as seen by `.isdigit()` (`plugins/modules/create_http_profile.py:105`, `plugins/modules/edit_dns_profile.py:132`, `plugins/modules/create_ssl_object_con.py:128`). Date cells of the workbook are not modelled either.
- `resp.content` being empty is modelled as the reply text being empty.
- The HTTPS flood profile read module (`plugins/modules/get_https_profile.py:19-20`) names the challenge settings `http_authentication_on_*`, while the create module (`plugins/modules/create_https_profile.py:15-16`) expects `https_authentication_on_*`. Each module is modelled as written, and no read-after-create round trip is stated for them.
- The traffic filter read module decodes codes differently from the create module: TCP flag `"1"` reads as enabled while create sends `"2"` for enabled, and protocol `"1"` reads as tcp while create sends `"2"` for tcp. Each module is modelled as written, and no round trip is stated between them.
- The edit and delete traffic filter modules take `profiles` and `protections` as lists, so the `len()` calls before their `try` blocks cannot fail in the model.
- `profile_type` and the other `choices` arguments are taken as already validated by Ansible.
- The check-mode exits of `plugins/modules/edit_http_profile.py` and `plugins/modules/edit_https_profile.py` carry a fixed `msg` text. They are modelled by their `changed` flag and response; the text itself is not modelled.
- `Http.DuplicateKeyword` gives the TypeError raised when a keyword argument is passed twice as `fail_json() got multiple values for keyword argument '<key>'`. Python 3.10 and later prefix the method's class (`AnsibleModule.fail_json()`); the model does not depend on the Python version.
- The provider check of `plugins/modules/delete_syn_configuration.py:36-37` (failing when `cc_ip`, `username` or `password` is missing or empty) is not modelled; the model takes the provider as complete.
- Provider fields missing from `provider` (a `KeyError` when building the client) are modelled only in `plugins/modules/create_syn_protection.py`. The truthiness checks on the provider in `plugins/modules/create_syn_profile.py` and `plugins/modules/delete_https_profile.py` are modelled too.

## Findings

| source | as written | input that shows it | evidently intended | confidence | as-written member | corrected member |
|---|---|---|---|---|---|---|
| plugins/modules/create_bdos_profile.py:193 | The first word of the sensitivity table is a tab followed by `Ignore_or_Disable`. Values are lowercased before lookup, so no value can select code "1". | `params: {"udp_ packet_rate_detection_sensitivit": "Ignore_or_Disable"}` is rejected, and so is the same value with a leading tab. | The word `ignore_or_disable` selects code "1". | high (not executed) | CreateBdosProfile.SensitivityRejected | CreateBdosProfile.SensitivityCorrected |
| plugins/modules/get_oos_profile.py:98 | `result` already holds `debug_info` (line 20), so `fail_json(msg=str(e), debug_info=debug_info, **result)` passes `debug_info` twice and raises a TypeError inside the handler. | A reply whose body is not JSON: the module ends with the TypeError instead of failing with the decoding error. | The module fails with the exception's message. | high (not executed) | GetOosProfile.RunCrashes | GetOosProfile.IntendedFails |
| plugins/modules/get_cl_configuration.py:84 | `result` already holds `debug_info` (line 18), so the handler's `fail_json` passes `debug_info` twice and raises a TypeError. | A profile reply whose body is not JSON. | The module fails with the exception's message. | high (not executed) | GetClConfiguration.RunCrashes | GetClConfiguration.IntendedFails |
| plugins/modules/edit_traffic_filter.py:102 | `result` already holds `debug_info` (line 18), so the handler's `fail_json` passes `debug_info` twice and raises a TypeError. | One listed profile whose PUT raises. | The module fails with the exception's message. | high (not executed) | EditTrafficFilter.RunCrashed | EditTrafficFilter.IntendedFailed |
| plugins/modules/delete_traffic_filter.py:104 | `result` already holds `debug_info` (line 18), so the handler's `fail_json` passes `debug_info` twice and raises a TypeError. | One listed filter whose DELETE raises. | The module fails with the exception's message. | high (not executed) | DeleteTrafficFilter.RunCrashed | DeleteTrafficFilter.IntendedFailed |
| plugins/modules/edit_syn_configuration.py:129 | `result` already holds `debug_info` (line 24), so the handler's `fail_json` passes `debug_info` twice and raises a TypeError. | A profile entry that is not a dict. | The module fails with the exception's message and the results so far. | high (not executed) | EditSynConfiguration.RunAccounted | EditSynConfiguration.IntendedAccounted |
| plugins/modules/edit_cl_protection.py:285 | `result` already holds `changed` (line 228), so `exit_json(changed=False, msg=..., **result)` raises a TypeError inside the `try`; the handler fails the module with that message. | Every edit parameter `None`, outside check mode. | The module exits unchanged with "No parameters provided to update". | high (not executed) | EditClProtection.NothingGivenFails | EditClProtection.IntendedNothingGiven |

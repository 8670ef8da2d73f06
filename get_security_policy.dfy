/** Reading security policies (plugins/modules/get_security_policy.py): one GET of
    `rsIDSNewRulesTable`, an optional filter on policy names, a grouping of the rows by name and
    a display form of each row with friendly field names and enum words. */
module GetSecurityPolicy {
  import opened Py
  import opened Http
  import opened Tables
  import opened Grouping

  const NameField := "rsIDSNewRulesName"
  const ByName := NameKey(NameField, VStr(""))
  const PolicyTable := "rsIDSNewRulesTable"

  /** `FIELD_MAP_REVERSE`: API field to friendly name. */
  const FieldNames: Table := [
    ("rsIDSNewRulesName", "policy_name"),
    ("rsIDSNewRulesState", "status"),
    ("rsIDSNewRulesAction", "action"),
    ("rsIDSNewRulesSource", "source"),
    ("rsIDSNewRulesDestination", "destination"),
    ("rsIDSNewRulesDirection", "direction"),
    ("rsIDSNewRulesPortmask", "portmask"),
    ("rsIDSNewRulesPriority", "priority"),
    ("rsIDSNewRulesVlanTagGroup", "vlan_tag_group"),
    ("rsIDSNewRulesPacketReportingStatus", "packet_reporting_status"),
    ("rsIDSNewRulesPacketReportingEnforcement", "packet_reporting_enforcement"),
    ("rsIDSNewRulesProfileNetflood", "netflood_profile"),
    ("rsIDSNewRulesProfileAppsec", "appsec_profile"),
    ("rsIDSNewRulesProfileConlmt", "connection_limit_profile"),
    ("rsIDSNewRulesProfileStateful", "stateful_profile"),
    ("rsIDSNewRulesProfileScanning", "scanning_profile"),
    ("rsIDSNewRulesProfileSynprotection", "syn_protection_profile"),
    ("rsIDSNewRulesProfileDNS", "dns_profile"),
    ("rsIDSNewRulesProfileHttpsflood", "https_flood_profile"),
    ("rsIDSNewRulesProfileErtAttackersFeed", "ert_attackers_feed_profile"),
    ("rsIDSNewRulesProfileTrafficFilters", "traffic_filters_profile"),
    ("rsIDSNewRulesProfileGeoFeed", "geo_feed_profile"),
    ("rsIDSNewRulesProfileQdos", "qdos_profile"),
    ("rsIDSNewRulesCdnAction", "cdn_action"),
    ("rsIDSNewRulesCdnHandling", "cdn_handling"),
    ("rsIDSNewRulesCdnHandlingHttps", "cdn_handling_https"),
    ("rsIDSNewRulesCdnHandlingSig", "cdn_handling_sig"),
    ("rsIDSNewRulesCdnHandlingSyn", "cdn_handling_syn"),
    ("rsIDSNewRulesCdnHandlingTF", "cdn_handling_tf"),
    ("rsIDSNewRulesCdnTrueIpCustomHdr", "cdn_true_ip_custom_header"),
    ("rsIDSNewRulesCdnHdrNotFoundFallback", "cdn_header_not_found_fallback"),
    ("rsIDSNewRulesCdnTrueClientIpHdr", "cdn_true_client_ip_header"),
    ("rsIDSNewRulesCdnXForwardedForHdr", "cdn_x_forwarded_for_header"),
    ("rsIDSNewRulesCdnForwardedHdr", "cdn_forwarded_header"),
    ("rsIDSNewRulesInstanceId", "instance_id"),
    ("rsIDSNewRulesMPLSRDGroup", "mpls_rd_group"),
    ("rsIDSQuarantineStatusInPolicy", "quarantine_status"),
    ("rsIDSServiceName", "service_name"),
    ("rsIDSNewRulesDnsSDAllowListEnforce", "dns_sd_allow_list_enforce")
  ]

  const EnabledDisabled: Table := [("1", "enabled"), ("2", "disabled")]

  /** `VALUE_MAPS`: friendly field to its code-to-word table. */
  const ValueMaps: seq<(string, Table)> := [
    ("status", EnabledDisabled),
    ("action", [("0", "report_only"), ("1", "block_and_report")]),
    ("direction", [("1", "inbound"), ("2", "outbound"), ("3", "bidirectional")]),
    ("packet_reporting_status", EnabledDisabled),
    ("packet_reporting_enforcement", EnabledDisabled),
    ("cdn_action", EnabledDisabled),
    ("cdn_handling", EnabledDisabled),
    ("cdn_handling_https", EnabledDisabled),
    ("cdn_handling_sig", EnabledDisabled),
    ("cdn_handling_syn", EnabledDisabled),
    ("cdn_handling_tf", EnabledDisabled),
    ("cdn_header_not_found_fallback", EnabledDisabled),
    ("cdn_true_client_ip_header", EnabledDisabled),
    ("cdn_x_forwarded_for_header", EnabledDisabled),
    ("cdn_forwarded_header", EnabledDisabled),
    ("quarantine_status", EnabledDisabled),
    ("dns_sd_allow_list_enforce", EnabledDisabled)
  ]

  // ---------------------------------------------------------------------------------------------
  // format_security_policy_for_display
  // ---------------------------------------------------------------------------------------------

  /** Empty values (anything falsy) and the marker `"OBSOLETE"` are not shown. */
  predicate Hidden(v: Value)
  {
    !Truthy(v) || v == VStr("OBSOLETE")
  }

  /** The value shown for a friendly field: the word its table gives `str(v)`, else `v`. */
  function Shown(maps: seq<(string, Table)>, field: string, v: Value): Value
  {
    match Get(maps, field)
    case None => v
    case Some(t) =>
      match Get(t, Str(v))
      case Some(w) => VStr(w)
      case None => v
  }

  /** What one API field of a row becomes in the display form. */
  function DisplayStep(names: Table, maps: seq<(string, Table)>, k: string, v: Value): Emit
  {
    if Hidden(v) then Skip else Emit(GetOr(names, k, k), Shown(maps, GetOr(names, k, k), v))
  }

  function Step(names: Table, maps: seq<(string, Table)>): (string, Value) -> Emit
  {
    (k, v) => DisplayStep(names, maps, k, v)
  }

  /** The display form of a row, with the given tables. */
  function DisplayWith(names: Table, maps: seq<(string, Table)>, row: Dict): (r: Dict)
  {
    assert forall k, v :: !Step(names, maps)(k, v).Reject?;
    TranslateTotal(row, Step(names, maps));
    Translate(row, Step(names, maps)).value
  }

  /** `format_security_policy_for_display(raw)`: only a dict has `.items()`. */
  function FormatForDisplay(raw: Value): Result<Dict>
  {
    if raw.VDict? then Ok(DisplayWith(FieldNames, ValueMaps, raw.entries)) else Err(NoItems)
  }

  method FormatSecurityPolicyForDisplay(raw: Value) returns (r: Result<Dict>)
    ensures r == FormatForDisplay(raw)
  {
    if !raw.VDict? {
      return Err(NoItems);
    }
    r := TranslateLoop(raw.entries, Step(FieldNames, ValueMaps));
    assert forall k, v :: !Step(FieldNames, ValueMaps)(k, v).Reject?;
    TranslateTotal(raw.entries, Step(FieldNames, ValueMaps));
  }

  /** The display form of a row holds a field iff some shown API field of the row is renamed to
      it (unknown API fields keep their name); its value is the shown form of the LAST such
      field's value, which is the table's word for `str(value)` when the field has a table
      containing it, and the raw value otherwise.  Hidden values leave no trace. */
  lemma DisplayContents(names: Table, maps: seq<(string, Table)>, row: Dict, f: string)
    ensures var d := DisplayWith(names, maps, row);
      UniqueKeys(d) &&
      (Get(d, f).Some? <==> exists i :: 0 <= i < |row| && !Hidden(row[i].1) && GetOr(names, row[i].0, row[i].0) == f) &&
      (Get(d, f).Some? ==>
         exists i :: 0 <= i < |row| && !Hidden(row[i].1) && GetOr(names, row[i].0, row[i].0) == f &&
           Get(d, f).value == Shown(maps, f, row[i].1) &&
           forall j :: i < j < |row| ==> Hidden(row[j].1) || GetOr(names, row[j].0, row[j].0) != f)
  {
    var step := Step(names, maps);
    assert forall k, v :: !step(k, v).Reject?;
    TranslateTotal(row, step);
    TranslateLastWins(row, step, f);
    TranslateContents(row, step);
    forall i | 0 <= i < |row|
      ensures StepAt(row, step, i).Emit? <==> !Hidden(row[i].1)
      ensures StepAt(row, step, i).Emit? ==>
        StepAt(row, step, i).key == GetOr(names, row[i].0, row[i].0) &&
        StepAt(row, step, i).value == Shown(maps, GetOr(names, row[i].0, row[i].0), row[i].1)
    {
    }
  }

  /** A value is translated only when its field has a table containing `str(value)`, and then it
      becomes the word that table pairs with `str(value)`. */
  lemma ShownTranslates(maps: seq<(string, Table)>, f: string, v: Value)
    ensures Shown(maps, f, v) != v ==> Get(maps, f).Some? && Get(Get(maps, f).value, Str(v)).Some?
    ensures Shown(maps, f, v) != v ==>
      Shown(maps, f, v).VStr? && (Str(v), Shown(maps, f, v).s) in Get(maps, f).value
  {
    if Get(maps, f).Some? && Get(Get(maps, f).value, Str(v)).Some? {
      GetSome(Get(maps, f).value, Str(v));
    }
  }

  // ---------------------------------------------------------------------------------------------
  // Grouping by policy name, with the display form beside it
  // ---------------------------------------------------------------------------------------------

  /** A grouped row in display form (grouped rows are always dicts). */
  function DisplayRow(e: Value): Value
  {
    if e.VDict? then VDict(DisplayWith(FieldNames, ValueMaps, e.entries)) else e
  }

  /** The grouping loop, filling `policies_summary` and `formatted_policies` side by side. */
  method GroupPolicies(entries: seq<Value>) returns (r: Result<(Groups, Groups)>)
    ensures Group(ByName, entries).Err? ==> r == Err(Group(ByName, entries).msg)
    ensures Group(ByName, entries).Ok? ==> r == Ok((Group(ByName, entries).value, FormatGroups(Group(ByName, entries).value, DisplayRow)))
  {
    var summary: Groups := [];
    var formatted: Groups := [];
    var i := 0;
    while i < |entries|
      invariant 0 <= i <= |entries|
      invariant Group(ByName, entries[..i]) == Ok(summary)
      invariant formatted == FormatGroups(summary, DisplayRow)
    {
      assert entries[..i + 1][..i] == entries[..i];
      var e := entries[i];
      if !e.VDict? {
        GroupStaysErr(ByName, entries, i + 1);
        return Err(NoGet);
      }
      var name := NameOf(ByName, e);
      if !Hashable(name) {
        GroupStaysErr(ByName, entries, i + 1);
        return Err(Unhashable);
      }
      var shown := FormatSecurityPolicyForDisplay(e);
      FormatPut(summary, name, e, DisplayRow);
      summary := Put(summary, name, GetOr(summary, name, []) + [e]);
      formatted := Put(formatted, name, GetOr(formatted, name, []) + [VDict(shown.value)]);
      i := i + 1;
    }
    assert entries[..i] == entries;
    return Ok((summary, formatted));
  }

  // ---------------------------------------------------------------------------------------------
  // The module run
  // ---------------------------------------------------------------------------------------------

  datatype Summary = Summary(totalEntries: nat, uniquePolicies: nat, policyNames: seq<Value>,
                             filtered: bool, filterApplied: Option<seq<Value>>)

  /** `result['response']`: the (filtered) rows, the display groups, the summary and the raw
      groups.  The module never reports a change. */
  datatype Response = Response(table: Value, formatted: Groups, summary: Summary, breakdown: Groups)

  datatype RunResult = Exited(response: Response, sent: seq<Request>) | Failed(msg: string, sent: seq<Request>)

  function FetchRequest(dp: string): Request
  {
    Request(GET, ConfigPath(dp, PolicyTable), None)
  }

  /** The policy rows of the reply (`[]` when the reply has none), filtered when names are
      listed, or the exception raised on the way.  Unfiltered rows have their `len()` logged
      before anything iterates them, so rows without a length fail with that TypeError. */
  function Selected(o: Outcome, names: seq<Value>): Result<Value>
  {
    match o
    case Raised(m) => Err(m)
    case Returned(reply) =>
      match reply.json
      case None => Err(JsonDecodeError)
      case Some(data) =>
        if !data.VDict? then Err(NoGet)
        else
          var table := FieldOr(data, PolicyTable, VList([]));
          if names == [] then
            if Len(table).None? then Err(NoLen) else Ok(table)
          else
            match Iter(table)
            case None => Err(NotIterable)
            case Some(rows) =>
              match Filter(ByName, rows, names)
              case Err(m) => Err(m)
              case Ok(kept) => Ok(VList(kept))
  }

  function Run(dp: string, names: seq<Value>, net: Net): RunResult
  {
    var sent := [FetchRequest(dp)];
    match Selected(net(0), names)
    case Err(m) => Failed(m, sent)
    case Ok(table) =>
      match Iter(table)
      case None => Failed(NotIterable, sent)
      case Some(rows) =>
        match Group(ByName, rows)
        case Err(m) => Failed(m, sent)
        case Ok(g) =>
          Exited(Response(table, FormatGroups(g, DisplayRow),
                          Summary(|rows|, |g|, Keys(g), names != [], if names != [] then Some(names) else None), g),
                 sent)
  }

  method RunModule(dp: string, names: seq<Value>, net: Net) returns (r: RunResult)
    ensures r == Run(dp, names, net)
  {
    var sent := [FetchRequest(dp)];
    var o := net(0);
    if o.Raised? {
      return Failed(o.msg, sent);
    }
    if o.reply.json.None? {
      return Failed(JsonDecodeError, sent);
    }
    var data := o.reply.json.value;
    if !data.VDict? {
      return Failed(NoGet, sent);
    }
    var table := FieldOr(data, PolicyTable, VList([]));
    if names != [] {
      if Iter(table).None? {
        return Failed(NotIterable, sent);
      }
      var kept := FilterByNames(ByName, Iter(table).value, names);
      if kept.Err? {
        return Failed(kept.msg, sent);
      }
      table := VList(kept.value);
    } else if Len(table).None? {
      return Failed(NoLen, sent);
    }
    var rows := Iter(table).value;
    var grouped := GroupPolicies(rows);
    if grouped.Err? {
      return Failed(grouped.msg, sent);
    }
    var (summary, formatted) := grouped.value;
    return Exited(Response(table, formatted,
                           Summary(|rows|, |summary|, Keys(summary), names != [], if names != [] then Some(names) else None),
                           summary),
                  sent);
  }

  /** One GET is sent, whatever happens.  A reported response counts every row once across the
      groups, one group per distinct name, and says it is filtered iff names were listed; a
      filtered table holds only dict rows whose name is listed.  A JSON dict reply whose rows
      are a list of groupable rows is always reported. Rows with no
      length (`None`, a bool, a number) fail the module: unfiltered with the `len()` TypeError
      raised while logging their count, filtered with the error of iterating them. */
  lemma RunOutcome(dp: string, names: seq<Value>, net: Net)
    ensures Run(dp, names, net).sent == [FetchRequest(dp)]
    ensures var r := Run(dp, names, net);
      r.Exited? ==>
        var s := r.response.summary;
        s.totalEntries == Total(r.response.breakdown) && s.uniquePolicies == |s.policyNames| &&
        UniqueKeys(r.response.breakdown) && s.policyNames == Keys(r.response.breakdown) &&
        (s.filtered <==> names != []) &&
        (names != [] ==>
           r.response.table.VList? &&
           forall e :: e in r.response.table.items ==> e.VDict? && NameOf(ByName, e) in names)
    ensures net(0).Returned? && net(0).reply.json.Some? && net(0).reply.json.value.VDict? &&
      FieldOr(net(0).reply.json.value, PolicyTable, VList([])).VList? &&
      (forall i :: 0 <= i < |FieldOr(net(0).reply.json.value, PolicyTable, VList([])).items| ==>
         !Ungroupable(ByName, FieldOr(net(0).reply.json.value, PolicyTable, VList([])).items[i]))
      ==> Run(dp, names, net).Exited?
    ensures net(0).Returned? && net(0).reply.json.Some? && net(0).reply.json.value.VDict? &&
      Len(FieldOr(net(0).reply.json.value, PolicyTable, VList([]))).None?
      ==> Run(dp, names, net) == Failed(if names == [] then NoLen else NotIterable, [FetchRequest(dp)])
  {
    var r := Run(dp, names, net);
    var sel := Selected(net(0), names);
    if sel.Ok? && Iter(sel.value).Some? && Group(ByName, Iter(sel.value).value).Ok? {
      var rows := Iter(sel.value).value;
      GroupKeys(ByName, rows);
      KeysLength(Group(ByName, rows).value);
      if names != [] {
        var table := FieldOr(net(0).reply.json.value, PolicyTable, VList([]));
        FilterSound(ByName, Iter(table).value, names);
      }
    }
    if net(0).Returned? && net(0).reply.json.Some? && net(0).reply.json.value.VDict? {
      var table := FieldOr(net(0).reply.json.value, PolicyTable, VList([]));
      if table.VList? && forall i :: 0 <= i < |table.items| ==> !Ungroupable(ByName, table.items[i]) {
        if names != [] {
          FilterSound(ByName, table.items, names);
          var kept := Filter(ByName, table.items, names).value;
          forall i | 0 <= i < |kept| ensures !Ungroupable(ByName, kept[i]) {
            assert kept[i] in table.items;
          }
          GroupRaises(ByName, kept);
        } else {
          GroupRaises(ByName, table.items);
        }
      }
    }
  }
}

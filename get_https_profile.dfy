/** Reading the HTTPS-flood profiles (plugins/modules/get_https_profile.py): one GET reads the
    profile rows, an optional filter keeps the rows whose name is listed, and each kept row is
    formatted for display: its name (`unknown` when it has none) and the parameters it sets,
    renamed from the device's columns to the playbook's keys with enum codes read back as
    words. */
module GetHttpsProfile {
  import opened Py
  import opened Http
  import opened Tables
  import opened Grouping

  const ProfileTable := "rsHttpsFloodProfileTable"
  const NameField := "rsHttpsFloodProfileName"
  const Unknown := "unknown"

  /** `p.get("rsHttpsFloodProfileName")`, the name the filter compares. */
  const FilterKey := NameKey(NameField, VNone)

  /** `REVERSE_FIELD_MAP`: device column to playbook key, in the order keys are formatted. */
  const ReverseFieldMap: Table := [
    ("rsHttpsFloodProfileAction", "action"),
    ("rsHttpsFloodProfileRateLimitStatus", "rate_limit_status"),
    ("rsHttpsFloodProfileRateLimit", "rate_limit"),
    ("rsHttpsFloodProfileSelectiveChallenge", "http_authentication_on_suspect_sources"),
    ("rsHttpsFloodProfileCollectiveChallenge", "http_authentication_on_all_sources"),
    ("rsHttpsFloodProfileFullSessionDecryption", "full_session_decryption"),
    ("rsHttpsFloodProfileChallengeMethod", "challenge_method"),
    ("rsHttpsFloodProfilePacketReporting", "packet_report")
  ]

  /** `REVERSE_ENUM_MAPS`: per device column, the codes read back as words. */
  const ReverseEnumMaps: seq<(string, Table)> := [
    ("rsHttpsFloodProfileAction", [("0", "report_only"), ("1", "block_and_report")]),
    ("rsHttpsFloodProfileSelectiveChallenge", [("1", "enable"), ("2", "disable")]),
    ("rsHttpsFloodProfileCollectiveChallenge", [("1", "enable"), ("2", "disable")]),
    ("rsHttpsFloodProfileRateLimitStatus", [("1", "enable"), ("2", "disable")]),
    ("rsHttpsFloodProfileFullSessionDecryption", [("1", "enable"), ("2", "disable")]),
    ("rsHttpsFloodProfilePacketReporting", [("1", "enable"), ("2", "disable")]),
    ("rsHttpsFloodProfileChallengeMethod", [("1", "redirect_302"), ("2", "javascript")])
  ]

  const HttpsMaps := FieldMaps(ReverseFieldMap, ReverseEnumMaps)

  /** `/mgmt/device/byip/{dp_ip}/config/rsHttpsFloodProfileTable` */
  function FetchRequest(dp: string): Request
  {
    Request(GET, ConfigPath(dp, ProfileTable), None)
  }

  // ---------------------------------------------------------------------------------------------
  // Formatting one profile
  // ---------------------------------------------------------------------------------------------

  /** One column read back: through the column's enum map (by `str()`) when it has one, as it
      is otherwise. */
  function ReadBack(enums: seq<(string, Table)>, apiField: string, v: Value): Value
  {
    match Get(enums, apiField)
    case Some(t) => StrLookup(t, v)
    case None => v
  }

  /** `format_http_profile_for_display`: the name first, then every mapped column that is set
      to something other than `None`. */
  function Format(fields: Table, enums: seq<(string, Table)>, raw: Value): Dict
    decreases |fields|
  {
    if fields == [] then [("profile_name", FieldOr(raw, NameField, VStr(Unknown)))]
    else
      var n := |fields| - 1;
      var d := Format(fields[..n], enums, raw);
      var v := FieldOr(raw, fields[n].0, VNone);
      if v == VNone then d else Put(d, fields[n].1, ReadBack(enums, fields[n].0, v))
  }

  method FormatProfile(fields: Table, enums: seq<(string, Table)>, raw: Value) returns (formatted: Dict)
    ensures formatted == Format(fields, enums, raw)
  {
    formatted := [("profile_name", FieldOr(raw, NameField, VStr(Unknown)))];
    var i := 0;
    while i < |fields|
      invariant 0 <= i <= |fields|
      invariant formatted == Format(fields[..i], enums, raw)
    {
      assert fields[..i + 1][..i] == fields[..i];
      var (apiField, userField) := fields[i];
      var value := FieldOr(raw, apiField, VNone);
      if value != VNone {
        formatted := Put(formatted, userField, ReadBack(enums, apiField, value));
      }
      i := i + 1;
    }
    assert fields[..i] == fields;
  }

  /** No column maps to `profile_name`, and no two columns map to the same key. */
  predicate Distinct(fields: Table)
  {
    UniqueValues(fields) && forall i :: 0 <= i < |fields| ==> fields[i].1 != "profile_name"
  }

  /** `Distinct` holds of every prefix. */
  lemma DistinctInit(fields: Table)
    requires fields != [] && Distinct(fields)
    ensures var n := |fields| - 1;
      Distinct(fields[..n]) && forall i :: 0 <= i < n ==> fields[..n][i].1 != fields[n].1
  {
    var n := |fields| - 1;
    assert forall i :: 0 <= i < n ==> fields[..n][i] == fields[i];
  }

  /** With distinct keys, the formatted profile holds `profile_name` first and then exactly the
      keys whose column is set, in `REVERSE_FIELD_MAP` order. */
  lemma {:induction false} FormatKeys(fields: Table, enums: seq<(string, Table)>, raw: Value)
    requires Distinct(fields)
    ensures Keys(Format(fields, enums, raw)) == ["profile_name"] + Present(fields, raw)
    decreases |fields|
  {
    if fields != [] {
      var n := |fields| - 1;
      var init := fields[..n];
      DistinctInit(fields);
      FormatKeys(init, enums, raw);
      var v := FieldOr(raw, fields[n].0, VNone);
      if v != VNone {
        PresentNot(init, raw, fields[n].1);
        KeysPut(Format(init, enums, raw), fields[n].1, ReadBack(enums, fields[n].0, v));
      }
    }
  }

  /** With distinct keys, `profile_name` is the row's name, or `unknown` when it has none. */
  lemma {:induction false} FormatName(fields: Table, enums: seq<(string, Table)>, raw: Value)
    requires Distinct(fields)
    ensures Get(Format(fields, enums, raw), "profile_name") == Some(FieldOr(raw, NameField, VStr(Unknown)))
    ensures raw.VDict? && Get(raw.entries, NameField).None? ==>
      Get(Format(fields, enums, raw), "profile_name") == Some(VStr(Unknown))
    decreases |fields|
  {
    if fields != [] {
      var n := |fields| - 1;
      DistinctInit(fields);
      FormatName(fields[..n], enums, raw);
      var v := FieldOr(raw, fields[n].0, VNone);
      if v != VNone {
        GetPut(Format(fields[..n], enums, raw), fields[n].1, ReadBack(enums, fields[n].0, v), "profile_name");
      }
    }
  }

  /** With distinct keys, a key whose column is set holds that column read back, and a key
      whose column is missing or `None` is absent. */
  lemma {:induction false} FormatGet(fields: Table, enums: seq<(string, Table)>, raw: Value, i: nat)
    requires Distinct(fields) && i < |fields|
    ensures var v := FieldOr(raw, fields[i].0, VNone);
      Get(Format(fields, enums, raw), fields[i].1) ==
        if v == VNone then None else Some(ReadBack(enums, fields[i].0, v))
    decreases |fields|
  {
    var n := |fields| - 1;
    var init := fields[..n];
    var v := FieldOr(raw, fields[n].0, VNone);
    DistinctInit(fields);
    if v != VNone {
      GetPut(Format(init, enums, raw), fields[n].1, ReadBack(enums, fields[n].0, v), fields[i].1);
    }
    if i < n {
      assert init[i] == fields[i];
      FormatGet(init, enums, raw, i);
    } else {
      FormatKeys(init, enums, raw);
      PresentNot(init, raw, fields[n].1);
      GetSome(Format(init, enums, raw), fields[n].1);
    }
  }

  /** `REVERSE_FIELD_MAP` maps no column to `profile_name` and no two columns to one key. */
  lemma ReverseFieldMapDistinct()
    ensures Distinct(ReverseFieldMap)
  {
  }

  /** The challenge method reads back as `redirect_302` or `javascript`, from an integer or a
      string code. */
  lemma ChallengeCodes()
    ensures ReadBack(ReverseEnumMaps, "rsHttpsFloodProfileChallengeMethod", VInt(1)) == VStr("redirect_302")
    ensures ReadBack(ReverseEnumMaps, "rsHttpsFloodProfileChallengeMethod", VStr("2")) == VStr("javascript")
  {
    assert IntToString(1) == "1";
  }

  /** The rate limit has no enum map and is kept as it is. */
  lemma RateLimitKept(v: Value)
    ensures ReadBack(ReverseEnumMaps, "rsHttpsFloodProfileRateLimit", v) == v
  {
  }

  // ---------------------------------------------------------------------------------------------
  // Formatting every profile
  // ---------------------------------------------------------------------------------------------

  /** `[format_http_profile_for_display(p) for p in profiles_raw]`: a row that is not a dict
      has no `.get`. */
  function FormatAll(fields: Table, enums: seq<(string, Table)>, rows: seq<Value>): Result<seq<Value>>
    decreases |rows|
  {
    if rows == [] then Ok([])
    else
      var n := |rows| - 1;
      match FormatAll(fields, enums, rows[..n])
      case Err(m) => Err(m)
      case Ok(out) => if !rows[n].VDict? then Err(NoGet) else Ok(out + [VDict(Format(fields, enums, rows[n]))])
  }

  /** Formatting fails iff some row is not a dict; otherwise there is one formatted profile per
      row, in row order. */
  lemma {:induction false} FormatAllPerRow(fields: Table, enums: seq<(string, Table)>, rows: seq<Value>)
    ensures FormatAll(fields, enums, rows).Err? <==> exists i :: 0 <= i < |rows| && !rows[i].VDict?
    ensures FormatAll(fields, enums, rows).Ok? ==>
      var out := FormatAll(fields, enums, rows).value;
      |out| == |rows| && forall i :: 0 <= i < |rows| ==> out[i] == VDict(Format(fields, enums, rows[i]))
    decreases |rows|
  {
    if rows != [] {
      var n := |rows| - 1;
      FormatAllPerRow(fields, enums, rows[..n]);
      assert forall i :: 0 <= i < n ==> rows[..n][i] == rows[i];
    }
  }

  /** `[p["profile_name"] for p in formatted_profiles]` */
  function ProfileNames(formatted: seq<Value>): seq<Value>
  {
    seq(|formatted|, i requires 0 <= i < |formatted| => FieldOr(formatted[i], "profile_name", VNone))
  }

  // ---------------------------------------------------------------------------------------------
  // The module run
  // ---------------------------------------------------------------------------------------------

  datatype Summary = Summary(totalEntries: nat, uniqueProfiles: nat, profileNames: seq<Value>,
                             filtered: bool, filterApplied: Option<seq<Value>>)

  /** `result["response"]`: the (filtered) rows, the formatted profiles and the summary. */
  datatype Response = Response(table: Value, formatted: seq<Value>, summary: Summary)

  /** `debug_info`: the raw row count, the summary it repeats and the message of a failure. */
  datatype Debug = Debug(profilesRawCount: Option<nat>, summary: Option<Summary>, error: Option<string>)

  datatype RunResult =
    | Exited(response: Response, debug: Debug, sent: seq<Request>)
    | Failed(msg: string, debug: Debug, sent: seq<Request>)

  /** The rows the module formats: all of them, or the listed ones when names are listed. */
  function Kept(raw: Value, names: seq<Value>): Result<Value>
    requires Iter(raw).Some?
  {
    if names == [] then Ok(raw)
    else
      match Filter(FilterKey, Iter(raw).value, names)
      case Err(m) => Err(m)
      case Ok(kept) => Ok(VList(kept))
  }

  /** The module run, with the maps it formats the rows through. */
  function Run(m: FieldMaps, dp: string, names: seq<Value>, net: Net): RunResult
  {
    var sent := [FetchRequest(dp)];
    match TableOf(net(0), ProfileTable)
    case Err(e) => Failed(e, Debug(None, None, Some(e)), sent)
    case Ok(raw) =>
      if Len(raw).None? then Failed(NoLen, Debug(None, None, Some(NoLen)), sent)
      else
        var count := Some(Len(raw).value);
        match Kept(raw, names)
        case Err(e) => Failed(e, Debug(count, None, Some(e)), sent)
        case Ok(table) =>
          match FormatAll(m.fields, m.enums, Iter(table).value)
          case Err(e) => Failed(e, Debug(count, None, Some(e)), sent)
          case Ok(formatted) =>
            var profileNames := ProfileNames(formatted);
            var summary := Summary(Len(table).value, |profileNames|, profileNames, names != [],
                                   if names != [] then Some(names) else None);
            Exited(Response(table, formatted, summary), Debug(count, Some(summary), None), sent)
  }

  method RunModule(dp: string, names: seq<Value>, net: Net) returns (r: RunResult)
    ensures r == Run(HttpsMaps, dp, names, net)
  {
    var sent := [FetchRequest(dp)];
    var raw := TableOf(net(0), ProfileTable);
    if raw.Err? {
      return Failed(raw.msg, Debug(None, None, Some(raw.msg)), sent);
    }
    if Len(raw.value).None? {
      return Failed(NoLen, Debug(None, None, Some(NoLen)), sent);
    }
    var count := Some(Len(raw.value).value);
    var table := raw.value;
    if names != [] {
      var kept := FilterByNames(FilterKey, Iter(table).value, names);
      if kept.Err? {
        return Failed(kept.msg, Debug(count, None, Some(kept.msg)), sent);
      }
      table := VList(kept.value);
    }
    var formatted := FormatAll(ReverseFieldMap, ReverseEnumMaps, Iter(table).value);
    if formatted.Err? {
      return Failed(formatted.msg, Debug(count, None, Some(formatted.msg)), sent);
    }
    var profileNames := ProfileNames(formatted.value);
    var summary := Summary(Len(table).value, |profileNames|, profileNames, names != [],
                           if names != [] then Some(names) else None);
    return Exited(Response(table, formatted.value, summary), Debug(count, Some(summary), None), sent);
  }

  /** One GET is sent, and a failure records its message.  A run is reported iff the reply holds
      a table with a length whose rows are all dicts. */
  lemma RunOutcome(m: FieldMaps, dp: string, names: seq<Value>, net: Net)
    ensures Run(m, dp, names, net).sent == [FetchRequest(dp)]
    ensures Run(m, dp, names, net).Failed? ==> Run(m, dp, names, net).debug.error == Some(Run(m, dp, names, net).msg)
    ensures Run(m, dp, names, net).Exited? <==>
      TableOf(net(0), ProfileTable).Ok? && Len(TableOf(net(0), ProfileTable).value).Some? &&
      forall i :: 0 <= i < |Iter(TableOf(net(0), ProfileTable).value).value| ==>
        Iter(TableOf(net(0), ProfileTable).value).value[i].VDict?
  {
    if TableOf(net(0), ProfileTable).Ok? && Len(TableOf(net(0), ProfileTable).value).Some? {
      var raw := TableOf(net(0), ProfileTable).value;
      var rows := Iter(raw).value;
      FilterSound(FilterKey, rows, names);
      if Kept(raw, names).Ok? {
        var kept := Iter(Kept(raw, names).value).value;
        FormatAllPerRow(m.fields, m.enums, kept);
        if names != [] && forall i :: 0 <= i < |rows| ==> rows[i].VDict? {
          forall i | 0 <= i < |kept| ensures kept[i].VDict? {
            assert kept[i] in Filter(FilterKey, rows, names).value;
          }
        }
      }
    }
  }

  /** A reported run formats every kept row once, in order, so `unique_profiles` always equals
      `total_entries`: nothing is deduplicated.  It is filtered iff names are listed, a
      filtered table holds exactly the rows whose name is listed, and an unfiltered one is the
      reply's table itself. */
  lemma RunReport(m: FieldMaps, dp: string, names: seq<Value>, net: Net)
    requires Run(m, dp, names, net).Exited?
    ensures var r := Run(m, dp, names, net).response;
      var rows := Iter(r.table).value;
      r.summary.uniqueProfiles == r.summary.totalEntries == |r.formatted| == |rows| &&
      (forall i :: 0 <= i < |rows| ==> r.formatted[i] == VDict(Format(m.fields, m.enums, rows[i]))) &&
      r.summary.profileNames == ProfileNames(r.formatted) &&
      (r.summary.filtered <==> names != []) &&
      (names == [] ==> r.table == TableOf(net(0), ProfileTable).value) &&
      (names != [] ==> forall e :: e in rows <==>
         e in Iter(TableOf(net(0), ProfileTable).value).value && NameOf(FilterKey, e) in names)
  {
    var raw := TableOf(net(0), ProfileTable).value;
    var table := Kept(raw, names).value;
    FormatAllPerRow(m.fields, m.enums, Iter(table).value);
    FilterSound(FilterKey, Iter(raw).value, names);
  }
}

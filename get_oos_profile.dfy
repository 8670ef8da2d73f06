/** Reading the out-of-state profiles (plugins/modules/get_oos_profile.py): one GET reads the
    stateful profile rows, each row becomes its name and the parameters it sets, renamed from
    the device's columns to the playbook's keys and with enum codes read back as words; an
    optional filter keeps the listed profiles. */
module GetOosProfile {
  import opened Py
  import opened Http
  import opened Tables
  import opened Grouping

  const ProfileTable := "rsStatefulProfileTable"
  const NameField := "rsSTATFULProfileName"

  /** `ENUM_MAPS`: per playbook key, the codes read back as words.  Risk code `0` (which the
      creating module writes for `info`) is not listed, so it is reported raw. */
  const EnumMaps: seq<(string, Table)> := [
    ("syn_ack_allow", SwitchWords),
    ("packet_report", SwitchWords),
    ("action", ActionWords),
    ("risk", RiskWords),
    ("idle_state", SwitchWords)
  ]

  const SwitchWords: Table := [("1", "enable"), ("2", "disable")]
  const ActionWords: Table := [("0", "report_only"), ("1", "block_and_report")]
  const RiskWords: Table := [("1", "low"), ("2", "medium"), ("3", "high")]

  /** `FIELD_MAP`: device column to playbook key, in the order the parameters are reported. */
  const FieldMap: Table := [
    ("rsSTATFULProfileactThreshold", "act_threshold"),
    ("rsSTATFULProfiletermThreshold", "term_threshold"),
    ("rsSTATFULProfilesynAckAllow", "syn_ack_allow"),
    ("rsSTATFULProfilePacketReportStatus", "packet_report"),
    ("rsSTATFULProfileAction", "action"),
    ("rsSTATFULProfileRisk", "risk"),
    ("rsSTATFULProfileEnableIdleState", "idle_state"),
    ("rsSTATFULProfileIdleStateBandwidthThreshold", "idle_state_bandwidth_threshold"),
    ("rsSTATFULProfileIdleStateTimer", "idle_state_timer")
  ]

  const OosMaps := FieldMaps(FieldMap, EnumMaps)

  /** `/mgmt/device/byip/{dp_ip}/config/rsStatefulProfileTable` */
  function FetchRequest(dp: string): Request
  {
    Request(GET, ConfigPath(dp, ProfileTable), None)
  }

  // ---------------------------------------------------------------------------------------------
  // Reading one value back
  // ---------------------------------------------------------------------------------------------

  /** The inner loop over `ENUM_MAPS`: every map registered under `userKey` reads the value
      back in turn. */
  function Reverse(enumMaps: seq<(string, Table)>, userKey: string, v: Value): Value
    decreases |enumMaps|
  {
    if enumMaps == [] then v
    else
      var n := |enumMaps| - 1;
      var v' := Reverse(enumMaps[..n], userKey, v);
      if enumMaps[n].0 == userKey then StrLookup(enumMaps[n].1, v') else v'
  }

  method ReverseEnum(enumMaps: seq<(string, Table)>, userKey: string, v: Value) returns (value: Value)
    ensures value == Reverse(enumMaps, userKey, v)
  {
    value := v;
    var i := 0;
    while i < |enumMaps|
      invariant 0 <= i <= |enumMaps|
      invariant value == Reverse(enumMaps[..i], userKey, v)
    {
      assert enumMaps[..i + 1][..i] == enumMaps[..i];
      var (enumKey, mapping) := enumMaps[i];
      if userKey == enumKey {
        value := StrLookup(mapping, value);
      }
      i := i + 1;
    }
    assert enumMaps[..i] == enumMaps;
  }

  /** With one map per key, a key with a map reads the value back through it, and a key
      without one keeps the value. */
  lemma {:induction false} ReverseByKey(enumMaps: seq<(string, Table)>, userKey: string, v: Value)
    requires UniqueKeys(enumMaps)
    ensures Reverse(enumMaps, userKey, v) ==
      match Get(enumMaps, userKey)
      case Some(t) => StrLookup(t, v)
      case None => v
    decreases |enumMaps|
  {
    if enumMaps != [] {
      var n := |enumMaps| - 1;
      var init := enumMaps[..n];
      assert UniqueKeys(init) by {
        forall i, j | 0 <= i < j < n ensures init[i].0 != init[j].0 {
          assert init[i] == enumMaps[i] && init[j] == enumMaps[j];
        }
      }
      ReverseByKey(init, userKey, v);
      GetLast(enumMaps, userKey);
      if enumMaps[n].0 == userKey {
        KeysLength(init);
        assert userKey !in Keys(init) by {
          forall i | 0 <= i < n ensures Keys(init)[i] != userKey {
            assert init[i] == enumMaps[i];
          }
        }
        GetSome(init, userKey);
      }
    }
  }

  /** `ENUM_MAPS` has one map per key. */
  lemma EnumMapsByKey()
    ensures UniqueKeys(EnumMaps)
  {
  }

  /** Each enumerated key finds its own table. */
  lemma EnumMapsLookup()
    ensures Get(EnumMaps, "syn_ack_allow") == Some(SwitchWords) && Get(EnumMaps, "packet_report") == Some(SwitchWords)
    ensures Get(EnumMaps, "action") == Some(ActionWords) && Get(EnumMaps, "risk") == Some(RiskWords)
    ensures Get(EnumMaps, "idle_state") == Some(SwitchWords)
    ensures Keys(EnumMaps) == ["syn_ack_allow", "packet_report", "action", "risk", "idle_state"]
  {
    GetAt(EnumMaps, 0, "syn_ack_allow");
    GetAt(EnumMaps, 1, "packet_report");
    GetAt(EnumMaps, 2, "action");
    GetAt(EnumMaps, 3, "risk");
    GetAt(EnumMaps, 4, "idle_state");
    KeysLength(EnumMaps);
  }

  /** The device's risk codes 1 to 3 read back as `low`, `medium` and `high`, whether sent as
      strings or integers. */
  lemma RiskCodes()
    ensures Reverse(EnumMaps, "risk", VStr("1")) == VStr("low")
    ensures Reverse(EnumMaps, "risk", VInt(2)) == VStr("medium")
    ensures Reverse(EnumMaps, "risk", VStr("3")) == VStr("high")
  {
    EnumMapsByKey();
    ReverseByKey(EnumMaps, "risk", VStr("1"));
    ReverseByKey(EnumMaps, "risk", VInt(2));
    ReverseByKey(EnumMaps, "risk", VStr("3"));
    EnumMapsLookup();
    assert IntToString(2) == "2";
    assert Get(RiskWords, "1") == Some("low") && Get(RiskWords, "2") == Some("medium") && Get(RiskWords, "3") == Some("high");
  }

  /** Risk code 0, which the creating module writes for `info`, is reported raw. */
  lemma RiskZeroRaw()
    ensures Reverse(EnumMaps, "risk", VStr("0")) == VStr("0")
    ensures Reverse(EnumMaps, "risk", VInt(0)) == VInt(0)
  {
    EnumMapsByKey();
    ReverseByKey(EnumMaps, "risk", VStr("0"));
    ReverseByKey(EnumMaps, "risk", VInt(0));
    EnumMapsLookup();
    assert IntToString(0) == "0";
    assert Get(RiskWords, "0") == None;
  }

  /** A key without an enum map, such as the thresholds and timers, keeps the device's value. */
  lemma PlainKeys(v: Value)
    ensures Reverse(EnumMaps, "act_threshold", v) == v
    ensures Reverse(EnumMaps, "idle_state_timer", v) == v
  {
    EnumMapsByKey();
    ReverseByKey(EnumMaps, "act_threshold", v);
    ReverseByKey(EnumMaps, "idle_state_timer", v);
    EnumMapsLookup();
    GetSome(EnumMaps, "act_threshold");
    GetSome(EnumMaps, "idle_state_timer");
  }

  // ---------------------------------------------------------------------------------------------
  // The parameters of one profile
  // ---------------------------------------------------------------------------------------------

  /** `mapped_params`: the outer loop over `FIELD_MAP`, skipping columns that are missing or
      `None`. */
  function Params(fieldMap: Table, enumMaps: seq<(string, Table)>, profile: Value): Dict
    decreases |fieldMap|
  {
    if fieldMap == [] then []
    else
      var n := |fieldMap| - 1;
      var params := Params(fieldMap[..n], enumMaps, profile);
      var v := FieldOr(profile, fieldMap[n].0, VNone);
      if v == VNone then params else Put(params, fieldMap[n].1, Reverse(enumMaps, fieldMap[n].1, v))
  }

  method MapParams(fieldMap: Table, enumMaps: seq<(string, Table)>, profile: Value) returns (params: Dict)
    ensures params == Params(fieldMap, enumMaps, profile)
  {
    params := [];
    var i := 0;
    while i < |fieldMap|
      invariant 0 <= i <= |fieldMap|
      invariant params == Params(fieldMap[..i], enumMaps, profile)
    {
      assert fieldMap[..i + 1][..i] == fieldMap[..i];
      var (apiKey, userKey) := fieldMap[i];
      var value := FieldOr(profile, apiKey, VNone);
      if value != VNone {
        value := ReverseEnum(enumMaps, userKey, value);
        params := Put(params, userKey, value);
      }
      i := i + 1;
    }
    assert fieldMap[..i] == fieldMap;
  }

  /** With distinct playbook keys, the parameters hold exactly the keys whose column is set,
      in `FIELD_MAP` order. */
  lemma {:induction false} ParamsKeys(fieldMap: Table, enumMaps: seq<(string, Table)>, profile: Value)
    requires UniqueValues(fieldMap)
    ensures Keys(Params(fieldMap, enumMaps, profile)) == Present(fieldMap, profile)
    decreases |fieldMap|
  {
    if fieldMap != [] {
      var n := |fieldMap| - 1;
      var init := fieldMap[..n];
      assert UniqueValues(init) by {
        forall i, j | 0 <= i < j < n ensures init[i].1 != init[j].1 {
          assert init[i] == fieldMap[i] && init[j] == fieldMap[j];
        }
      }
      ParamsKeys(init, enumMaps, profile);
      var v := FieldOr(profile, fieldMap[n].0, VNone);
      if v != VNone {
        LastDistinct(fieldMap);
        PresentNot(init, profile, fieldMap[n].1);
        KeysPut(Params(init, enumMaps, profile), fieldMap[n].1, Reverse(enumMaps, fieldMap[n].1, v));
      }
    }
  }

  /** With distinct playbook keys, a key whose column is set holds that column read back, and
      a key whose column is missing or `None` is absent. */
  lemma {:induction false} ParamsGet(fieldMap: Table, enumMaps: seq<(string, Table)>, profile: Value, i: nat)
    requires UniqueValues(fieldMap) && i < |fieldMap|
    ensures var v := FieldOr(profile, fieldMap[i].0, VNone);
      Get(Params(fieldMap, enumMaps, profile), fieldMap[i].1) ==
        if v == VNone then None else Some(Reverse(enumMaps, fieldMap[i].1, v))
    decreases |fieldMap|
  {
    var n := |fieldMap| - 1;
    var init := fieldMap[..n];
    var v := FieldOr(profile, fieldMap[n].0, VNone);
    if v != VNone {
      GetPut(Params(init, enumMaps, profile), fieldMap[n].1, Reverse(enumMaps, fieldMap[n].1, v), fieldMap[i].1);
    }
    if i < n {
      assert UniqueValues(init) by {
        forall a, b | 0 <= a < b < n ensures init[a].1 != init[b].1 {
          assert init[a] == fieldMap[a] && init[b] == fieldMap[b];
        }
      }
      assert init[i] == fieldMap[i];
      ParamsGet(init, enumMaps, profile, i);
    } else {
      LastDistinct(fieldMap);
      ParamsKeys(init, enumMaps, profile);
      PresentNot(init, profile, fieldMap[n].1);
      GetSome(Params(init, enumMaps, profile), fieldMap[n].1);
    }
  }

  /** `FIELD_MAP` names each playbook key once. */
  lemma FieldMapDistinct()
    ensures UniqueValues(FieldMap)
  {
  }

  // ---------------------------------------------------------------------------------------------
  // The profiles
  // ---------------------------------------------------------------------------------------------

  /** One profile as reported: its name (`None` when it has none) and its parameters. */
  function Output(fieldMap: Table, enumMaps: seq<(string, Table)>, profile: Value): (Value, Value)
  {
    (FieldOr(profile, NameField, VNone), VDict(Params(fieldMap, enumMaps, profile)))
  }

  /** `oos_profiles`: one output per row, or the exception a row that is not a dict raises. */
  function Outputs(fieldMap: Table, enumMaps: seq<(string, Table)>, rows: seq<Value>): Result<seq<(Value, Value)>>
    decreases |rows|
  {
    if rows == [] then Ok([])
    else
      var n := |rows| - 1;
      match Outputs(fieldMap, enumMaps, rows[..n])
      case Err(m) => Err(m)
      case Ok(out) => if !rows[n].VDict? then Err(NoGet) else Ok(out + [Output(fieldMap, enumMaps, rows[n])])
  }

  method MapProfiles(fieldMap: Table, enumMaps: seq<(string, Table)>, rows: seq<Value>) returns (r: Result<seq<(Value, Value)>>)
    ensures r == Outputs(fieldMap, enumMaps, rows)
  {
    var out: seq<(Value, Value)> := [];
    var i := 0;
    while i < |rows|
      invariant 0 <= i <= |rows|
      invariant Outputs(fieldMap, enumMaps, rows[..i]) == Ok(out)
    {
      assert rows[..i + 1][..i] == rows[..i];
      var profile := rows[i];
      if !profile.VDict? {
        OutputsStaysErr(fieldMap, enumMaps, rows, i + 1);
        return Err(NoGet);
      }
      var params := MapParams(fieldMap, enumMaps, profile);
      out := out + [(FieldOr(profile, NameField, VNone), VDict(params))];
      i := i + 1;
    }
    assert rows[..i] == rows;
    return Ok(out);
  }

  lemma {:induction false} OutputsStaysErr(fieldMap: Table, enumMaps: seq<(string, Table)>, rows: seq<Value>, i: nat)
    requires i <= |rows| && Outputs(fieldMap, enumMaps, rows[..i]).Err?
    ensures Outputs(fieldMap, enumMaps, rows) == Outputs(fieldMap, enumMaps, rows[..i])
    decreases |rows| - i
  {
    if i < |rows| {
      assert rows[..i + 1][..i] == rows[..i];
      OutputsStaysErr(fieldMap, enumMaps, rows, i + 1);
    } else {
      assert rows[..i] == rows;
    }
  }

  /** Mapping fails iff some row is not a dict; otherwise there is one output per row, in row
      order, and nothing is deduplicated. */
  lemma {:induction false} OutputsPerRow(fieldMap: Table, enumMaps: seq<(string, Table)>, rows: seq<Value>)
    ensures Outputs(fieldMap, enumMaps, rows).Err? <==> exists i :: 0 <= i < |rows| && !rows[i].VDict?
    ensures Outputs(fieldMap, enumMaps, rows).Ok? ==>
      var out := Outputs(fieldMap, enumMaps, rows).value;
      |out| == |rows| && forall i :: 0 <= i < |rows| ==> out[i] == Output(fieldMap, enumMaps, rows[i])
    decreases |rows|
  {
    if rows != [] {
      var n := |rows| - 1;
      OutputsPerRow(fieldMap, enumMaps, rows[..n]);
      assert forall i :: 0 <= i < n ==> rows[..n][i] == rows[i];
    }
  }

  // ---------------------------------------------------------------------------------------------
  // The module run
  // ---------------------------------------------------------------------------------------------

  /** `debug_info`: the raw row count, and whether (and with which names) the filter was
      applied, with the profile counts before and after it. */
  datatype Debug = Debug(profilesRawCount: Option<nat>, filterApplied: Option<bool>,
                         filterNames: Option<seq<Value>>, filteredCount: Option<nat>, totalCount: Option<nat>)

  /** How the module ends: `exit_json` with the profiles and `debug_info`, `fail_json` with the
      exception's message, or, when the handler itself raises, with that `error` while handling
      the exception whose message is `context`, reporting nothing. */
  datatype RunResult =
    | Exited(profiles: seq<Value>, debug: Debug, sent: seq<Request>)
    | Failed(msg: string, debug: Debug, sent: seq<Request>)
    | Crashed(error: string, context: string, sent: seq<Request>)

  /** The dict reported for one profile. */
  function ProfileValue(o: (Value, Value)): Value
  {
    VDict([("name", o.0), ("params", o.1)])
  }

  function ProfileValues(outs: seq<(Value, Value)>): seq<Value>
  {
    seq(|outs|, i requires 0 <= i < |outs| => ProfileValue(outs[i]))
  }

  /** The module run as the handler means it, with the maps it reads the rows back through. */
  function Intended(m: FieldMaps, dp: string, names: seq<Value>, net: Net): RunResult
  {
    var sent := [FetchRequest(dp)];
    var debug0 := Debug(None, None, None, None, None);
    match TableRows(net(0), ProfileTable)
    case Err(m) => Failed(m, debug0, sent)
    case Ok(rows) =>
      var debug := debug0.(profilesRawCount := Some(|rows|));
      match Outputs(m.fields, m.enums, rows)
      case Err(m) => Failed(m, debug, sent)
      case Ok(outs) =>
        if names != [] then
          var kept := Listed(outs, names);
          Exited(ProfileValues(kept),
                 debug.(filterApplied := Some(true), filterNames := Some(names), filteredCount := Some(|kept|),
                        totalCount := Some(|outs|)), sent)
        else
          Exited(ProfileValues(outs), debug.(filterApplied := Some(false), totalCount := Some(|outs|)), sent)
  }

  /** The module run as written: `result` already holds `debug_info`, so the handler's
      `fail_json(msg=str(e), debug_info=debug_info, **result)` raises a TypeError while handling
      the exception, and the module ends with that instead of failing with the message. */
  function Run(m: FieldMaps, dp: string, names: seq<Value>, net: Net): RunResult
  {
    var r := Intended(m, dp, names, net);
    if r.Failed? then Crashed(DebugInfoTwice, r.msg, r.sent) else r
  }

  method RunModule(dp: string, names: seq<Value>, net: Net) returns (r: RunResult)
    ensures r == Run(OosMaps, dp, names, net)
  {
    var sent := [FetchRequest(dp)];
    var debug := Debug(None, None, None, None, None);
    var rows := TableRows(net(0), ProfileTable);
    if rows.Err? {
      return Crashed(DebugInfoTwice, rows.msg, sent);
    }
    debug := debug.(profilesRawCount := Some(|rows.value|));
    var outs := MapProfiles(FieldMap, EnumMaps, rows.value);
    if outs.Err? {
      return Crashed(DebugInfoTwice, outs.msg, sent);
    }
    if names != [] {
      var kept := Listed(outs.value, names);
      debug := debug.(filterApplied := Some(true), filterNames := Some(names), filteredCount := Some(|kept|),
                      totalCount := Some(|outs.value|));
      return Exited(ProfileValues(kept), debug, sent);
    }
    debug := debug.(filterApplied := Some(false), totalCount := Some(|outs.value|));
    return Exited(ProfileValues(outs.value), debug, sent);
  }

  /** One GET is sent, and a run is reported iff the table is read and every row is a dict. */
  lemma RunOutcome(m: FieldMaps, dp: string, names: seq<Value>, net: Net)
    ensures Run(m, dp, names, net).sent == [FetchRequest(dp)]
    ensures var r := Run(m, dp, names, net);
      r.Exited? <==>
        TableRows(net(0), ProfileTable).Ok? &&
        forall i :: 0 <= i < |TableRows(net(0), ProfileTable).value| ==> TableRows(net(0), ProfileTable).value[i].VDict?
  {
    if TableRows(net(0), ProfileTable).Ok? {
      OutputsPerRow(m.fields, m.enums, TableRows(net(0), ProfileTable).value);
    }
  }

  /** A reported run has one output per row, in row order; it reports those whose name is
      listed (every one when none is, `Grouping.ListedKeeps`), counts all rows as the total and, when filtering, the
      kept ones. */
  lemma RunReport(m: FieldMaps, dp: string, names: seq<Value>, net: Net, rows: seq<Value>)
    requires TableRows(net(0), ProfileTable) == Ok(rows) && Run(m, dp, names, net).Exited?
    ensures Outputs(m.fields, m.enums, rows).Ok?
    ensures var r := Run(m, dp, names, net);
      var outs := Outputs(m.fields, m.enums, rows).value;
      |outs| == |rows| && (forall i :: 0 <= i < |rows| ==> outs[i] == Output(m.fields, m.enums, rows[i])) &&
      r.profiles == ProfileValues(Listed(outs, names)) &&
      r.debug.profilesRawCount == Some(|rows|) && r.debug.totalCount == Some(|rows|) &&
      r.debug.filterApplied == Some(names != []) &&
      r.debug.filteredCount == (if names != [] then Some(|Listed(outs, names)|) else None)
  {
    OutputsPerRow(m.fields, m.enums, rows);
  }

  /** The message of the exception that stops a run: the table's, or that of the first row that
      is not a dict. */
  function StopMessage(m: FieldMaps, net: Net): string
  {
    var rows := TableRows(net(0), ProfileTable);
    if rows.Err? then rows.msg
    else if Outputs(m.fields, m.enums, rows.value).Err? then Outputs(m.fields, m.enums, rows.value).msg
    else ""
  }

  /** As meant, a run that is not reported fails with the message of the exception that stopped
      it, after the one GET, with the raw row count in `debug_info` once the table was read. */
  lemma IntendedFails(m: FieldMaps, dp: string, names: seq<Value>, net: Net)
    requires !Intended(m, dp, names, net).Exited?
    ensures var r := Intended(m, dp, names, net);
      r.Failed? && r.msg == StopMessage(m, net) && r.sent == [FetchRequest(dp)] &&
      r.debug.profilesRawCount == (if TableRows(net(0), ProfileTable).Ok? then Some(|TableRows(net(0), ProfileTable).value|) else None)
  {
  }

  /** As written, a run that is not reported never fails with a message: after the same GET it
      ends with the handler's TypeError, raised while handling the exception that stopped it; a
      reported run is the one meant. */
  lemma RunCrashes(m: FieldMaps, dp: string, names: seq<Value>, net: Net)
    ensures !Run(m, dp, names, net).Failed?
    ensures Run(m, dp, names, net).Exited? ==> Run(m, dp, names, net) == Intended(m, dp, names, net)
    ensures !Run(m, dp, names, net).Exited? ==>
      Run(m, dp, names, net) == Crashed(DebugInfoTwice, StopMessage(m, net), [FetchRequest(dp)])
  {
    if !Intended(m, dp, names, net).Exited? {
      IntendedFails(m, dp, names, net);
    }
  }
}

/** Out-of-state profile creation (plugins/modules/create_oos_profile.py): the mapper from
    playbook words to device codes, the POST per profile, and the preview plan.  A created
    profile read back by the OOS reader gives back what was asked for, except risk `info`. */
module CreateOosProfile {
  import opened Py
  import opened Http
  import opened Tables
  import GetOosProfile

  const ProfileTable := "rsStatefulProfileTable"
  const NameField := "rsSTATFULProfileName"
  const InvalidPrefix := "Invalid enum value '"

  /** `ENUM_MAPS`: per playbook key, its words and their device codes. */
  const EnumCodes: seq<(string, Table)> := [
    ("syn_ack_allow", SwitchCodes),
    ("packet_report", SwitchCodes),
    ("action", ActionCodes),
    ("risk", RiskLevelCodes),
    ("idle_state", SwitchCodes)
  ]

  const SwitchCodes: Table := [("enable", "1"), ("disable", "2")]
  const ActionCodes: Table := [("report_only", "0"), ("block_and_report", "1")]
  const RiskLevelCodes: Table := [("info", "0"), ("low", "1"), ("medium", "2"), ("high", "3")]

  /** `FIELD_MAP`: playbook key to device column. */
  const FieldMap: Table := [
    ("act_threshold", "rsSTATFULProfileactThreshold"),
    ("term_threshold", "rsSTATFULProfiletermThreshold"),
    ("syn_ack_allow", "rsSTATFULProfilesynAckAllow"),
    ("packet_report", "rsSTATFULProfilePacketReportStatus"),
    ("action", "rsSTATFULProfileAction"),
    ("risk", "rsSTATFULProfileRisk"),
    ("idle_state", "rsSTATFULProfileEnableIdleState"),
    ("idle_state_bandwidth_threshold", "rsSTATFULProfileIdleStateBandwidthThreshold"),
    ("idle_state_timer", "rsSTATFULProfileIdleStateTimer")
  ]

  const CreateMaps := FieldMaps(FieldMap, EnumCodes)

  // ---------------------------------------------------------------------------------------------
  // The mapper
  // ---------------------------------------------------------------------------------------------

  /** `map_oos_profile_parameters` with the maps as a parameter. */
  function MapParams(m: FieldMaps, params: Dict): Result<Dict>
  {
    Translate(params, CreateStepOf(m, InvalidPrefix))
  }

  method MapOosProfileParameters(m: FieldMaps, params: Dict) returns (r: Result<Dict>)
    ensures r == MapParams(m, params)
  {
    r := TranslateLoop(params, CreateStepOf(m, InvalidPrefix));
  }

  /** Each playbook key has one column, and no column repeats or is the name column. */
  lemma FieldMapDistinct()
    ensures UniqueKeys(FieldMap) && UniqueValues(FieldMap)
    ensures forall i :: 0 <= i < |FieldMap| ==> FieldMap[i].1 != NameField
  {
  }

  /** Each enumerated key finds its own table. */
  lemma EnumCodesLookup()
    ensures Get(EnumCodes, "syn_ack_allow") == Some(SwitchCodes) && Get(EnumCodes, "packet_report") == Some(SwitchCodes)
    ensures Get(EnumCodes, "action") == Some(ActionCodes) && Get(EnumCodes, "risk") == Some(RiskLevelCodes)
    ensures Get(EnumCodes, "idle_state") == Some(SwitchCodes)
    ensures Keys(EnumCodes) == ["syn_ack_allow", "packet_report", "action", "risk", "idle_state"]
  {
    GetAt(EnumCodes, 0, "syn_ack_allow");
    GetAt(EnumCodes, 1, "packet_report");
    GetAt(EnumCodes, 2, "action");
    GetAt(EnumCodes, 3, "risk");
    GetAt(EnumCodes, 4, "idle_state");
    KeysLength(EnumCodes);
  }

  /** How a risk value is mapped: looked up lowercased in the risk table. */
  lemma RiskStep(v: Value)
    ensures Get(RiskLevelCodes, Lower(Str(v))).Some? ==>
      CreateStep(CreateMaps, InvalidPrefix, "risk", v) == Emit("rsSTATFULProfileRisk", VStr(Get(RiskLevelCodes, Lower(Str(v))).value))
    ensures Get(RiskLevelCodes, Lower(Str(v))).None? ==> CreateStep(CreateMaps, InvalidPrefix, "risk", v).Reject?
  {
    GetAt(FieldMap, 5, "risk");
    EnumCodesLookup();
  }

  /** Risk words are matched whatever their case: `info`, `low`, `medium` and `high` become
      codes 0 to 3, and any other word is rejected. */
  lemma RiskCodes(v: Value)
    ensures Lower(Str(v)) == "info" ==> CreateStep(CreateMaps, InvalidPrefix, "risk", v) == Emit("rsSTATFULProfileRisk", VStr("0"))
    ensures Lower(Str(v)) == "low" ==> CreateStep(CreateMaps, InvalidPrefix, "risk", v) == Emit("rsSTATFULProfileRisk", VStr("1"))
    ensures Lower(Str(v)) == "medium" ==> CreateStep(CreateMaps, InvalidPrefix, "risk", v) == Emit("rsSTATFULProfileRisk", VStr("2"))
    ensures Lower(Str(v)) == "high" ==> CreateStep(CreateMaps, InvalidPrefix, "risk", v) == Emit("rsSTATFULProfileRisk", VStr("3"))
    ensures Lower(Str(v)) !in ["info", "low", "medium", "high"] ==> CreateStep(CreateMaps, InvalidPrefix, "risk", v).Reject?
  {
    RiskStep(v);
    assert Get(RiskLevelCodes, "info") == Some("0");
    assert Get(RiskLevelCodes, "low") == Some("1");
    assert Get(RiskLevelCodes, "medium") == Some("2");
    assert Get(RiskLevelCodes, "high") == Some("3");
    GetSome(RiskLevelCodes, Lower(Str(v)));
    KeysLength(RiskLevelCodes);
  }

  /** An unknown key is dropped, and a known key without an enum table (the thresholds and
      timers) is sent as its string. */
  lemma PlainValues(key: string, v: Value)
    ensures Get(FieldMap, key).None? ==> CreateStep(CreateMaps, InvalidPrefix, key, v) == Skip
    ensures Get(FieldMap, key).Some? && key !in EnumKeys ==>
      CreateStep(CreateMaps, InvalidPrefix, key, v) == Emit(Get(FieldMap, key).value, VStr(Str(v)))
  {
    EnumCodesLookup();
    GetSome(EnumCodes, key);
  }

  // ---------------------------------------------------------------------------------------------
  // Reading a created profile back
  // ---------------------------------------------------------------------------------------------

  /** The request body: the name, then the mapped parameters. */
  function Body(name: Value, api: Dict): Dict
  {
    Update([(NameField, name)], api)
  }

  /** What the OOS reader reports for the body's row. */
  function ReadBack(body: Dict): Dict
  {
    GetOosProfile.Params(GetOosProfile.FieldMap, GetOosProfile.EnumMaps, VDict(body))
  }

  const EnumKeys: seq<string> := ["syn_ack_allow", "packet_report", "action", "risk", "idle_state"]

  /** The reference for a round trip: an enumerated word comes back lowercased, except risk
      `info`, whose code `0` the reader has no word for; any other value comes back as its
      string. */
  function Expected(key: string, value: Value): Value
  {
    if key !in EnumKeys then VStr(Str(value))
    else if key == "risk" && Lower(Str(value)) == "info" then VStr("0")
    else VStr(Lower(Str(value)))
  }

  /** The body names the profile and carries exactly the mapped parameters. */
  lemma BodyContents(name: Value, api: Dict, k: string)
    requires UniqueKeys(api) && NameField !in Keys(api)
    ensures Get(Body(name, api), k) == if k == NameField then Some(name) else Get(api, k)
  {
    GetUpdate([(NameField, name)], api, k);
    GetSome(api, NameField);
  }

  /** The reader's column map is the creator's, turned around. */
  lemma FieldMapsMirror()
    ensures |GetOosProfile.FieldMap| == |FieldMap|
    ensures forall j :: 0 <= j < |FieldMap| ==> GetOosProfile.FieldMap[j] == (FieldMap[j].1, FieldMap[j].0)
  {
  }

  /** The switch and action words read back as themselves. */
  lemma SwitchAndActionInvert()
    ensures WordsInvert(SwitchCodes, GetOosProfile.SwitchWords)
    ensures WordsInvert(ActionCodes, GetOosProfile.ActionWords)
  {
  }

  /** Every risk word but `info` reads back as itself; `info` has no word for its code. */
  lemma RiskLevelsInvert(w: string)
    requires Get(RiskLevelCodes, w).Some?
    ensures Get(GetOosProfile.RiskWords, Get(RiskLevelCodes, w).value) == if w == "info" then None else Some(w)
  {
  }

  /** An enumerated word's code reads back as the word, except risk `info`. */
  lemma CodeReadsBack(key: string, w: string)
    requires Get(EnumCodes, key).Some? && Get(Get(EnumCodes, key).value, w).Some?
    ensures key in EnumKeys
    ensures GetOosProfile.Reverse(GetOosProfile.EnumMaps, key, VStr(Get(Get(EnumCodes, key).value, w).value)) ==
      if key == "risk" && w == "info" then VStr("0") else VStr(w)
  {
    var c := Get(Get(EnumCodes, key).value, w).value;
    EnumCodesLookup();
    GetSome(EnumCodes, key);
    GetOosProfile.EnumMapsByKey();
    GetOosProfile.EnumMapsLookup();
    GetOosProfile.ReverseByKey(GetOosProfile.EnumMaps, key, VStr(c));
    if key == "risk" {
      RiskLevelsInvert(w);
    } else {
      SwitchAndActionInvert();
    }
  }

  /** A key without an enum table is read back unchanged. */
  lemma PlainReadsBack(key: string, v: Value)
    requires Get(EnumCodes, key).None?
    ensures key !in EnumKeys
    ensures GetOosProfile.Reverse(GetOosProfile.EnumMaps, key, v) == v
  {
    EnumCodesLookup();
    GetSome(EnumCodes, key);
    GetOosProfile.EnumMapsByKey();
    GetOosProfile.EnumMapsLookup();
    GetSome(GetOosProfile.EnumMaps, key);
    GetOosProfile.ReverseByKey(GetOosProfile.EnumMaps, key, v);
  }

  /** What the mapper sends for a known key: its code when enumerated, its string otherwise. */
  function Sent(m: FieldMaps, key: string, value: Value): Value
  {
    match Get(m.enums, key)
    case None => VStr(Str(value))
    case Some(codes) => match Get(codes, Lower(Str(value))) case Some(c) => VStr(c) case None => value
  }

  /** With a reader whose column map mirrors the creator's, each known key of an accepted
      profile is read back from the column it was sent in. */
  lemma {:induction false} ReadsBackThrough(m: FieldMaps, readFields: Table, readEnums: seq<(string, Table)>,
                                            name: Value, params: Dict, i: nat)
    requires UniqueKeys(m.fields) && UniqueValues(m.fields)
    requires forall j :: 0 <= j < |m.fields| ==> m.fields[j].1 != NameField
    requires |readFields| == |m.fields| && forall j :: 0 <= j < |m.fields| ==> readFields[j] == (m.fields[j].1, m.fields[j].0)
    requires UniqueKeys(params) && MapParams(m, params).Ok? && i < |params| && Get(m.fields, params[i].0).Some?
    ensures Get(GetOosProfile.Params(readFields, readEnums, VDict(Body(name, MapParams(m, params).value))), params[i].0) ==
      Some(GetOosProfile.Reverse(readEnums, params[i].0, Sent(m, params[i].0, params[i].1)))
  {
    var (u, v) := params[i];
    var api := MapParams(m, params).value;
    GetSome(m.fields, u);
    var a := Get(m.fields, u).value;
    var j :| 0 <= j < |m.fields| && m.fields[j] == (u, a);
    CreateValue(m, InvalidPrefix, params, i);
    CreateContents(m, InvalidPrefix, params);
    assert NameField !in Keys(api) by {
      if NameField in Keys(api) {
        var l :| 0 <= l < |params| && Get(m.fields, params[l].0) == Some(NameField);
        GetSome(m.fields, params[l].0);
        assert false;
      }
    }
    BodyContents(name, api, a);
    assert UniqueValues(readFields) by {
      forall x, y | 0 <= x < y < |readFields| ensures readFields[x].1 != readFields[y].1 {
        assert readFields[x].1 == m.fields[x].0 && readFields[y].1 == m.fields[y].0;
      }
    }
    assert readFields[j] == (a, u);
    GetOosProfile.ParamsGet(readFields, readEnums, VDict(Body(name, api)), j);
  }

  /** Round trip: when a profile is accepted, the OOS reader reports each known key it set as
      `Expected` says. */
  lemma RoundTrip(name: Value, params: Dict, i: nat)
    requires UniqueKeys(params) && MapParams(CreateMaps, params).Ok?
    requires i < |params| && params[i].0 in Keys(FieldMap)
    ensures Get(ReadBack(Body(name, MapParams(CreateMaps, params).value)), params[i].0) == Some(Expected(params[i].0, params[i].1))
  {
    var (u, v) := params[i];
    FieldMapDistinct();
    FieldMapsMirror();
    GetSome(FieldMap, u);
    ReadsBackThrough(CreateMaps, GetOosProfile.FieldMap, GetOosProfile.EnumMaps, name, params, i);
    CreateContents(CreateMaps, InvalidPrefix, params);
    match Get(EnumCodes, u)
    case None =>
      PlainReadsBack(u, VStr(Str(v)));
    case Some(codes) =>
      assert Get(codes, Lower(Str(v))).Some?;
      CodeReadsBack(u, Lower(Str(v)));
  }

  // ---------------------------------------------------------------------------------------------
  // The batch loop
  // ---------------------------------------------------------------------------------------------

  /** An entry of `created_profiles`: the name and the parameters applied. */
  datatype Created = Created(name: Value, applied: Dict)

  datatype Batch = Batch(changed: bool, created: seq<Created>, errors: seq<string>, sent: seq<Request>)

  const NoBatch := Batch(false, [], [], [])

  /** `/mgmt/device/byip/{dp_ip}/config/rsStatefulProfileTable/{profile_name}` */
  function ProfilePath(dp: string, name: Value): string
  {
    ConfigPath(dp, ProfileTable + "/" + Str(name))
  }

  function CreateRequest(dp: string, name: Value, api: Dict): Request
  {
    Request(POST, ProfilePath(dp, name), Some(VDict(Body(name, api))))
  }

  /** One profile of the loop; `Err` when an exception escapes to the module's outer handler
      (parameters that are not a dict have no `items`). */
  function ProfileStep(m: FieldMaps, b: Batch, profile: Dict, dp: string, net: Net): Result<Batch>
  {
    var name := GetOr(profile, "name", VNone);
    if !Truthy(name) then Ok(b.(errors := b.errors + ["Profile name is required (use 'name' field)"]))
    else
      var params := GetOr(profile, "params", VDict([]));
      if !params.VDict? then Err(NoItems)
      else match MapParams(m, params.entries)
        case Err(e) => Ok(b.(errors := b.errors + ["Validation failed for profile " + Str(name) + ": " + e]))
        case Ok(api) =>
          var b1 := b.(sent := b.sent + [CreateRequest(dp, name, api)]);
          match net(|b.sent|)
          case Raised(e) => Ok(b1.(errors := b1.errors + ["Error creating OOS profile " + Str(name) + ": " + e]))
          case Returned(r) =>
            if r.status == 200 || r.status == 201 then
              Ok(b1.(changed := true, created := b1.created + [Created(name, api)]))
            else
              Ok(b1.(errors := b1.errors + ["Failed to create OOS profile " + Str(name) + ": HTTP " + IntToString(r.status) + " - " + r.text]))
  }

  function RunBatch(m: FieldMaps, profiles: seq<Dict>, dp: string, net: Net): Result<Batch>
    decreases |profiles|
  {
    if profiles == [] then Ok(NoBatch)
    else match RunBatch(m, profiles[..|profiles| - 1], dp, net)
      case Err(e) => Err(e)
      case Ok(b) => ProfileStep(m, b, profiles[|profiles| - 1], dp, net)
  }

  lemma {:induction false} RunBatchStaysErr(m: FieldMaps, profiles: seq<Dict>, dp: string, net: Net, i: nat)
    requires i <= |profiles| && RunBatch(m, profiles[..i], dp, net).Err?
    ensures RunBatch(m, profiles, dp, net) == RunBatch(m, profiles[..i], dp, net)
    decreases |profiles| - i
  {
    if i < |profiles| {
      assert profiles[..i + 1][..i] == profiles[..i];
      RunBatchStaysErr(m, profiles, dp, net, i + 1);
    } else {
      assert profiles[..i] == profiles;
    }
  }

  method RunBatchLoop(m: FieldMaps, profiles: seq<Dict>, dp: string, net: Net) returns (r: Result<Batch>)
    ensures r == RunBatch(m, profiles, dp, net)
  {
    var b := NoBatch;
    var i := 0;
    while i < |profiles|
      invariant 0 <= i <= |profiles|
      invariant RunBatch(m, profiles[..i], dp, net) == Ok(b)
    {
      assert profiles[..i + 1][..i] == profiles[..i];
      var step := ProfileStep(m, b, profiles[i], dp, net);
      if step.Err? {
        RunBatchStaysErr(m, profiles, dp, net, i + 1);
        return step;
      }
      b := step.value;
      i := i + 1;
    }
    assert profiles[..i] == profiles;
    return Ok(b);
  }

  /** One profile: without a name or with rejected parameters it adds one error and sends
      nothing; otherwise it sends exactly its create request and is recorded as created iff the
      reply is 200 or 201, and as one error otherwise. */
  lemma ProfileStepOutcome(m: FieldMaps, b: Batch, profile: Dict, dp: string, net: Net)
    requires ProfileStep(m, b, profile, dp, net).Ok?
    ensures var s := ProfileStep(m, b, profile, dp, net).value;
      var name, params := GetOr(profile, "name", VNone), GetOr(profile, "params", VDict([]));
      if !Truthy(name) || MapParams(m, params.entries).Err? then
        s == b.(errors := s.errors) && |s.errors| == |b.errors| + 1
      else
        var api := MapParams(m, params.entries).value;
        s.sent == b.sent + [CreateRequest(dp, name, api)] &&
        (if net(|b.sent|).Returned? && net(|b.sent|).reply.status in {200, 201} then
           s.created == b.created + [Created(name, api)] && s.errors == b.errors && s.changed
         else s.created == b.created && |s.errors| == |b.errors| + 1 && s.changed == b.changed)
  {
  }

  /** Every profile is either created or adds exactly one error; `changed` is set exactly when
      some profile was created; at most one request is sent per profile. */
  lemma {:induction false} BatchAccounts(m: FieldMaps, profiles: seq<Dict>, dp: string, net: Net)
    requires RunBatch(m, profiles, dp, net).Ok?
    ensures var b := RunBatch(m, profiles, dp, net).value;
      |b.created| + |b.errors| == |profiles| && (b.changed <==> b.created != []) && |b.sent| <= |profiles|
    decreases |profiles|
  {
    if profiles != [] {
      var init := profiles[..|profiles| - 1];
      BatchAccounts(m, init, dp, net);
      ProfileStepOutcome(m, RunBatch(m, init, dp, net).value, profiles[|profiles| - 1], dp, net);
    }
  }

  // ---------------------------------------------------------------------------------------------
  // The module run
  // ---------------------------------------------------------------------------------------------

  datatype Planned = Planned(profileName: Value, params: Value)

  datatype Summary = Summary(successful: nat, attempted: nat, errorsCount: nat)

  datatype RunResult =
    | Preview(changed: bool, planned: seq<Planned>)
    | Applied(failed: bool, msg: string, changed: bool, batch: Batch, summary: Summary)
    | Crashed(msg: string)

  /** The preview's `planned_operations`. */
  function Plan(profiles: seq<Dict>): seq<Planned>
  {
    seq(|profiles|, i requires 0 <= i < |profiles| =>
      Planned(GetOr(profiles[i], "name", VStr("unnamed_profile")), GetOr(profiles[i], "params", VDict([]))))
  }

  function Finish(b: Batch, attempted: nat): RunResult
  {
    var n := |b.errors|;
    Applied(n != 0, if n != 0 then "OOS profile creation completed with " + IntToString(n) + " error(s)." else "",
            b.changed, b, Summary(|b.created|, attempted, n))
  }

  function Run(m: FieldMaps, profiles: seq<Dict>, checkMode: bool, dp: string, net: Net): RunResult
  {
    if checkMode then Preview(profiles != [], Plan(profiles))
    else match RunBatch(m, profiles, dp, net)
      case Err(e) => Crashed("OOS profile creation failed: " + e)
      case Ok(b) => Finish(b, |profiles|)
  }

  method RunModule(profiles: seq<Dict>, checkMode: bool, dp: string, net: Net) returns (r: RunResult)
    ensures r == Run(CreateMaps, profiles, checkMode, dp, net)
  {
    if checkMode {
      return Preview(profiles != [], Plan(profiles));
    }
    var b := RunBatchLoop(CreateMaps, profiles, dp, net);
    if b.Err? {
      return Crashed("OOS profile creation failed: " + b.msg);
    }
    r := Finish(b.value, |profiles|);
  }

  /** Preview sends nothing and reports a change iff profiles are listed, one planned entry
      each; an applied run fails iff some error was recorded, reports a change iff some profile
      was created, and its successes and errors add up to the profiles attempted. */
  lemma RunOutcome(m: FieldMaps, profiles: seq<Dict>, checkMode: bool, dp: string, net: Net)
    ensures var r := Run(m, profiles, checkMode, dp, net);
      (checkMode ==> r.Preview? && (r.changed <==> profiles != []) && |r.planned| == |profiles|) &&
      (r.Applied? ==> (r.failed <==> r.batch.errors != []) && (r.changed <==> r.batch.created != []) &&
                      r.summary.successful + r.summary.errorsCount == r.summary.attempted == |profiles| &&
                      |r.batch.sent| <= |profiles|)
  {
    if !checkMode && RunBatch(m, profiles, dp, net).Ok? {
      BatchAccounts(m, profiles, dp, net);
    }
  }
}

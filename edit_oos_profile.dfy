/** Out-of-state (stateful) profile editing from display names
    (plugins/modules/edit_oos_profile.py): display-name keys are renamed to device columns,
    enumerated words that match exactly become integer codes, and the profile is PUT under its
    name; a status other than 200 or 201 fails with the reply. */
module EditOosProfile {
  import opened Py
  import opened Http
  import opened Tables
  import opened SingleProfile
  import GetOosProfile

  const ProfileTable := "rsStatefulProfileTable"
  const NameField := "rsSTATFULProfileName"

  const SwitchCodes: Codes := [("enable", 1), ("disable", 2)]
  const ActionCodes: Codes := [("report", 0), ("block & report", 1)]

  /** `PARAM_MAP`: per display name, its words and their integer codes. */
  const ParamMap: seq<(string, Codes)> := [
    ("Syn-Ack Allow", SwitchCodes),
    ("Packet Trace Status", SwitchCodes),
    ("Packet Report Status", SwitchCodes),
    ("Action", ActionCodes)
  ]

  /** `FIELD_MAP`: display name to device column. */
  const FieldMap: Table := [
    ("Act Threshold", "rsSTATFULProfileactThreshold"),
    ("Term Threshold", "rsSTATFULProfiletermThreshold"),
    ("Syn-Ack Allow", "rsSTATFULProfilesynAckAllow"),
    ("Packet Trace Status", "rsSTATFULProfilePacketTraceStatus"),
    ("Packet Report Status", "rsSTATFULProfilePacketReportStatus"),
    ("Action", "rsSTATFULProfileAction")
  ]

  const EditMaps := IntMaps(FieldMap, ParamMap)

  // ---------------------------------------------------------------------------------------------
  // The translation
  // ---------------------------------------------------------------------------------------------

  /** One pair of the `translate_params` comprehension: the key is renamed when known; an
      enumerated value is looked up as it is (so only a string can match, and a list or dict
      raises as an unhashable key) and falls back to itself; any other value is kept. */
  function ExactStep(m: IntMaps, key: string, value: Value): Emit
  {
    var api := GetOr(m.fields, key, key);
    match Get(m.enums, key)
    case None => Emit(api, value)
    case Some(codes) =>
      if !Hashable(value) then Reject(Unhashable)
      else
        match value
        case VStr(s) => (match Get(codes, s) case Some(c) => Emit(api, VInt(c)) case None => Emit(api, value))
        case _ => Emit(api, value)
  }

  function ExactStepOf(m: IntMaps): (string, Value) -> Emit
  {
    (key, value) => ExactStep(m, key, value)
  }

  /** An enumerated key whose value is a list or a dict. */
  predicate Unhashed(m: IntMaps, key: string, value: Value)
  {
    Get(m.enums, key).Some? && !Hashable(value)
  }

  /** The comprehension raises exactly when some enumerated value is a list or a dict.
      Otherwise it holds exactly the renamed keys, and a key that is not enumerated keeps the
      value of the last pair renamed to it. */
  lemma TranslateOutcome(m: IntMaps, params: Dict)
    ensures Translate(params, ExactStepOf(m)).Err? <==>
      exists i :: 0 <= i < |params| && Unhashed(m, params[i].0, params[i].1)
    ensures Translate(params, ExactStepOf(m)).Err? ==> Translate(params, ExactStepOf(m)).msg == Unhashable
    ensures Translate(params, ExactStepOf(m)).Ok? ==>
      forall k :: k in Keys(Translate(params, ExactStepOf(m)).value) <==>
        exists i :: 0 <= i < |params| && GetOr(m.fields, params[i].0, params[i].0) == k
  {
    var step := ExactStepOf(m);
    forall i | 0 <= i < |params|
      ensures StepAt(params, step, i).Reject? <==> Unhashed(m, params[i].0, params[i].1)
      ensures StepAt(params, step, i).Reject? ==> StepAt(params, step, i).msg == Unhashable
      ensures StepAt(params, step, i).Emit? ==> StepAt(params, step, i).key == GetOr(m.fields, params[i].0, params[i].0)
    {
    }
    TranslateRaises(params, step);
    if Translate(params, step).Ok? {
      TranslateContents(params, step);
    }
  }

  /** Each display name of `FIELD_MAP` is renamed to its own column. */
  lemma ColumnOf(i: nat)
    requires i < |FieldMap|
    ensures Get(FieldMap, FieldMap[i].0) == Some(FieldMap[i].1)
  {
    assert UniqueKeys(FieldMap);
    GetUnique(FieldMap, i);
  }

  /** Each enumerated display name finds its own table. */
  lemma CodesOf(i: nat)
    requires i < |ParamMap|
    ensures Get(ParamMap, ParamMap[i].0) == Some(ParamMap[i].1)
  {
    assert UniqueKeys(ParamMap);
    GetUnique(ParamMap, i);
  }

  /** A switch is matched exactly: the strings `enable` and `disable` are sent as 1 and 2, and
      any other scalar, `Enable` included, is sent unchanged. */
  lemma SwitchExact(i: nat, v: Value)
    requires 2 <= i <= 4 && Hashable(v)
    ensures ExactStep(EditMaps, FieldMap[i].0, v) ==
      Emit(FieldMap[i].1, if v == VStr("enable") then VInt(1) else if v == VStr("disable") then VInt(2) else v)
  {
    ColumnOf(i);
    CodesOf(i - 2);
    if v.VStr? && v != VStr("enable") && v != VStr("disable") {
      GetSome(SwitchCodes, v.s);
    }
  }

  /** The action is `report` (0) or `block & report` (1), matched exactly. */
  lemma ActionExact(v: Value)
    requires Hashable(v)
    ensures ExactStep(EditMaps, "Action", v) ==
      Emit("rsSTATFULProfileAction", if v == VStr("report") then VInt(0) else if v == VStr("block & report") then VInt(1) else v)
  {
    ColumnOf(5);
    CodesOf(3);
    if v.VStr? && v != VStr("report") && v != VStr("block & report") {
      GetSome(ActionCodes, v.s);
    }
  }

  /** The thresholds and any key the tables do not know are sent as given, lists and dicts
      included. */
  lemma PlainKept(key: string, v: Value)
    requires Get(ParamMap, key).None?
    ensures ExactStep(EditMaps, key, v) == Emit(GetOr(FieldMap, key, key), v)
  {
  }

  // ---------------------------------------------------------------------------------------------
  // Reading the codes back
  // ---------------------------------------------------------------------------------------------

  /** The stateful-profile reader finds `key` under `col` and reads `code` back as `word`. */
  predicate ReadsBack(col: string, key: string, code: Value, word: string)
  {
    Get(GetOosProfile.FieldMap, col) == Some(key) && GetOosProfile.Reverse(GetOosProfile.EnumMaps, key, code) == VStr(word)
  }

  /** The reader reads switch codes 1 and 2 back as `enable` and `disable`. */
  lemma SwitchWordBack(key: string, c: int)
    requires key == "syn_ack_allow" || key == "packet_report"
    requires c == 1 || c == 2
    ensures GetOosProfile.Reverse(GetOosProfile.EnumMaps, key, VInt(c)) == VStr(if c == 1 then "enable" else "disable")
  {
    GetOosProfile.EnumMapsByKey();
    GetOosProfile.EnumMapsLookup();
    GetOosProfile.ReverseByKey(GetOosProfile.EnumMaps, key, VInt(c));
    if c == 1 {
      assert Str(VInt(c)) == "1";
      GetAt(GetOosProfile.SwitchWords, 0, "1");
    } else {
      assert Str(VInt(c)) == "2";
      GetAt(GetOosProfile.SwitchWords, 1, "2");
    }
  }

  /** The reader reads action codes 0 and 1 back as `report_only` and `block_and_report`. */
  lemma ActionWordBack(c: int)
    requires c == 0 || c == 1
    ensures GetOosProfile.Reverse(GetOosProfile.EnumMaps, "action", VInt(c)) == VStr(if c == 0 then "report_only" else "block_and_report")
  {
    GetOosProfile.EnumMapsByKey();
    GetOosProfile.EnumMapsLookup();
    GetOosProfile.ReverseByKey(GetOosProfile.EnumMaps, "action", VInt(c));
    if c == 0 {
      assert Str(VInt(c)) == "0";
      GetAt(GetOosProfile.ActionWords, 0, "0");
    } else {
      assert Str(VInt(c)) == "1";
      GetAt(GetOosProfile.ActionWords, 1, "1");
    }
  }

  /** The reader's words for the codes the editor writes: switches as `enable`/`disable`, and
      the action as `report_only`/`block_and_report`. */
  lemma ReaderWords(c: int)
    ensures c == 1 ==> ReadsBack("rsSTATFULProfilesynAckAllow", "syn_ack_allow", VInt(c), "enable")
    ensures c == 2 ==> ReadsBack("rsSTATFULProfilesynAckAllow", "syn_ack_allow", VInt(c), "disable")
    ensures c == 1 ==> ReadsBack("rsSTATFULProfilePacketReportStatus", "packet_report", VInt(c), "enable")
    ensures c == 2 ==> ReadsBack("rsSTATFULProfilePacketReportStatus", "packet_report", VInt(c), "disable")
    ensures c == 0 ==> ReadsBack("rsSTATFULProfileAction", "action", VInt(c), "report_only")
    ensures c == 1 ==> ReadsBack("rsSTATFULProfileAction", "action", VInt(c), "block_and_report")
  {
    GetAt(GetOosProfile.FieldMap, 2, "rsSTATFULProfilesynAckAllow");
    GetAt(GetOosProfile.FieldMap, 3, "rsSTATFULProfilePacketReportStatus");
    GetAt(GetOosProfile.FieldMap, 4, "rsSTATFULProfileAction");
    if c == 1 || c == 2 {
      SwitchWordBack("syn_ack_allow", c);
      SwitchWordBack("packet_report", c);
    }
    if c == 0 || c == 1 {
      ActionWordBack(c);
    }
  }

  /** The switches the stateful-profile reader reports read back as the word the editor was
      given; the packet-trace column is not one the reader reports. */
  lemma SwitchReadsBack(i: nat, key: string, w: string)
    requires (i == 2 && key == "syn_ack_allow") || (i == 4 && key == "packet_report")
    requires w == "enable" || w == "disable"
    ensures var e := ExactStep(EditMaps, FieldMap[i].0, VStr(w));
      e.Emit? && ReadsBack(e.key, key, e.value, w)
    ensures Get(GetOosProfile.FieldMap, "rsSTATFULProfilePacketTraceStatus").None?
  {
    SwitchExact(i, VStr(w));
    var c := if w == "enable" then 1 else 2;
    var g := if i == 2 then 2 else 3;
    assert GetOosProfile.FieldMap[g] == (FieldMap[i].1, key);
    GetAt(GetOosProfile.FieldMap, g, FieldMap[i].1);
    SwitchWordBack(key, c);
    PacketTraceUnread();
  }

  /** No column the reader reports has the packet-trace column's name, which is longer or
      shorter than each of them. */
  lemma PacketTraceUnread()
    ensures Get(GetOosProfile.FieldMap, "rsSTATFULProfilePacketTraceStatus").None?
  {
    var k := "rsSTATFULProfilePacketTraceStatus";
    var m := GetOosProfile.FieldMap;
    assert |m[0].0| == 28 && |m[1].0| == 29 && |m[2].0| == 27 && |m[3].0| == 34 && |m[4].0| == 22;
    assert |m[5].0| == 20 && |m[6].0| == 31 && |m[7].0| == 43 && |m[8].0| == 30;
    GetMissing(m, k);
  }

  /** The action words read back under the reader's spelling: `report` as `report_only` and
      `block & report` as `block_and_report`. */
  lemma ActionReadsBack(w: string)
    requires w in {"report", "block & report"}
    ensures var e := ExactStep(EditMaps, "Action", VStr(w));
      e.Emit? && ReadsBack(e.key, "action", e.value, if w == "report" then "report_only" else "block_and_report")
  {
    ActionExact(VStr(w));
    GetAt(GetOosProfile.FieldMap, 4, "rsSTATFULProfileAction");
    ActionWordBack(if w == "report" then 0 else 1);
  }

  // ---------------------------------------------------------------------------------------------
  // The PUT
  // ---------------------------------------------------------------------------------------------

  /** `{"rsSTATFULProfileName": name, **translated}`: the name first, overridden by a
      translated key spelled as the name column. */
  function Body(name: string, api: Dict): Dict
  {
    Update([(NameField, VStr(name))], api)
  }

  /** `/mgmt/device/byip/{dp_ip}/config/rsStatefulProfileTable/{name}` */
  function ProfilePath(dp: string, name: string): string
  {
    ConfigPath(dp, ProfileTable + "/" + name)
  }

  function EditRequest(dp: string, name: string, body: Dict): Request
  {
    Request(PUT, ProfilePath(dp, name), Some(VDict(body)))
  }

  /** What a refused reply is reported with: its JSON when it parses, else its text. */
  function Payload(r: Reply): string
  {
    match r.json case Some(j) => Str(j) case None => r.text
  }

  /** A content type that starts, in any case, with `application/json`. */
  predicate JsonContent(r: Reply)
  {
    IsPrefix("application/json", Lower(r.contentType))
  }

  /** The module: check mode sends nothing and reports no change; otherwise the named body is
      PUT, a status other than 200 or 201 fails with the status and the reply, and an accepted
      reply is read as JSON when its content type says so and as raw text otherwise. */
  function Run(m: IntMaps, name: string, params: Dict, checkMode: bool, dp: string, net: Net): Exit
  {
    if checkMode then Exited(false, Some(VDict([])), [])
    else
      match Translate(params, ExactStepOf(m))
      case Err(e) => Failed(e, [])
      case Ok(api) =>
        var req := EditRequest(dp, name, Body(name, api));
        match net(0)
        case Raised(e) => Failed(e, [req])
        case Returned(r) =>
          if r.status != 200 && r.status != 201 then
            Failed("API error " + IntToString(r.status) + ": " + Payload(r), [req])
          else if JsonContent(r) then
            (match r.json
             case None => Failed(JsonDecodeError, [req])
             case Some(data) => Exited(true, Some(data), [req]))
          else Exited(true, Some(RawBody(r)), [req])
  }

  method RunModule(name: string, params: Dict, checkMode: bool, dp: string, net: Net) returns (r: Exit)
    ensures r == Run(EditMaps, name, params, checkMode, dp, net)
  {
    if checkMode {
      return Exited(false, Some(VDict([])), []);
    }
    var api := Translate(params, ExactStepOf(EditMaps));
    if api.Err? {
      return Failed(api.msg, []);
    }
    var req := EditRequest(dp, name, Body(name, api.value));
    var o := net(0);
    if o.Raised? {
      return Failed(o.msg, [req]);
    }
    var reply := o.reply;
    if reply.status != 200 && reply.status != 201 {
      return Failed("API error " + IntToString(reply.status) + ": " + Payload(reply), [req]);
    }
    if JsonContent(reply) {
      if reply.json.None? {
        return Failed(JsonDecodeError, [req]);
      }
      r := Exited(true, Some(reply.json.value), [req]);
    } else {
      r := Exited(true, Some(RawBody(reply)), [req]);
    }
  }

  /** Check mode sends nothing and reports no change.  Otherwise a list or dict given for an
      enumerated key fails before any request; else exactly one PUT of the named body is sent,
      and the run reports a change exactly when the status is 200 or 201 and a JSON reply
      parses; a refused status fails naming the status and the reply. */
  lemma RunOutcome(m: IntMaps, name: string, params: Dict, checkMode: bool, dp: string, net: Net)
    ensures var r := Run(m, name, params, checkMode, dp, net);
      (checkMode ==> r == Exited(false, Some(VDict([])), [])) &&
      (!checkMode && (exists i :: 0 <= i < |params| && Unhashed(m, params[i].0, params[i].1)) ==>
        r == Failed(Unhashable, [])) &&
      (!checkMode && (forall i :: 0 <= i < |params| ==> !Unhashed(m, params[i].0, params[i].1)) ==>
        Translate(params, ExactStepOf(m)).Ok? &&
        r.sent == [EditRequest(dp, name, Body(name, Translate(params, ExactStepOf(m)).value))] &&
        (r.Exited? <==>
          net(0).Returned? && net(0).reply.status in {200, 201} && (JsonContent(net(0).reply) ==> net(0).reply.json.Some?)) &&
        (r.Exited? ==>
          r.changed && r.response == Some(if JsonContent(net(0).reply) then net(0).reply.json.value else RawBody(net(0).reply))) &&
        (net(0).Returned? && net(0).reply.status !in {200, 201} ==>
          r.msg == "API error " + IntToString(net(0).reply.status) + ": " + Payload(net(0).reply)))
  {
    TranslateOutcome(m, params);
  }
}

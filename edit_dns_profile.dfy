/** DNS-protection profile editing from display names (plugins/modules/edit_dns_profile.py):
    display-name keys are renamed to device columns, enumerated words are looked up lowercased
    and must be known, digit strings become integers, and the profile is PUT under its name. */
module EditDnsProfile {
  import opened Py
  import opened Http
  import opened Tables
  import opened SingleProfile
  import CreateDnsProfile

  const ProfileTable := "rsDnsProtProfileTable"

  const ActionCodes: Codes := [("report", 0), ("block & report", 1)]
  const SwitchCodes: Codes := [("enable", 1), ("disable", 2)]
  const StrictnessCodes: Codes := [("low", 0), ("medium", 1), ("high", 2)]

  /** `FIELD_MAP`: display name to device column. */
  const FieldMap: Table := [
    ("DNS Expected Qps", "rsDnsProtProfileExpectedQps"),
    ("DNS Action", "rsDnsProtProfileAction"),
    ("DNS Max Allow Qps", "rsDnsProtProfileMaxAllowQps"),
    ("DNS Manual Trigger Status", "rsDnsProtProfileManualTriggerStatus"),
    ("DNS Footprint Strictness", "rsDnsProtProfileFootprintStrictness"),
    ("DNS Packet Report Status", "rsDnsProtProfilePacketReportStatus"),
    ("DNS Learning Suppression Threshold", "rsDnsProtProfileLearningSuppressionThreshold")
  ]

  /** `NUMERIC_MAPPING`: per display name, its lowercase words and their integer codes. */
  const NumericMapping: seq<(string, Codes)> := [
    ("DNS Action", ActionCodes),
    ("DNS Manual Trigger Status", SwitchCodes),
    ("DNS Footprint Strictness", StrictnessCodes),
    ("DNS Packet Report Status", SwitchCodes)
  ]

  const EditMaps := IntMaps(FieldMap, NumericMapping)

  // ---------------------------------------------------------------------------------------------
  // The translation
  // ---------------------------------------------------------------------------------------------

  /** The `ValueError` for a word its table does not list. */
  function InvalidValue(key: string, value: Value): string
  {
    "Invalid value '" + Str(value) + "' for " + key
  }

  /** One pair of `translate_params`: the key is renamed when known; an enumerated value is
      looked up by its lowercased string and raises when missing; any other value becomes an
      integer when its string is all digits. */
  function LowerStep(m: IntMaps, key: string, value: Value): Emit
  {
    var api := GetOr(m.fields, key, key);
    match Get(m.enums, key)
    case Some(codes) =>
      (match Get(codes, Lower(Str(value)))
       case Some(c) => Emit(api, VInt(c))
       case None => Reject(InvalidValue(key, value)))
    case None => Emit(api, DigitsToInt(value))
  }

  function LowerStepOf(m: IntMaps): (string, Value) -> Emit
  {
    (key, value) => LowerStep(m, key, value)
  }

  /** An enumerated key whose value, lowercased, is not one of its words. */
  predicate Invalid(m: IntMaps, key: string, value: Value)
  {
    Get(m.enums, key).Some? && Get(Get(m.enums, key).value, Lower(Str(value))).None?
  }

  method TranslateParams(params: Dict) returns (r: Result<Dict>)
    ensures r == Translate(params, LowerStepOf(EditMaps))
  {
    r := TranslateLoop(params, LowerStepOf(EditMaps));
  }

  /** The translation raises exactly when some enumerated value is not one of its words, and
      then with the message naming the first such value and its key.  Otherwise it holds exactly
      the renamed keys. */
  lemma TranslateOutcome(m: IntMaps, params: Dict)
    ensures Translate(params, LowerStepOf(m)).Err? <==>
      exists i :: 0 <= i < |params| && Invalid(m, params[i].0, params[i].1)
    ensures Translate(params, LowerStepOf(m)).Err? ==>
      exists i :: 0 <= i < |params| && Invalid(m, params[i].0, params[i].1) &&
        Translate(params, LowerStepOf(m)).msg == InvalidValue(params[i].0, params[i].1) &&
        forall j :: 0 <= j < i ==> !Invalid(m, params[j].0, params[j].1)
    ensures Translate(params, LowerStepOf(m)).Ok? ==>
      forall k :: k in Keys(Translate(params, LowerStepOf(m)).value) <==>
        exists i :: 0 <= i < |params| && GetOr(m.fields, params[i].0, params[i].0) == k
  {
    var step := LowerStepOf(m);
    forall i | 0 <= i < |params|
      ensures StepAt(params, step, i).Reject? <==> Invalid(m, params[i].0, params[i].1)
      ensures StepAt(params, step, i).Reject? ==> StepAt(params, step, i).msg == InvalidValue(params[i].0, params[i].1)
      ensures StepAt(params, step, i).Emit? ==> StepAt(params, step, i).key == GetOr(m.fields, params[i].0, params[i].0)
    {
    }
    TranslateRaises(params, step);
    if Translate(params, step).Ok? {
      TranslateContents(params, step);
    }
  }

  /** Enumerated words are matched whatever their case: two values with the same lowercased
      string are both refused or both sent as the same code. */
  lemma StepIgnoresCase(m: IntMaps, key: string, v: Value, w: Value)
    requires Get(m.enums, key).Some? && Lower(Str(v)) == Lower(Str(w))
    ensures LowerStep(m, key, v).Emit? <==> LowerStep(m, key, w).Emit?
    ensures LowerStep(m, key, v).Emit? ==> LowerStep(m, key, v) == LowerStep(m, key, w)
  {
  }

  /** The footprint strictness is `low`, `medium` or `high` in any case, sent as 0, 1 or 2;
      anything else raises. */
  lemma StrictnessWords(v: Value)
    ensures LowerStep(EditMaps, "DNS Footprint Strictness", v) ==
      var col := "rsDnsProtProfileFootprintStrictness";
      if Lower(Str(v)) == "low" then Emit(col, VInt(0))
      else if Lower(Str(v)) == "medium" then Emit(col, VInt(1))
      else if Lower(Str(v)) == "high" then Emit(col, VInt(2))
      else Reject(InvalidValue("DNS Footprint Strictness", v))
  {
    GetAt(NumericMapping, 2, "DNS Footprint Strictness");
    GetAt(FieldMap, 4, "DNS Footprint Strictness");
    GetSome(StrictnessCodes, Lower(Str(v)));
  }

  /** The expected rate, which has no word table, is sent as the integer `int()` reads from it
      when its string is all digits, and unchanged otherwise; it never raises. */
  lemma ExpectedQpsDigits(v: Value)
    ensures LowerStep(EditMaps, "DNS Expected Qps", v) == Emit("rsDnsProtProfileExpectedQps", DigitsToInt(v))
  {
    GetAt(FieldMap, 0, "DNS Expected Qps");
    GetSome(NumericMapping, "DNS Expected Qps");
  }

  // ---------------------------------------------------------------------------------------------
  // Reading the codes back
  // ---------------------------------------------------------------------------------------------

  /** Each display name of `FIELD_MAP` is renamed to its own column. */
  lemma ColumnOf(i: nat)
    requires i < |FieldMap|
    ensures Get(FieldMap, FieldMap[i].0) == Some(FieldMap[i].1)
  {
    assert UniqueKeys(FieldMap);
    GetUnique(FieldMap, i);
  }

  /** The code a switch word is sent as: 1 for `enable`, 2 for `disable`, in any case. */
  lemma SwitchSends(key: string, v: Value)
    requires key in {"DNS Manual Trigger Status", "DNS Packet Report Status"}
    requires Lower(Str(v)) in {"enable", "disable"}
    ensures LowerStep(EditMaps, key, v) ==
      Emit(GetOr(FieldMap, key, key), VInt(if Lower(Str(v)) == "enable" then 1 else 2))
  {
    if key == "DNS Manual Trigger Status" {
      GetAt(NumericMapping, 1, key);
    } else {
      GetAt(NumericMapping, 3, key);
    }
    if Lower(Str(v)) == "enable" {
      GetAt(SwitchCodes, 0, "enable");
    } else {
      GetAt(SwitchCodes, 1, "disable");
    }
  }

  /** The DNS creator reads a switch column's code 1 back as `enable` and 2 as `disable`. */
  lemma SwitchColumnReads(col: string, user: string, c: int)
    requires (col, user) in {("rsDnsProtProfilePacketReportStatus", "packet_report"),
                             ("rsDnsProtProfileManualTriggerStatus", "manual_trigger")}
    requires c in {1, 2}
    ensures CreateDnsProfile.BackStep(col, VInt(c)) == Emit(user, VStr(if c == 1 then "enable" else "disable"))
  {
    assert CreateDnsProfile.UserField(col) == Some(user);
    assert CreateDnsProfile.EnumWords(col) == Some(CreateDnsProfile.EnableWords);
    if c == 1 {
      assert Str(VInt(c)) == "1";
      GetAt(CreateDnsProfile.EnableWords, 0, "1");
    } else {
      assert Str(VInt(c)) == "2";
      GetAt(CreateDnsProfile.EnableWords, 1, "2");
    }
  }

  /** A switch sent by the editor reads back, through the DNS creator's reverse tables, as the
      lowercased word that was given, under the creator's own key. */
  lemma SwitchReadsBack(key: string, user: string, v: Value)
    requires (key, user) in {("DNS Packet Report Status", "packet_report"), ("DNS Manual Trigger Status", "manual_trigger")}
    requires Lower(Str(v)) in {"enable", "disable"}
    ensures var e := LowerStep(EditMaps, key, v);
      e.Emit? && CreateDnsProfile.BackStep(e.key, e.value) == Emit(user, VStr(Lower(Str(v))))
  {
    var c := if Lower(Str(v)) == "enable" then 1 else 2;
    SwitchSends(key, v);
    var col;
    if key == "DNS Packet Report Status" {
      ColumnOf(5);
      col := "rsDnsProtProfilePacketReportStatus";
    } else {
      ColumnOf(3);
      col := "rsDnsProtProfileManualTriggerStatus";
    }
    assert LowerStep(EditMaps, key, v) == Emit(col, VInt(c));
    SwitchColumnReads(col, user, c);
  }

  /** The DNS creator reads the strictness codes 0, 1 and 2 back as `low`, `medium`, `high`. */
  lemma StrictnessColumnReads(c: int)
    requires c in {0, 1, 2}
    ensures CreateDnsProfile.BackStep("rsDnsProtProfileFootprintStrictness", VInt(c)) ==
      Emit("footprint_strictness", VStr(if c == 0 then "low" else if c == 1 then "medium" else "high"))
  {
    var col := "rsDnsProtProfileFootprintStrictness";
    assert CreateDnsProfile.UserField(col) == Some("footprint_strictness");
    assert CreateDnsProfile.EnumWords(col) == Some(CreateDnsProfile.StrictnessWords);
    if c == 0 {
      assert Str(VInt(c)) == "0";
      GetAt(CreateDnsProfile.StrictnessWords, 0, "0");
    } else if c == 1 {
      assert Str(VInt(c)) == "1";
      GetAt(CreateDnsProfile.StrictnessWords, 1, "1");
    } else {
      assert Str(VInt(c)) == "2";
      GetAt(CreateDnsProfile.StrictnessWords, 2, "2");
    }
  }

  /** A strictness sent by the editor reads back as the lowercased word that was given. */
  lemma StrictnessReadsBack(v: Value)
    requires Lower(Str(v)) in {"low", "medium", "high"}
    ensures var e := LowerStep(EditMaps, "DNS Footprint Strictness", v);
      e.Emit? && CreateDnsProfile.BackStep(e.key, e.value) == Emit("footprint_strictness", VStr(Lower(Str(v))))
  {
    StrictnessWords(v);
    StrictnessColumnReads(if Lower(Str(v)) == "low" then 0 else if Lower(Str(v)) == "medium" then 1 else 2);
  }

  /** The DNS creator reads the action codes 0 and 1 back as `report_only` and `block_&_report`. */
  lemma ActionColumnReads(c: int)
    requires c in {0, 1}
    ensures CreateDnsProfile.BackStep("rsDnsProtProfileAction", VInt(c)) ==
      Emit("action", VStr(if c == 0 then "report_only" else "block_&_report"))
  {
    var col := "rsDnsProtProfileAction";
    assert CreateDnsProfile.UserField(col) == Some("action");
    assert CreateDnsProfile.EnumWords(col) == Some(CreateDnsProfile.ActionWords);
    if c == 0 {
      assert Str(VInt(c)) == "0";
      GetAt(CreateDnsProfile.ActionWords, 0, "0");
    } else {
      assert Str(VInt(c)) == "1";
      GetAt(CreateDnsProfile.ActionWords, 1, "1");
    }
  }

  /** The action is the one enumerated field whose words differ between the two modules: the
      editor's `report` and `block & report` read back as `report_only` and `block_&_report`. */
  lemma ActionReadsBack(v: Value)
    requires Lower(Str(v)) in {"report", "block & report"}
    ensures var e := LowerStep(EditMaps, "DNS Action", v);
      e.Emit? && CreateDnsProfile.BackStep(e.key, e.value) ==
        Emit("action", VStr(if Lower(Str(v)) == "report" then "report_only" else "block_&_report"))
  {
    GetAt(NumericMapping, 0, "DNS Action");
    GetAt(FieldMap, 1, "DNS Action");
    if Lower(Str(v)) == "report" {
      GetAt(ActionCodes, 0, "report");
      ActionColumnReads(0);
    } else {
      GetAt(ActionCodes, 1, "block & report");
      ActionColumnReads(1);
    }
  }

  // ---------------------------------------------------------------------------------------------
  // The PUT
  // ---------------------------------------------------------------------------------------------

  /** `/mgmt/device/byip/{dp_ip}/config/rsDnsProtProfileTable/{name}` */
  function ProfilePath(dp: string, name: string): string
  {
    ConfigPath(dp, ProfileTable + "/" + name)
  }

  function EditRequest(dp: string, name: string, body: Dict): Request
  {
    Request(PUT, ProfilePath(dp, name), Some(VDict(body)))
  }

  /** The module: check mode leaves before translating, reporting no change; otherwise the
      translated body is PUT, and any readable reply, whatever its status, is the response of
      a change. */
  function Run(m: IntMaps, name: string, params: Dict, checkMode: bool, dp: string, net: Net): Exit
  {
    if checkMode then Exited(false, Some(VDict([])), [])
    else
      match Translate(params, LowerStepOf(m))
      case Err(e) => Failed(e, [])
      case Ok(body) =>
        var req := EditRequest(dp, name, body);
        match net(0)
        case Raised(e) => Failed(e, [req])
        case Returned(r) =>
          match JsonOf(r)
          case None => Failed("Invalid JSON response: " + r.text, [req])
          case Some(data) => Exited(true, Some(data), [req])
  }

  method RunModule(name: string, params: Dict, checkMode: bool, dp: string, net: Net) returns (r: Exit)
    ensures r == Run(EditMaps, name, params, checkMode, dp, net)
  {
    if checkMode {
      return Exited(false, Some(VDict([])), []);
    }
    var body := TranslateParams(params);
    if body.Err? {
      return Failed(body.msg, []);
    }
    var req := EditRequest(dp, name, body.value);
    var o := net(0);
    if o.Raised? {
      return Failed(o.msg, [req]);
    }
    var data := JsonOf(o.reply);
    if data.None? {
      return Failed("Invalid JSON response: " + o.reply.text, [req]);
    }
    r := Exited(true, Some(data.value), [req]);
  }

  /** Check mode sends nothing and reports no change, even for parameters the translation
      would refuse.  Otherwise a refused value fails before any request; an accepted body is
      sent in exactly one PUT, and the run reports a change exactly when the reply is JSON. */
  lemma RunOutcome(m: IntMaps, name: string, params: Dict, checkMode: bool, dp: string, net: Net)
    ensures var r := Run(m, name, params, checkMode, dp, net);
      (checkMode ==> r == Exited(false, Some(VDict([])), [])) &&
      (!checkMode && (exists i :: 0 <= i < |params| && Invalid(m, params[i].0, params[i].1)) ==>
        r.Failed? && r.sent == [] && Translate(params, LowerStepOf(m)).Err? && r.msg == Translate(params, LowerStepOf(m)).msg) &&
      (!checkMode && (forall i :: 0 <= i < |params| ==> !Invalid(m, params[i].0, params[i].1)) ==>
        Translate(params, LowerStepOf(m)).Ok? &&
        r.sent == [EditRequest(dp, name, Translate(params, LowerStepOf(m)).value)] &&
        (r.Exited? <==> net(0).Returned? && net(0).reply.json.Some?) &&
        (r.Exited? ==> r.changed && r.response == net(0).reply.json))
  {
    TranslateOutcome(m, params);
  }
}

/** BDoS (network flood) profile creation (plugins/modules/create_bdos_profile.py): the mapper
    from playbook words and numbers to device values with its range checks, the split of the
    mapped columns into a creating POST and a quota PUT, the batch over profiles and the preview
    plan. */
module CreateBdosProfile {
  import opened Py
  import opened Http
  import opened Tables

  const ProfileTable := "rsNetFloodProfileTable"
  const NameField := "rsNetFloodProfileName"
  const InvalidPrefix := "Invalid value '"

  const SwitchCodes: Table := [("enable", "1"), ("disable", "2")]
  const ActionCodes: Table := [("report_only", "0"), ("block_and_report", "1")]
  const StrictnessCodes: Table := [("low", "0"), ("medium", "1"), ("high", "2")]
  const RateLimitCodes: Table := [("disable", "0"), ("normal_edge", "1"), ("suspect_edge", "2"), ("user_defined", "3")]

  /** The playbook key of the UDP packet-rate detection sensitivity, spelled as the module spells
      it (with a space, and without the final letter). */
  const SensitivityKey := "udp_ packet_rate_detection_sensitivit"

  /** The sensitivity table as the module writes it: its first word starts with a tab and an
      upper-case letter, so no lowercased value can match it. */
  const SensitivityCodesAsWritten: Table := [("\tIgnore_or_Disable", "1"), ("low", "2"), ("medium", "3"), ("high", "4")]

  /** The sensitivity table with its first word as evidently meant. */
  const SensitivityCodes: Table := [("ignore_or_disable", "1"), ("low", "2"), ("medium", "3"), ("high", "4")]

  /** `ENUM_MAPS` as the module writes it. */
  const EnumCodes := EnumCodesWith(SensitivityCodesAsWritten)

  /** `ENUM_MAPS` with the sensitivity table corrected. */
  const CorrectedEnumCodes := EnumCodesWith(SensitivityCodes)

  /** `ENUM_MAPS`: per playbook key, its words and their device codes, for a given sensitivity
      table. */
  function EnumCodesWith(sensitivity: Table): seq<(string, Table)>
  {
    [
    ("syn_flood", SwitchCodes),
    ("udp_flood", SwitchCodes),
    ("igmp_flood", SwitchCodes),
    ("icmp_flood", SwitchCodes),
    ("tcp_ack_fin_flood", SwitchCodes),
    ("tcp_rst_flood", SwitchCodes),
    ("tcp_psh_ack_flood", SwitchCodes),
    ("tcp_syn_ack_flood", SwitchCodes),
    ("tcp_frag_flood", SwitchCodes),
    ("udp_frag_flood", SwitchCodes),
    ("transparent_optimization", SwitchCodes),
    ("action", ActionCodes),
    ("burst_attack", SwitchCodes),
    ("footprint_strictness", StrictnessCodes),
    ("bdos_rate_limit", RateLimitCodes),
    ("packet_report", SwitchCodes),
    (SensitivityKey, sensitivity),
    ("adv_udp_detection", SwitchCodes)
    ]
  }

  /** `FIELD_MAP`: playbook key to device column. */
  const FieldMap: Table := [
    ("syn_flood", "rsNetFloodProfileTcpSynStatus"),
    ("udp_flood", "rsNetFloodProfileUdpStatus"),
    ("igmp_flood", "rsNetFloodProfileIgmpStatus"),
    ("icmp_flood", "rsNetFloodProfileIcmpStatus"),
    ("tcp_ack_fin_flood", "rsNetFloodProfileTcpFinAckStatus"),
    ("tcp_rst_flood", "rsNetFloodProfileTcpRstStatus"),
    ("tcp_psh_ack_flood", "rsNetFloodProfileTcpPshAckStatus"),
    ("tcp_syn_ack_flood", "rsNetFloodProfileTcpSynAckStatus"),
    ("tcp_frag_flood", "rsNetFloodProfileTcpFragStatus"),
    ("udp_frag_flood", "rsNetFloodProfileUdpFragStatus"),
    ("transparent_optimization", "rsNetFloodProfileTransparentOptimization"),
    ("action", "rsNetFloodProfileAction"),
    ("burst_attack", "rsNetFloodProfileBurstEnabled"),
    ("footprint_strictness", "rsNetFloodProfileFootprintStrictness"),
    ("bdos_rate_limit", "rsNetFloodProfileRateLimit"),
    ("packet_report", "rsNetFloodProfilePacketReportStatus"),
    (SensitivityKey, "rsNetFloodProfileLevelOfReuglarzation"),
    ("adv_udp_detection", "rsNetFloodProfileAdvUdpDetection"),
    ("inbound_traffic", "rsNetFloodProfileBandwidthIn"),
    ("outbound_traffic", "rsNetFloodProfileBandwidthOut"),
    ("tcp_in_quota", "rsNetFloodProfileTcpInQuota"),
    ("udp_in_quota", "rsNetFloodProfileUdpInQuota"),
    ("icmp_in_quota", "rsNetFloodProfileIcmpInQuota"),
    ("igmp_in_quota", "rsNetFloodProfileIgmpInQuota"),
    ("tcp_out_quota", "rsNetFloodProfileTcpOutQuota"),
    ("udp_out_quota", "rsNetFloodProfileUdpOutQuota"),
    ("icmp_out_quota", "rsNetFloodProfileIcmpOutQuota"),
    ("igmp_out_quota", "rsNetFloodProfileIgmpOutQuota"),
    ("maximum_interval_between_bursts", "rsNetFloodProfileNoBurstTimeout"),
    ("learning_suppression_threshold", "rsNetFloodProfileLearningSuppressionThreshold"),
    ("user_defined_rate_limit", "rsNetFloodProfileUserDefinedRateLimit"),
    ("user_defined_rate_limit_unit", "rsNetFloodProfileUserDefinedRateLimitUnit")
  ]

  /** `UNIT_MAP` of the user-defined rate limit. */
  const UnitCodes: Table := [("kbps", "0"), ("mbps", "1"), ("gbps", "2")]

  /** The maps the module runs with. */
  const CreateMaps := FieldMaps(FieldMap, EnumCodes)

  /** The maps with the corrected sensitivity table. */
  const CorrectedMaps := FieldMaps(FieldMap, CorrectedEnumCodes)

  // ---------------------------------------------------------------------------------------------
  // The mapper
  // ---------------------------------------------------------------------------------------------

  /** How a known key without an enum table is checked. */
  datatype Check = Range(lo: int, hi: int) | UnitWord | Unchecked

  /** The checks of `map_netflood_profile_parameters`, in the order the module tries them. */
  function CheckOf(key: string): Check
  {
    if key == "inbound_traffic" || key == "outbound_traffic" then Range(1, 1342177280)
    else if IsSuffix("_quota", key) then Range(0, 100)
    else if key == "user_defined_rate_limit" then Range(0, 400000000)
    else if key == "user_defined_rate_limit_unit" then UnitWord
    else if key == "learning_suppression_threshold" then Range(0, 50)
    else Unchecked
  }

  function RangeError(key: string, lo: int, hi: int): string
  {
    key + " must be between " + IntToString(lo) + " and " + IntToString(hi)
  }

  /** One pair of the mapper: an unknown key is dropped, an enumerated word is looked up
      lowercased, a ranged value goes through `int()` and must lie in its range, the rate-limit
      unit must be a known unit, and any other value is stringified. */
  function Step(m: FieldMaps, key: string, value: Value): Emit
  {
    match Get(m.fields, key)
    case None => Skip
    case Some(api) =>
      if Get(m.enums, key).Some? then CreateStep(m, InvalidPrefix, key, value)
      else match CheckOf(key)
        case Range(lo, hi) =>
          (match IntOf(value)
           case Err(e) => Reject(e)
           case Ok(n) => if lo <= n <= hi then Emit(api, VStr(IntToString(n))) else Reject(RangeError(key, lo, hi)))
        case UnitWord =>
          (match Get(UnitCodes, Lower(Str(value)))
           case Some(code) => Emit(api, VStr(code))
           case None => Reject(key + " must be one of " + Str(KeyList(UnitCodes))))
        case Unchecked => Emit(api, VStr(Str(value)))
  }

  function StepOf(m: FieldMaps): (string, Value) -> Emit
  {
    (key, value) => Step(m, key, value)
  }

  /** `map_netflood_profile_parameters` with the maps as a parameter. */
  function MapParams(m: FieldMaps, params: Dict): Result<Dict>
  {
    Translate(params, StepOf(m))
  }

  method MapNetfloodProfileParameters(m: FieldMaps, params: Dict) returns (r: Result<Dict>)
    ensures r == MapParams(m, params)
  {
    r := TranslateLoop(params, StepOf(m));
  }

  /** A pair is dropped iff its key is unknown; a kept pair is written to its key's column. */
  lemma StepShape(m: FieldMaps, key: string, value: Value)
    ensures Step(m, key, value).Skip? <==> Get(m.fields, key).None?
    ensures Step(m, key, value).Emit? ==> Get(m.fields, key) == Some(Step(m, key, value).key)
  {
  }

  /** Two playbook keys never write the same column when no column repeats. */
  lemma StepInjective(m: FieldMaps)
    requires UniqueValues(m.fields)
    ensures Injective(StepOf(m))
  {
    var step := StepOf(m);
    forall k1, v1, k2, v2 | step(k1, v1).Emit? && step(k2, v2).Emit? && step(k1, v1).key == step(k2, v2).key
      ensures k1 == k2
    {
      var a := step(k1, v1).key;
      StepShape(m, k1, v1);
      StepShape(m, k2, v2);
      GetSome(m.fields, k1);
      GetSome(m.fields, k2);
      var i :| 0 <= i < |m.fields| && m.fields[i] == (k1, a);
      var j :| 0 <= j < |m.fields| && m.fields[j] == (k2, a);
      assert i == j;
    }
  }

  /** A ranged value is accepted iff `int()` converts it to a number inside the range, and is
      then sent as a decimal string that converts back to that number. */
  lemma RangeChecked(m: FieldMaps, key: string, value: Value)
    requires Get(m.fields, key).Some? && Get(m.enums, key).None? && CheckOf(key).Range?
    ensures var c, s := CheckOf(key), Step(m, key, value);
      (s.Emit? <==> IntOf(value).Ok? && c.lo <= IntOf(value).value <= c.hi) &&
      (s.Emit? ==> s.value.VStr? && ParseInt(s.value.s) == Some(IntOf(value).value))
  {
    if IntOf(value).Ok? {
      IntToStringRoundTrip(IntOf(value).value);
    }
  }

  /** A rejected ranged value carries the `TypeError` message iff it is not convertible at all
      (None, a list or a dict); that exception is not a `ValueError` and ends the module run. */
  lemma RangeTypeError(m: FieldMaps, key: string, value: Value)
    requires Get(m.fields, key).Some? && Get(m.enums, key).None? && CheckOf(key).Range?
    requires Step(m, key, value).Reject?
    ensures Step(m, key, value).msg == IntArgument <==> ToInt(value).TypeError?
  {
    var c := CheckOf(key);
    match ToInt(value)
    case TypeError =>
    case ValueError =>
      var msg := BadIntLiteral + Repr(value);
      assert Step(m, key, value).msg == msg;
      assert msg[|msg| - 1] == '\'' != IntArgument[|IntArgument| - 1];
    case IntOk(n) =>
      assert Step(m, key, value).msg == RangeError(key, c.lo, c.hi);
      RangeErrorNotTypeError(key, c.lo, c.hi);
  }

  /** A range message ends with a digit, so it is never the `TypeError` message. */
  lemma RangeErrorNotTypeError(key: string, lo: int, hi: nat)
    ensures RangeError(key, lo, hi) != IntArgument
  {
    NatToStringDigits(hi);
    var t := IntToString(hi);
    var r := RangeError(key, lo, hi);
    assert r[|r| - 1] == t[|t| - 1];
    assert IsDigit(t[|t| - 1]) && !IsDigit(IntArgument[|IntArgument| - 1]);
  }

  /** The rate-limit unit is sent as "0", "1" or "2" for `kbps`, `mbps` or `gbps` in any case,
      and rejected otherwise. */
  lemma UnitChecked(m: FieldMaps, key: string, value: Value)
    requires Get(m.fields, key).Some? && Get(m.enums, key).None? && CheckOf(key).UnitWord?
    ensures var w, s := Lower(Str(value)), Step(m, key, value);
      (w == "kbps" ==> s.Emit? && s.value == VStr("0")) &&
      (w == "mbps" ==> s.Emit? && s.value == VStr("1")) &&
      (w == "gbps" ==> s.Emit? && s.value == VStr("2")) &&
      (w != "kbps" && w != "mbps" && w != "gbps" ==> s.Reject?)
  {
  }

  /** Only the `TypeError` of `int()` carries its message: every other rejection ends with the
      `]` of a word list, the quote of a value or a digit of a bound. */
  lemma StepTypeError(m: FieldMaps, key: string, value: Value)
    requires Step(m, key, value).Reject?
    ensures Step(m, key, value).msg == IntArgument <==> TypeErrorAt(m, key, value)
  {
    var msg := Step(m, key, value).msg;
    if Get(m.enums, key).Some? {
      var codes := Get(m.enums, key).value;
      assert msg == InvalidWord(InvalidPrefix, key, value, codes);
      assert msg[|msg| - 1] == ']';
    } else if CheckOf(key).Range? {
      RangeTypeError(m, key, value);
    } else {
      assert msg == key + " must be one of " + Str(KeyList(UnitCodes));
      assert msg[|msg| - 1] == ']';
    }
  }

  /** `int()` raising `TypeError` on a ranged value: the one exception of the mapper that its
      caller's `except ValueError` does not catch. */
  predicate TypeErrorAt(m: FieldMaps, key: string, value: Value)
  {
    Get(m.fields, key).Some? && Get(m.enums, key).None? && CheckOf(key).Range? && ToInt(value).TypeError?
  }

  /** The i-th pair is the first one the mapper rejects. */
  predicate FirstReject(m: FieldMaps, params: Dict, i: int)
  {
    0 <= i < |params| && StepAt(params, StepOf(m), i).Reject? &&
    forall j :: 0 <= j < i ==> !StepAt(params, StepOf(m), j).Reject?
  }

  /** The mapper raises iff some pair is rejected, and its message is the `TypeError` one iff
      the first rejected pair is an unconvertible ranged value. */
  lemma MapRaises(m: FieldMaps, params: Dict)
    ensures MapParams(m, params).Err? <==> exists i :: 0 <= i < |params| && StepAt(params, StepOf(m), i).Reject?
    ensures MapParams(m, params).Err? ==>
      (MapParams(m, params).msg == IntArgument <==>
       exists i :: FirstReject(m, params, i) && TypeErrorAt(m, params[i].0, params[i].1))
  {
    var step := StepOf(m);
    TranslateRaises(params, step);
    if MapParams(m, params).Err? {
      var i :| 0 <= i < |params| && StepAt(params, step, i) == Reject(MapParams(m, params).msg) &&
               forall j :: 0 <= j < i ==> !StepAt(params, step, j).Reject?;
      assert FirstReject(m, params, i);
      StepTypeError(m, params[i].0, params[i].1);
      forall i' | FirstReject(m, params, i') ensures i' == i {
      }
    }
  }

  /** For an accepted profile with distinct keys and distinct columns, the column of every
      ranged key holds the decimal string of `int()` of its value, inside the range. */
  lemma MappedInRange(m: FieldMaps, params: Dict, i: nat)
    requires UniqueKeys(params) && UniqueValues(m.fields) && i < |params| && MapParams(m, params).Ok?
    requires Get(m.fields, params[i].0).Some? && Get(m.enums, params[i].0).None? && CheckOf(params[i].0).Range?
    ensures var c, v, d := CheckOf(params[i].0), params[i].1, MapParams(m, params).value;
      IntOf(v).Ok? && c.lo <= IntOf(v).value <= c.hi &&
      Get(d, Get(m.fields, params[i].0).value) == Some(VStr(IntToString(IntOf(v).value))) &&
      ParseInt(IntToString(IntOf(v).value)) == Some(IntOf(v).value)
  {
    var step := StepOf(m);
    StepInjective(m);
    TranslateRaises(params, step);
    TranslateContents(params, step);
    assert !StepAt(params, step, i).Reject?;
    RangeChecked(m, params[i].0, params[i].1);
    IntToStringRoundTrip(IntOf(params[i].1).value);
  }

  // ---------------------------------------------------------------------------------------------
  // Facts about the module's tables
  // ---------------------------------------------------------------------------------------------

  /** No device column repeats (shown four rows at a time, to keep each proof small). */
  lemma FieldMapDistinct()
    ensures UniqueValues(FieldMap)
  {
    ColumnsDistinct(0, 4);
    ColumnsDistinct(4, 8);
    ColumnsDistinct(8, 16);
    ColumnsDistinct(16, 31);
  }

  lemma ColumnsDistinct(lo: nat, hi: nat)
    requires (lo, hi) in {(0, 4), (4, 8), (8, 16), (16, 31)}
    ensures forall i, j :: lo <= i < hi && i < j < |FieldMap| ==> FieldMap[i].1 != FieldMap[j].1
  {
  }

  /** Every key the mapper range-checks, or checks as a unit, has no enum table, so its check
      is the one that applies. */
  lemma NoEnumForChecked(key: string)
    requires !CheckOf(key).Unchecked?
    ensures Get(EnumCodes, key).None?
  {
    GetSome(EnumCodes, key);
    KeysLength(EnumCodes);
    EnumKeysUnchecked(0, 9);
    EnumKeysUnchecked(9, 18);
    forall i | 0 <= i < |EnumCodes| ensures Keys(EnumCodes)[i] != key {
      var k := EnumCodes[i].0;
      if IsSuffix("_quota", k) {
        assert k[|k| - 1] == k[|k| - 6..][5] == 'a';
      }
    }
  }

  /** No enum key is one of the checked keys, and none ends in `a` (so none ends in `_quota`). */
  lemma EnumKeysUnchecked(lo: nat, hi: nat)
    requires (lo, hi) in {(0, 9), (9, 18)}
    ensures forall i :: lo <= i < hi ==> var k := EnumCodes[i].0;
      k[|k| - 1] != 'a' && k != "inbound_traffic" && k != "outbound_traffic" && k != "user_defined_rate_limit" &&
      k != "user_defined_rate_limit_unit" && k != "learning_suppression_threshold"
  {
  }

  /** With the module's own maps: in an accepted profile with distinct keys, every known
      ranged key's column holds the decimal string of its value, inside the key's range. */
  lemma AcceptedInRange(params: Dict, i: nat)
    requires UniqueKeys(params) && i < |params| && MapParams(CreateMaps, params).Ok?
    requires Get(FieldMap, params[i].0).Some? && CheckOf(params[i].0).Range?
    ensures var c, v, d := CheckOf(params[i].0), params[i].1, MapParams(CreateMaps, params).value;
      IntOf(v).Ok? && c.lo <= IntOf(v).value <= c.hi &&
      Get(d, Get(FieldMap, params[i].0).value) == Some(VStr(IntToString(IntOf(v).value)))
  {
    FieldMapDistinct();
    NoEnumForChecked(params[i].0);
    MappedInRange(CreateMaps, params, i);
  }

  // ---------------------------------------------------------------------------------------------
  // The sensitivity table
  // ---------------------------------------------------------------------------------------------

  /** Every word of a table can be chosen: looked up lowercased, the word finds its own code. */
  ghost predicate WordsReachable(t: Table)
  {
    forall i :: 0 <= i < |t| ==> Get(t, Lower(t[i].0)) == Some(t[i].1)
  }

  /** As written, no value selects the first sensitivity code: the only word with that code
      holds an upper-case `I`, which a lowercased value never holds. */
  lemma SensitivityAsWrittenUnreachable(v: Value)
    ensures Get(SensitivityCodesAsWritten, Lower(Str(v))) != Some("1")
  {
    LowerShape(Str(v));
  }

  /** Hence the written table fails reachability at its first word. */
  lemma SensitivityAsWrittenNotReachable()
    ensures !WordsReachable(SensitivityCodesAsWritten)
  {
    SensitivityAsWrittenUnreachable(VStr(SensitivityCodesAsWritten[0].0));
  }

  /** The sensitivity key's enum table is the one given: the written one in the module's maps,
      the corrected one in the corrected maps. */
  lemma SensitivityTable(t: Table)
    ensures Get(EnumCodesWith(t), SensitivityKey) == Some(t)
  {
    GetAt(EnumCodesWith(t), 16, SensitivityKey);
  }

  /** The sensitivity key is sent in its own column. */
  lemma SensitivityColumn()
    ensures Get(FieldMap, SensitivityKey) == Some("rsNetFloodProfileLevelOfReuglarzation")
  {
    GetAt(FieldMap, 16, SensitivityKey);
  }

  /** A key with a column and an enum table sends the code its lowercased word selects, and is
      rejected when the word selects none. */
  lemma EnumStep(m: FieldMaps, key: string, v: Value, api: string, codes: Table)
    requires Get(m.fields, key) == Some(api) && Get(m.enums, key) == Some(codes)
    ensures Step(m, key, v) ==
      match Get(codes, Lower(Str(v)))
      case Some(code) => Emit(api, VStr(code))
      case None => Reject(InvalidWord(InvalidPrefix, key, v, codes))
  {
  }

  /** The written table has no word `ignore_or_disable`. */
  lemma WrittenLacksIgnore()
    ensures Get(SensitivityCodesAsWritten, "ignore_or_disable") == None
  {
    assert |SensitivityCodesAsWritten[0].0| == 18 && |SensitivityCodesAsWritten[1].0| == 3 &&
      |SensitivityCodesAsWritten[2].0| == 6 && |SensitivityCodesAsWritten[3].0| == 4;
    GetMissing(SensitivityCodesAsWritten, "ignore_or_disable");
  }

  /** As written, the module never sends code "1" for the sensitivity. */
  lemma SensitivityNeverOne(v: Value)
    ensures Step(CreateMaps, SensitivityKey, v) != Emit("rsNetFloodProfileLevelOfReuglarzation", VStr("1"))
  {
    SensitivityColumn();
    SensitivityTable(SensitivityCodesAsWritten);
    EnumStep(CreateMaps, SensitivityKey, v, "rsNetFloodProfileLevelOfReuglarzation", SensitivityCodesAsWritten);
    SensitivityAsWrittenUnreachable(v);
  }

  /** As written, a value meant for code "1", such as `ignore_or_disable`, is rejected. */
  lemma SensitivityRejected(v: Value)
    requires Lower(Str(v)) == "ignore_or_disable"
    ensures Step(CreateMaps, SensitivityKey, v).Reject?
  {
    SensitivityColumn();
    SensitivityTable(SensitivityCodesAsWritten);
    EnumStep(CreateMaps, SensitivityKey, v, "rsNetFloodProfileLevelOfReuglarzation", SensitivityCodesAsWritten);
    WrittenLacksIgnore();
  }

  /** With the corrected table, the sensitivity word `ignore_or_disable`, in any case, sends
      code "1". */
  lemma SensitivityCorrected(v: Value)
    requires Lower(Str(v)) == "ignore_or_disable"
    ensures Step(CorrectedMaps, SensitivityKey, v) == Emit("rsNetFloodProfileLevelOfReuglarzation", VStr("1"))
  {
    SensitivityColumn();
    SensitivityTable(SensitivityCodes);
    EnumStep(CorrectedMaps, SensitivityKey, v, "rsNetFloodProfileLevelOfReuglarzation", SensitivityCodes);
    WordFound(0);
  }

  /** Each word of the corrected table selects its code, in any case. */
  lemma SensitivityReachable()
    ensures WordsReachable(SensitivityCodes)
  {
    forall i | 0 <= i < |SensitivityCodes| ensures Get(SensitivityCodes, Lower(SensitivityCodes[i].0)) == Some(SensitivityCodes[i].1) {
      WordLower(i);
      WordFound(i);
    }
  }

  lemma WordLower(i: nat)
    requires i < |SensitivityCodes|
    ensures Lower(SensitivityCodes[i].0) == SensitivityCodes[i].0
  {
    LowerPlain(SensitivityCodes[i].0);
  }

  lemma WordFound(i: nat)
    requires i < |SensitivityCodes|
    ensures Get(SensitivityCodes, SensitivityCodes[i].0) == Some(SensitivityCodes[i].1)
  {
    GetAt(SensitivityCodes, i, SensitivityCodes[i].0);
  }

  // ---------------------------------------------------------------------------------------------
  // Phases
  // ---------------------------------------------------------------------------------------------

  /** `phase1_keys`: the columns sent with the creating POST. */
  const Phase1Keys: seq<string> := [
    "rsNetFloodProfileAction", "rsNetFloodProfileAdvUdpDetection",
    "rsNetFloodProfileBandwidthIn", "rsNetFloodProfileBandwidthOut",
    "rsNetFloodProfileBurstEnabled", "rsNetFloodProfileBurstAttackPeriod",
    "rsNetFloodProfileFootprintStrictness", "rsNetFloodProfileLearningSuppressionThreshold",
    "rsNetFloodProfilePacketReportStatus", "rsNetFloodProfileTcpSynStatus",
    "rsNetFloodProfileTcpRstStatus", "rsNetFloodProfileTcpSynAckStatus",
    "rsNetFloodProfileTcpFinAckStatus", "rsNetFloodProfileTcpFragStatus",
    "rsNetFloodProfileUdpStatus", "rsNetFloodProfileUdpFragStatus",
    "rsNetFloodProfileIgmpStatus", "rsNetFloodProfileIcmpStatus",
    "rsNetFloodProfileTransparentOptimization",
    "rsNetFloodProfileRateLimit", "rsNetFloodProfileUserDefinedRateLimit",
    "rsNetFloodProfileUserDefinedRateLimitUnit"
  ]

  predicate InPhase1(api: string)
  {
    api in Phase1Keys
  }

  function Phase1(api: Dict): Dict { Select(api, InPhase1) }

  function Phase2(api: Dict): Dict { Omit(api, InPhase1) }

  /** The two phases partition the mapped parameters: each entry is sent in exactly one of
      them, the first phase holding the listed columns. */
  lemma PhasesPartition(api: Dict)
    ensures |Phase1(api)| + |Phase2(api)| == |api|
    ensures forall e :: e in Phase1(api) <==> e in api && InPhase1(e.0)
    ensures forall e :: e in Phase2(api) <==> e in api && !InPhase1(e.0)
  {
    SplitPartition(api, InPhase1);
  }

  /** No quota column is sent with the creating POST: every quota goes in the second phase. */
  lemma QuotasInPhase2(api: string)
    requires IsSuffix("Quota", api)
    ensures !InPhase1(api)
  {
    assert api[|api| - 1] == api[|api| - 5..][4] == 'a';
    forall i | 0 <= i < |Phase1Keys| ensures Phase1Keys[i][|Phase1Keys[i]| - 1] != 'a' {
    }
  }

  // ---------------------------------------------------------------------------------------------
  // The batch loop
  // ---------------------------------------------------------------------------------------------

  /** An entry of `created_profiles`: the name and the parameters of each phase. */
  datatype Created = Created(name: Value, phase1: Dict, phase2: Dict)

  datatype Batch = Batch(changed: bool, created: seq<Created>, errors: seq<string>, sent: seq<Request>)

  const NoBatch := Batch(false, [], [], [])

  /** `.../config/rsNetFloodProfileTable/{profile_name}` */
  function ProfilePath(dp: string, name: Value): string
  {
    ConfigPath(dp, ProfileTable + "/" + Str(name))
  }

  /** The creating POST: the name column and the first-phase parameters. */
  function CreateRequest(dp: string, name: Value, p1: Dict): Request
  {
    Request(POST, ProfilePath(dp, name), Some(VDict(Update([(NameField, name)], p1))))
  }

  function QuotaRequest(dp: string, name: Value, p2: Dict): Request
  {
    Request(PUT, ProfilePath(dp, name), Some(VDict(p2)))
  }

  /** The second phase of a created profile, when it has parameters: the error it adds, if any. */
  function QuotaPhase(b: Batch, name: Value, p2: Dict, dp: string, net: Net): Batch
  {
    if p2 == [] then b
    else
      var b1 := b.(sent := b.sent + [QuotaRequest(dp, name, p2)]);
      match net(|b.sent|)
      case Raised(e) => b1.(errors := b1.errors + ["Phase 2 exception for profile " + Str(name) + ": " + e])
      case Returned(r) =>
        if r.status == 200 || r.status == 201 then b1
        else b1.(errors := b1.errors + ["Phase 2 error for profile " + Str(name) + ": HTTP " + IntToString(r.status) + " - " + r.text])
  }

  /** One profile of the loop; `Err` when an exception escapes to the module's outer handler:
      parameters that are not a dict, or the `TypeError` of `int()`, which the mapper's
      `except ValueError` does not catch. */
  function ProfileStep(m: FieldMaps, b: Batch, profile: Dict, dp: string, net: Net): Result<Batch>
  {
    var name := GetOr(profile, "name", VNone);
    if !Truthy(name) then Ok(b.(errors := b.errors + ["Profile name is required (use 'name' field)"]))
    else
      var params := GetOr(profile, "params", VDict([]));
      if !params.VDict? then Err(NoItems)
      else match MapParams(m, params.entries)
        case Err(e) =>
          if e == IntArgument then Err(e)
          else Ok(b.(errors := b.errors + ["Validation failed for profile " + Str(name) + ": " + e]))
        case Ok(api) =>
          var p1, p2 := Phase1(api), Phase2(api);
          var b1 := b.(sent := b.sent + [CreateRequest(dp, name, p1)]);
          match net(|b.sent|)
          case Raised(e) => Ok(b1.(errors := b1.errors + ["Phase 1 exception for profile " + Str(name) + ": " + e]))
          case Returned(r) =>
            if r.status != 200 && r.status != 201 then
              Ok(b1.(errors := b1.errors + ["Phase 1 error for profile " + Str(name) + ": HTTP " + IntToString(r.status) + " - " + r.text]))
            else
              var b2 := QuotaPhase(b1, name, p2, dp, net);
              Ok(b2.(changed := true, created := b2.created + [Created(name, p1, p2)]))
  }

  function RunBatch(m: FieldMaps, profiles: seq<Dict>, dp: string, net: Net): Result<Batch>
    decreases |profiles|
  {
    if profiles == [] then Ok(NoBatch)
    else match RunBatch(m, profiles[..|profiles| - 1], dp, net)
      case Err(e) => Err(e)
      case Ok(b) => ProfileStep(m, b, profiles[|profiles| - 1], dp, net)
  }

  lemma {:induction false} RunBatchStaysErr(m: FieldMaps, profiles: seq<Dict>, dp: string, net: Net, i: nat)
    requires i <= |profiles| && RunBatch(m, profiles[..i], dp, net).Err?
    ensures RunBatch(m, profiles, dp, net) == RunBatch(m, profiles[..i], dp, net)
    decreases |profiles| - i
  {
    if i < |profiles| {
      assert profiles[..i + 1][..i] == profiles[..i];
      RunBatchStaysErr(m, profiles, dp, net, i + 1);
    } else {
      assert profiles[..i] == profiles;
    }
  }

  method RunBatchLoop(m: FieldMaps, profiles: seq<Dict>, dp: string, net: Net) returns (r: Result<Batch>)
    ensures r == RunBatch(m, profiles, dp, net)
  {
    var b := NoBatch;
    var i := 0;
    while i < |profiles|
      invariant 0 <= i <= |profiles|
      invariant RunBatch(m, profiles[..i], dp, net) == Ok(b)
    {
      assert profiles[..i + 1][..i] == profiles[..i];
      var step := ProfileStep(m, b, profiles[i], dp, net);
      if step.Err? {
        RunBatchStaysErr(m, profiles, dp, net, i + 1);
        return step;
      }
      b := step.value;
      i := i + 1;
    }
    assert profiles[..i] == profiles;
    return Ok(b);
  }

  /** The second phase sends at most one request and adds at most one error; it changes
      nothing else. */
  lemma QuotaPhaseAccounts(b: Batch, name: Value, p2: Dict, dp: string, net: Net)
    ensures var q := QuotaPhase(b, name, p2, dp, net);
      q.created == b.created && q.changed == b.changed &&
      (p2 == [] ==> q == b) &&
      (p2 != [] ==> q.sent == b.sent + [QuotaRequest(dp, name, p2)] &&
                    (|q.errors| == |b.errors| + 1 <==> !(net(|b.sent|).Returned? && net(|b.sent|).reply.status in {200, 201})) &&
                    |b.errors| <= |q.errors| <= |b.errors| + 1)
  {
  }

  /** One profile: without a name or with a rejected value it adds one error and sends nothing.
      Otherwise it sends its creating POST with the first-phase columns; when that is refused
      or raises, one error and nothing else; when it succeeds, the profile is created and
      `changed` set, whatever the quota PUT (sent only when there are second-phase columns)
      then does. */
  lemma ProfileStepOutcome(m: FieldMaps, b: Batch, profile: Dict, dp: string, net: Net)
    requires ProfileStep(m, b, profile, dp, net).Ok?
    ensures var s := ProfileStep(m, b, profile, dp, net).value;
      var name, params := GetOr(profile, "name", VNone), GetOr(profile, "params", VDict([]));
      if !Truthy(name) || MapParams(m, params.entries).Err? then
        s == b.(errors := s.errors) && |s.errors| == |b.errors| + 1
      else
        var api := MapParams(m, params.entries).value;
        var o := net(|b.sent|);
        |s.sent| > |b.sent| && s.sent[..|b.sent| + 1] == b.sent + [CreateRequest(dp, name, Phase1(api))] &&
        (if o.Returned? && o.reply.status in {200, 201} then
           s.created == b.created + [Created(name, Phase1(api), Phase2(api))] && s.changed &&
           |b.errors| <= |s.errors| <= |b.errors| + 1 &&
           |s.sent| == |b.sent| + (if Phase2(api) == [] then 1 else 2)
         else
           s.created == b.created && s.changed == b.changed && |s.errors| == |b.errors| + 1 && |s.sent| == |b.sent| + 1)
  {
    var name := GetOr(profile, "name", VNone);
    var params := GetOr(profile, "params", VDict([]));
    if Truthy(name) && params.VDict? && MapParams(m, params.entries).Ok? {
      var api := MapParams(m, params.entries).value;
      var b1 := b.(sent := b.sent + [CreateRequest(dp, name, Phase1(api))]);
      QuotaPhaseAccounts(b1, name, Phase2(api), dp, net);
    }
  }

  /** The profile loop stops the run exactly on an escaping exception: parameters that are not
      a dict, or the `TypeError` of `int()`. */
  lemma ProfileStepRaises(m: FieldMaps, b: Batch, profile: Dict, dp: string, net: Net)
    ensures var name, params := GetOr(profile, "name", VNone), GetOr(profile, "params", VDict([]));
      ProfileStep(m, b, profile, dp, net).Err? <==>
      Truthy(name) && (!params.VDict? || (MapParams(m, params.entries).Err? && MapParams(m, params.entries).msg == IntArgument))
  {
  }

  /** Every profile is created at most once and adds at most one error from its creation and
      one from its quotas; a profile that is not created adds an error; `changed` is set
      exactly when some profile was created; at most two requests are sent per profile. */
  lemma {:induction false} BatchAccounts(m: FieldMaps, profiles: seq<Dict>, dp: string, net: Net)
    requires RunBatch(m, profiles, dp, net).Ok?
    ensures var b := RunBatch(m, profiles, dp, net).value;
      |b.created| <= |profiles| && |profiles| - |b.created| <= |b.errors| <= |profiles| &&
      (b.changed <==> b.created != []) && |b.sent| <= 2 * |profiles|
    decreases |profiles|
  {
    if profiles != [] {
      var init := profiles[..|profiles| - 1];
      BatchAccounts(m, init, dp, net);
      ProfileStepOutcome(m, RunBatch(m, init, dp, net).value, profiles[|profiles| - 1], dp, net);
    }
  }

  // ---------------------------------------------------------------------------------------------
  // The module run
  // ---------------------------------------------------------------------------------------------

  datatype Planned = Planned(profileName: Value, params: Value)

  datatype Summary = Summary(successful: nat, attempted: nat, errorsCount: nat)

  datatype RunResult =
    | Preview(changed: bool, planned: seq<Planned>, message: string)
    | Applied(failed: bool, msg: string, changed: bool, batch: Batch, summary: Summary)
    | Crashed(msg: string)

  /** The preview's `planned_operations`. */
  function Plan(profiles: seq<Dict>): seq<Planned>
  {
    seq(|profiles|, i requires 0 <= i < |profiles| =>
      Planned(GetOr(profiles[i], "name", VStr("unnamed_profile")), GetOr(profiles[i], "params", VDict([]))))
  }

  function Finish(b: Batch, attempted: nat): RunResult
  {
    var n := |b.errors|;
    Applied(n != 0, if n != 0 then "BDoS profile creation completed with " + IntToString(n) + " error(s)." else "",
            b.changed, b, Summary(|b.created|, attempted, n))
  }

  function Run(m: FieldMaps, profiles: seq<Dict>, checkMode: bool, dp: string, net: Net): RunResult
  {
    if checkMode then
      Preview(profiles != [], Plan(profiles), if profiles == [] then "No BDoS profiles configured for creation" else "")
    else match RunBatch(m, profiles, dp, net)
      case Err(e) => Crashed("BDoS profile creation failed: " + e)
      case Ok(b) => Finish(b, |profiles|)
  }

  method RunModule(profiles: seq<Dict>, checkMode: bool, dp: string, net: Net) returns (r: RunResult)
    ensures r == Run(CreateMaps, profiles, checkMode, dp, net)
  {
    if checkMode {
      return Preview(profiles != [], Plan(profiles), if profiles == [] then "No BDoS profiles configured for creation" else "");
    }
    var b := RunBatchLoop(CreateMaps, profiles, dp, net);
    if b.Err? {
      return Crashed("BDoS profile creation failed: " + b.msg);
    }
    r := Finish(b.value, |profiles|);
  }

  /** Preview sends nothing and reports a change iff profiles are listed, one planned entry
      each; an applied run fails iff some error was recorded, reports a change iff some profile
      was created, and every profile not created is accounted for by an error. */
  lemma RunOutcome(m: FieldMaps, profiles: seq<Dict>, checkMode: bool, dp: string, net: Net)
    ensures var r := Run(m, profiles, checkMode, dp, net);
      (checkMode ==> r.Preview? && (r.changed <==> profiles != []) && |r.planned| == |profiles|) &&
      (r.Applied? ==> (r.failed <==> r.batch.errors != []) && (r.changed <==> r.batch.created != []) &&
                      r.summary.successful <= r.summary.attempted == |profiles| <=
                      r.summary.successful + r.summary.errorsCount && |r.batch.sent| <= 2 * |profiles|)
  {
    if !checkMode && RunBatch(m, profiles, dp, net).Ok? {
      BatchAccounts(m, profiles, dp, net);
    }
  }
}

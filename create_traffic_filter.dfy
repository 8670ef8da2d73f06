/** Creation of Traffic Filter profiles and of the filters ("protections") attached to them
    (plugins/modules/create_traffic_filter.py).  Outside check mode every listed profile is
    POSTed to `rsNewTrafficProfileTable`, then every listed filter to `rsNewTrafficFilterTable`;
    the first exception ends the module with its message and nothing reported as created.  Check
    mode sends nothing. */
module CreateTrafficFilter {
  import opened Py
  import opened Http
  import opened Tables
  import GetTrafficFilter
  import opened TrafficFilterRun

  // ---------------------------------------------------------------------------------------------
  // A profile
  // ---------------------------------------------------------------------------------------------

  /** The action code: "1" for `report_only`, which is also the default, "0" for anything else. */
  function ActionCode(profile: Dict): string
  {
    if GetOr(profile, "action", VStr("report_only")) == VStr("report_only") then "1" else "0"
  }

  function ProfileRequest(dp: string, name: Value, action: string, render: Value -> string): Request
  {
    Request(POST, ConfigPath(dp, ProfileTable + "/" + render(name)),
            Some(VDict([("rsNewTrafficProfileName", name), ("rsNewTrafficProfileAction", VStr(action))])))
  }

  // ---------------------------------------------------------------------------------------------
  // A filter: `map_protection_parameters`
  // ---------------------------------------------------------------------------------------------

  /** `TCP_FLAGS_MAP.get(v, '2')`; a list or dict cannot be looked up. */
  function FlagCode(v: Value): Result<Value>
  {
    if !Hashable(v) then Err(Unhashable)
    else if v == VStr("enabled") then Ok(VStr("2"))
    else if v == VStr("disabled") then Ok(VStr("1"))
    else Ok(VStr("2"))
  }

  /** `PACKET_REPORT_MAP.get(v, '1')`. */
  function ReportCode(v: Value): Result<Value>
  {
    if !Hashable(v) then Err(Unhashable)
    else if v == VStr("enabled") then Ok(VStr("1"))
    else if v == VStr("disabled") then Ok(VStr("2"))
    else Ok(VStr("1"))
  }

  /** A TCP flag of the item, `enabled` when absent. */
  function Flag(prot: Dict, key: string): Result<Value>
  {
    FlagCode(GetOr(prot, key, VStr("enabled")))
  }

  /** `'0'` for `any` (the default), `'2'` for `tcp`, `'3'` for anything else. */
  function ProtocolCode(prot: Dict): Value
  {
    if GetOr(prot, "protocol", VStr("any")) == VStr("any") then VStr("0")
    else if GetOr(prot, "protocol", VNone) == VStr("tcp") then VStr("2")
    else VStr("3")
  }

  /** `str(prot.get(key, default))` */
  function StrOf(prot: Dict, key: string, default: string): Value
  {
    VStr(Str(GetOr(prot, key, VStr(default))))
  }

  /** The filter's row, given the names already read from the item; the first flag or report
      value that cannot be looked up raises. */
  function FilterRow(prot: Dict, profile: Value, protection: Value): Result<Dict>
  {
    var syn := Flag(prot, "tcp_syn");
    var ack := Flag(prot, "tcp_ack");
    var rst := Flag(prot, "tcp_rst");
    var synAck := Flag(prot, "tcp_synack");
    var finAck := Flag(prot, "tcp_finack");
    var pshAck := Flag(prot, "tcp_pshack");
    var report := ReportCode(GetOr(prot, "packet_report", VStr("enabled")));
    if syn.Err? || ack.Err? || rst.Err? || synAck.Err? || finAck.Err? || pshAck.Err? || report.Err? then Err(Unhashable)
    else Ok([
      ("rsNewTrafficFilterProfileName", profile),
      ("rsNewTrafficFilterName", protection),
      ("rsNewTrafficFilterMatchCriteria", GetOr(prot, "match_criteria", VStr("1"))),
      ("rsNewTrafficFilterProtocol", ProtocolCode(prot)),
      ("rsNewTrafficFilterPacketSize", GetOr(prot, "packet_size", VStr(""))),
      ("rsNewTrafficFilterTCPFlagsSyn", syn.value),
      ("rsNewTrafficFilterTCPFlagsAck", ack.value),
      ("rsNewTrafficFilterTCPFlagsRst", rst.value),
      ("rsNewTrafficFilterTCPFlagsSynAck", synAck.value),
      ("rsNewTrafficFilterTCPFlagsFinAck", finAck.value),
      ("rsNewTrafficFilterTCPFlagsPshAck", pshAck.value),
      ("rsNewTrafficFilterThresholdPPS", StrOf(prot, "threshold_pps", "10000")),
      ("rsNewTrafficFilterThresholdBPS", StrOf(prot, "threshold_bps", "0")),
      ("rsNewTrafficFilterPacketReport", report.value),
      ("rsNewTrafficFilterThresholdUsed", StrOf(prot, "threshold_used", "2")),
      ("rsNewTrafficFilterAttackTrackingType", StrOf(prot, "attack_tracking_type", "0")),
      ("rsNewTrafficFilterCustomProtocol", GetOr(prot, "custom_protocol", VStr("")))])
  }

  /** The columns of a filter row, in the source's order. */
  const FilterColumns := [
    "rsNewTrafficFilterProfileName", "rsNewTrafficFilterName", "rsNewTrafficFilterMatchCriteria",
    "rsNewTrafficFilterProtocol", "rsNewTrafficFilterPacketSize", "rsNewTrafficFilterTCPFlagsSyn",
    "rsNewTrafficFilterTCPFlagsAck", "rsNewTrafficFilterTCPFlagsRst", "rsNewTrafficFilterTCPFlagsSynAck",
    "rsNewTrafficFilterTCPFlagsFinAck", "rsNewTrafficFilterTCPFlagsPshAck", "rsNewTrafficFilterThresholdPPS",
    "rsNewTrafficFilterThresholdBPS", "rsNewTrafficFilterPacketReport", "rsNewTrafficFilterThresholdUsed",
    "rsNewTrafficFilterAttackTrackingType", "rsNewTrafficFilterCustomProtocol"]

  /** No column is named twice. */
  lemma ColumnsDistinct()
    ensures forall i, j :: 0 <= i < j < |FilterColumns| ==> FilterColumns[i] != FilterColumns[j]
  {
  }

  // ---------------------------------------------------------------------------------------------
  // What the codes mean
  // ---------------------------------------------------------------------------------------------

  /** A profile's action is "1" exactly when it is `report_only` or not given. */
  lemma ActionCodes(profile: Dict)
    ensures ActionCode(profile) == "1" <==> Get(profile, "action") in {None, Some(VStr("report_only"))}
    ensures ActionCode(profile) != "1" ==> ActionCode(profile) == "0"
  {
  }

  /** A TCP flag is "1" exactly for `disabled`, and "2" for `enabled` and every other value that
      can be looked up; only a list or dict raises. */
  lemma FlagCodes(v: Value)
    ensures FlagCode(v).Err? <==> v.VList? || v.VDict?
    ensures FlagCode(v).Ok? ==> FlagCode(v).value == VStr(if v == VStr("disabled") then "1" else "2")
    ensures FlagCode(VStr("enabled")) == Ok(VStr("2"))
  {
  }

  /** The packet report is "2" exactly for `disabled`, and "1" for `enabled` and every other value
      that can be looked up; only a list or dict raises. */
  lemma ReportCodes(v: Value)
    ensures ReportCode(v).Err? <==> v.VList? || v.VDict?
    ensures ReportCode(v).Ok? ==> ReportCode(v).value == VStr(if v == VStr("disabled") then "2" else "1")
    ensures ReportCode(VStr("enabled")) == Ok(VStr("1"))
  {
  }

  /** The protocol is "0" when absent or `any`, "2" for `tcp` and "3" for anything else. */
  lemma ProtocolCodes(prot: Dict)
    ensures ProtocolCode(prot) == VStr("0") <==> Get(prot, "protocol") in {None, Some(VStr("any"))}
    ensures ProtocolCode(prot) == VStr("2") <==> Get(prot, "protocol") == Some(VStr("tcp"))
    ensures ProtocolCode(prot) in {VStr("0"), VStr("2"), VStr("3")}
  {
  }

  /** The item's values that a table looks up: the six TCP flags and the packet report. */
  function LookedUp(prot: Dict): seq<Value>
  {
    [GetOr(prot, "tcp_syn", VStr("enabled")), GetOr(prot, "tcp_ack", VStr("enabled")),
     GetOr(prot, "tcp_rst", VStr("enabled")), GetOr(prot, "tcp_synack", VStr("enabled")),
     GetOr(prot, "tcp_finack", VStr("enabled")), GetOr(prot, "tcp_pshack", VStr("enabled")),
     GetOr(prot, "packet_report", VStr("enabled"))]
  }

  /** The row raises exactly when a flag or the packet report is a list or dict. */
  lemma FilterRowRaises(prot: Dict, profile: Value, protection: Value)
    ensures FilterRow(prot, profile, protection).Err? <==> exists i :: 0 <= i < 7 && !Hashable(LookedUp(prot)[i])
  {
    var l := LookedUp(prot);
    if FilterRow(prot, profile, protection).Err? {
      assert !Hashable(l[0]) || !Hashable(l[1]) || !Hashable(l[2]) || !Hashable(l[3]) ||
             !Hashable(l[4]) || !Hashable(l[5]) || !Hashable(l[6]);
    }
  }

  /** Every row holds all seventeen columns, each once, in the source's order. */
  lemma FilterRowKeys(prot: Dict, profile: Value, protection: Value)
    requires FilterRow(prot, profile, protection).Ok?
    ensures Keys(FilterRow(prot, profile, protection).value) == FilterColumns
    ensures UniqueKeys(FilterRow(prot, profile, protection).value)
  {
    var r := FilterRow(prot, profile, protection).value;
    KeysLength(r);
    assert forall i :: 0 <= i < |r| ==> r[i].0 == FilterColumns[i];
    ColumnsDistinct();
  }

  /** A row holds the item's two names, the protocol code, the thresholds as strings (10000 and
      0 by default), `threshold_used` as a string ("2" by default) and the tracking type as a
      string ("0" by default). */
  lemma FilterRowValues(prot: Dict, profile: Value, protection: Value)
    requires FilterRow(prot, profile, protection).Ok?
    ensures var r := FilterRow(prot, profile, protection).value;
      Get(r, "rsNewTrafficFilterProfileName") == Some(profile) &&
      Get(r, "rsNewTrafficFilterName") == Some(protection) &&
      Get(r, "rsNewTrafficFilterProtocol") == Some(ProtocolCode(prot)) &&
      Get(r, "rsNewTrafficFilterThresholdPPS") == Some(StrOf(prot, "threshold_pps", "10000")) &&
      Get(r, "rsNewTrafficFilterThresholdBPS") == Some(StrOf(prot, "threshold_bps", "0")) &&
      Get(r, "rsNewTrafficFilterThresholdUsed") == Some(StrOf(prot, "threshold_used", "2")) &&
      Get(r, "rsNewTrafficFilterAttackTrackingType") == Some(StrOf(prot, "attack_tracking_type", "0"))
  {
    var r := FilterRow(prot, profile, protection).value;
    FilterRowKeys(prot, profile, protection);
    GetUnique(r, 0);
    GetUnique(r, 1);
    GetUnique(r, 3);
    GetUnique(r, 11);
    GetUnique(r, 12);
    GetUnique(r, 14);
    GetUnique(r, 15);
  }

  // ---------------------------------------------------------------------------------------------
  // Reading the codes back (plugins/modules/get_traffic_filter.py)
  // ---------------------------------------------------------------------------------------------

  /** A created profile's action always reads back as `report_only`, whatever action was given
      (`drop` included). */
  lemma ActionReadBack(profile: Dict)
    ensures Lookup(GetTrafficFilter.ActionWords, VStr(ActionCode(profile))) == Ok(VStr("report_only"))
  {
    GetTrafficFilter.ActionReadBack(ActionCode(profile));
  }

  /** A filter's protocol reads back as `any` when it was `any` or absent, but `tcp` reads back
      as `udp` and every other protocol as `icmp`: the two modules' code tables disagree. */
  lemma ProtocolReadBack(prot: Dict)
    ensures Lookup(GetTrafficFilter.ProtocolWords, ProtocolCode(prot)) ==
      Ok(VStr(if Get(prot, "protocol") in {None, Some(VStr("any"))} then "any"
              else if Get(prot, "protocol") == Some(VStr("tcp")) then "udp" else "icmp"))
  {
    ProtocolCodes(prot);
    var t := GetTrafficFilter.ProtocolWords;
    GetAt(t, 0, "0");
    GetAt(t, 2, "2");
    GetAt(t, 3, "3");
  }

  /** A TCP flag reads back inverted: `disabled` as `enabled`, and `enabled` (or any other
      value) as `disabled`. */
  lemma FlagReadBack(v: Value)
    requires Hashable(v)
    ensures Lookup(GetTrafficFilter.EnabledDisabledWords, FlagCode(v).value) ==
      Ok(VStr(if v == VStr("disabled") then "enabled" else "disabled"))
  {
    FlagCodes(v);
    GetAt(GetTrafficFilter.EnabledDisabledWords, 0, "1");
    GetAt(GetTrafficFilter.EnabledDisabledWords, 1, "2");
  }

  /** The packet report reads back as given: `disabled` as `disabled`, `enabled` (or any other
      value) as `enabled`. */
  lemma ReportReadBack(v: Value)
    requires Hashable(v)
    ensures Lookup(GetTrafficFilter.EnabledDisabledWords, ReportCode(v).value) ==
      Ok(VStr(if v == VStr("disabled") then "disabled" else "enabled"))
  {
    ReportCodes(v);
    GetAt(GetTrafficFilter.EnabledDisabledWords, 0, "1");
    GetAt(GetTrafficFilter.EnabledDisabledWords, 1, "2");
  }

  // ---------------------------------------------------------------------------------------------
  // The run: profiles, then filters
  // ---------------------------------------------------------------------------------------------

  /** `profile['profile_name']` and the POST of the profile. */
  function ProfileJob(profile: Value, dp: string, render: Value -> string): Result<Job>
  {
    match Subscript(profile, "profile_name")
    case Err(e) => Err(e)
    case Ok(name) => Ok(Job(ProfileRequest(dp, name, ActionCode(profile.entries), render), ProfileLabel(name)))
  }

  function FilterRequest(dp: string, profile: Value, protection: Value, row: Dict, render: Value -> string): Request
  {
    Request(POST, ConfigPath(dp, FilterTable + "/" + render(profile) + "/" + render(protection)), Some(VDict(row)))
  }

  /** `prot['profile_name']`, `prot['protection_name']`, the row and the POST of the filter. */
  function FilterJob(prot: Value, dp: string, render: Value -> string): Result<Job>
  {
    match Subscript(prot, "profile_name")
    case Err(e) => Err(e)
    case Ok(profile) =>
      match Subscript(prot, "protection_name")
      case Err(e) => Err(e)
      case Ok(protection) =>
        match FilterRow(prot.entries, profile, protection)
        case Err(e) => Err(e)
        case Ok(row) => Ok(Job(FilterRequest(dp, profile, protection, row, render), FilterLabel(profile, protection)))
  }

  function ProfileJobs(profiles: seq<Value>, dp: string, render: Value -> string): (r: seq<Result<Job>>)
    ensures |r| == |profiles|
  {
    seq(|profiles|, i requires 0 <= i < |profiles| => ProfileJob(profiles[i], dp, render))
  }

  function FilterJobs(prots: seq<Value>, dp: string, render: Value -> string): (r: seq<Result<Job>>)
    ensures |r| == |prots|
  {
    seq(|prots|, i requires 0 <= i < |prots| => FilterJob(prots[i], dp, render))
  }

  function Run(profiles: seq<Value>, prots: seq<Value>, checkMode: bool, dp: string, net: Net, render: Value -> string := Str): RunResult
  {
    if checkMode then Done(false, [], [], [])
    else match Perform(Start, ProfileJobs(profiles, dp, render) + FilterJobs(prots, dp, render), net)
      case Aborted(m, sent) => Failed(m, sent)
      case Going(t) => Done(t.profiles != [] || t.filters != [], t.profiles, t.filters, t.sent)
  }

  /** Step 1: the profiles' loop. */
  method ProfilesLoop(profiles: seq<Value>, dp: string, net: Net) returns (r: Progress)
    ensures r == Perform(Start, ProfileJobs(profiles, dp, Str), net)
  {
    var jobs := ProfileJobs(profiles, dp, Str);
    var s := Start;
    var i := 0;
    while i < |profiles|
      invariant 0 <= i <= |profiles|
      invariant Perform(Start, jobs[..i], net) == Going(s)
    {
      assert jobs[..i + 1][..i] == jobs[..i];
      var job := ProfileJob(profiles[i], dp, Str);
      assert job == jobs[i];
      r := StepOne(s, job, net);
      if r.Aborted? {
        PerformStaysAborted(Start, jobs, net, i + 1);
        return;
      }
      s := r.state;
      i := i + 1;
    }
    assert jobs[..i] == jobs;
    r := Going(s);
  }

  /** Step 2: the filters' loop, from where the profiles left off. */
  method FiltersLoop(s0: State, prots: seq<Value>, dp: string, net: Net) returns (r: Progress)
    ensures r == Perform(s0, FilterJobs(prots, dp, Str), net)
  {
    var jobs := FilterJobs(prots, dp, Str);
    var s := s0;
    var k := 0;
    while k < |prots|
      invariant 0 <= k <= |prots|
      invariant Perform(s0, jobs[..k], net) == Going(s)
    {
      assert jobs[..k + 1][..k] == jobs[..k];
      var job := FilterJob(prots[k], dp, Str);
      assert job == jobs[k];
      r := StepOne(s, job, net);
      if r.Aborted? {
        PerformStaysAborted(s0, jobs, net, k + 1);
        return;
      }
      s := r.state;
      k := k + 1;
    }
    assert jobs[..k] == jobs;
    r := Going(s);
  }

  method RunModule(profiles: seq<Value>, prots: seq<Value>, checkMode: bool, dp: string, net: Net) returns (r: RunResult)
    ensures r == Run(profiles, prots, checkMode, dp, net)
  {
    if checkMode {
      return Done(false, [], [], []);
    }
    PerformAppend(Start, ProfileJobs(profiles, dp, Str), FilterJobs(prots, dp, Str), net);
    var p := ProfilesLoop(profiles, dp, net);
    if p.Aborted? {
      return Failed(p.msg, p.sent);
    }
    var q := FiltersLoop(p.state, prots, dp, net);
    if q.Aborted? {
      return Failed(q.msg, q.sent);
    }
    var t := q.state;
    r := Done(t.profiles != [] || t.filters != [], t.profiles, t.filters, t.sent);
  }

  /** A profile is read exactly when it has a `profile_name`, and then its POST goes to
      `rsNewTrafficProfileTable/{name}` and creates a profile entry under that name. */
  lemma ProfileJobOutcome(profile: Value, dp: string, render: Value -> string)
    ensures ProfileJob(profile, dp, render).Err? <==> Subscript(profile, "profile_name").Err?
    ensures ProfileJob(profile, dp, render).Ok? ==>
      var name := Subscript(profile, "profile_name").value;
      var j := ProfileJob(profile, dp, render).value;
      j.item == ProfileLabel(name) && j.request.verb == POST &&
      j.request.path == ConfigPath(dp, ProfileTable) + "/" + render(name)
  {
    assert ConfigPath(dp, ProfileTable) + "/" + render(VNone) == ConfigPath(dp, ProfileTable + "/" + render(VNone));
    if ProfileJob(profile, dp, render).Ok? {
      var name := Subscript(profile, "profile_name").value;
      assert ConfigPath(dp, ProfileTable) + "/" + render(name) == ConfigPath(dp, ProfileTable + "/" + render(name));
    }
  }

  /** A filter is read exactly when it has both names and its flags and packet report can be
      looked up; its POST then goes to `rsNewTrafficFilterTable/{profile}/{protection}` with
      the full row and creates a filter entry under the two names. */
  lemma FilterJobOutcome(prot: Value, dp: string, render: Value -> string)
    ensures FilterJob(prot, dp, render).Ok? <==>
      Subscript(prot, "profile_name").Ok? && Subscript(prot, "protection_name").Ok? &&
      forall i :: 0 <= i < 7 ==> Hashable(LookedUp(prot.entries)[i])
    ensures FilterJob(prot, dp, render).Ok? ==>
      var profile := Subscript(prot, "profile_name").value;
      var protection := Subscript(prot, "protection_name").value;
      var j := FilterJob(prot, dp, render).value;
      j.item == FilterLabel(profile, protection) && j.request.verb == POST &&
      j.request.path == ConfigPath(dp, FilterTable) + "/" + render(profile) + "/" + render(protection) &&
      j.request.body == Some(VDict(FilterRow(prot.entries, profile, protection).value))
  {
    if Subscript(prot, "profile_name").Ok? && Subscript(prot, "protection_name").Ok? {
      var profile := Subscript(prot, "profile_name").value;
      var protection := Subscript(prot, "protection_name").value;
      FilterRowRaises(prot.entries, profile, protection);
      assert ConfigPath(dp, FilterTable) + "/" + render(profile) + "/" + render(protection) ==
        ConfigPath(dp, FilterTable + "/" + render(profile) + "/" + render(protection));
    }
  }

  /** Profile items only create profiles, filter items only filters. */
  lemma JobsKinds(profiles: seq<Value>, prots: seq<Value>, dp: string, render: Value -> string)
    ensures AllProfiles(ProfileJobs(profiles, dp, render))
    ensures AllFilters(FilterJobs(prots, dp, render))
  {
  }

  /** Check mode sends nothing and reports no change.  Otherwise the module completes exactly
      when every item is read and every POST answered with JSON; it has then POSTed every
      profile and then every filter, in order, recorded each with the reply to its own POST, and
      reports a change exactly when there was an item. */
  lemma RunDone(profiles: seq<Value>, prots: seq<Value>, checkMode: bool, dp: string, net: Net, render: Value -> string)
    ensures checkMode ==> Run(profiles, prots, checkMode, dp, net, render) == Done(false, [], [], [])
    ensures !checkMode ==>
      (Run(profiles, prots, checkMode, dp, net, render).Done? <==>
       Clear(ProfileJobs(profiles, dp, render), net, 0) && Clear(FilterJobs(prots, dp, render), net, |profiles|))
    ensures !checkMode && Run(profiles, prots, checkMode, dp, net, render).Done? ==>
      var r := Run(profiles, prots, checkMode, dp, net, render);
      var pj := ProfileJobs(profiles, dp, render);
      var fj := FilterJobs(prots, dp, render);
      r.sent == Requests(pj) + Requests(fj) &&
      r.profiles == Records(pj, net, 0) && r.filters == Records(fj, net, |profiles|) &&
      (r.changed <==> |profiles| + |prots| > 0)
  {
    if !checkMode {
      var pj := ProfileJobs(profiles, dp, render);
      var fj := FilterJobs(prots, dp, render);
      PerformBothGoing(pj, fj, net);
      if Clear(pj, net, 0) && Clear(fj, net, |pj|) {
        JobsKinds(profiles, prots, dp, render);
        PerformBoth(pj, fj, net);
      }
    }
  }

  /** A run that fails stopped at its first item that could not be read or whose POST raised
      or was not answered with JSON, with that exception's message, after the POSTs of the
      items before it and its own POST if it was read. */
  lemma RunFailed(profiles: seq<Value>, prots: seq<Value>, checkMode: bool, dp: string, net: Net, render: Value -> string) returns (k: nat)
    requires Run(profiles, prots, checkMode, dp, net, render).Failed?
    ensures var jobs := ProfileJobs(profiles, dp, render) + FilterJobs(prots, dp, render);
      !checkMode && k < |jobs| && Clear(jobs[..k], net, 0) && !(jobs[k].Ok? && Answer(net(k)).Ok?) &&
      Run(profiles, prots, checkMode, dp, net, render) ==
        Failed(if jobs[k].Err? then jobs[k].msg else Answer(net(k)).msg,
               Requests(jobs[..k]) + if jobs[k].Ok? then [jobs[k].value.request] else [])
  {
    var jobs := ProfileJobs(profiles, dp, render) + FilterJobs(prots, dp, render);
    PerformGoing(Start, jobs, net);
    k := FirstStop(jobs, net, 0);
    PerformStops(Start, jobs, net, k);
  }
}

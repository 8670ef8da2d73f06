/** Editing of Traffic Filter profiles and of the filters ("protections") attached to them
    (plugins/modules/edit_traffic_filter.py).  Outside check mode every listed profile is PUT to
    `rsNewTrafficProfileTable`, then every listed filter to `rsNewTrafficFilterTable`; the first
    exception ends the module with its message.  Check mode sends nothing. */
module EditTrafficFilter {
  import opened Py
  import opened Http
  import opened Tables
  import GetTrafficFilter
  import opened TrafficFilterRun

  // ---------------------------------------------------------------------------------------------
  // `map_profile_parameters` and `map_protection_parameters`
  // ---------------------------------------------------------------------------------------------

  /** `ACTION_MAP.get(v, "1")`; a list or dict cannot be looked up. */
  function ActionCode(v: Value): Result<Value>
  {
    if !Hashable(v) then Err(Unhashable)
    else if v == VStr("enable") then Ok(VStr("1"))
    else if v == VStr("disable") then Ok(VStr("2"))
    else Ok(VStr("1"))
  }

  /** `PACKET_REPORT_MAP.get(v, "1")`. */
  function ReportCode(v: Value): Result<Value>
  {
    if !Hashable(v) then Err(Unhashable)
    else if v == VStr("enable") then Ok(VStr("1"))
    else if v == VStr("disable") then Ok(VStr("2"))
    else Ok(VStr("1"))
  }

  /** The profile's body: the name given among the params (None when absent) and the action
      code, `enable` when absent.  Params that are not a dict have no `get`. */
  function ProfileBody(params: Value): Result<Dict>
  {
    if !params.VDict? then Err(NoGet)
    else match ActionCode(GetOr(params.entries, "action", VStr("enable")))
      case Err(e) => Err(e)
      case Ok(action) => Ok([("rsNewTrafficProfileName", GetOr(params.entries, "name", VNone)),
                             ("rsNewTrafficProfileAction", action)])
  }

  /** The six columns a filter's params map to, in the source's order. */
  const ParamColumns := [
    "rsNewTrafficFilterMatchCriteria", "rsNewTrafficFilterProtocol", "rsNewTrafficFilterThresholdPPS",
    "rsNewTrafficFilterThresholdBPS", "rsNewTrafficFilterPacketReport", "rsNewTrafficFilterAttackTrackingType"]

  /** The filter's mapped params.  Params that are not a dict have no `get`. */
  function ParamsBody(params: Value): Result<Dict>
  {
    if !params.VDict? then Err(NoGet)
    else
      var p := params.entries;
      match ReportCode(GetOr(p, "packet_report", VStr("enable")))
      case Err(e) => Err(e)
      case Ok(report) => Ok([
        ("rsNewTrafficFilterMatchCriteria", GetOr(p, "match_criteria", VStr("1"))),
        ("rsNewTrafficFilterProtocol", GetOr(p, "protocol", VStr("0"))),
        ("rsNewTrafficFilterThresholdPPS", VStr(Str(GetOr(p, "threshold_pps", VStr("10000"))))),
        ("rsNewTrafficFilterThresholdBPS", VStr(Str(GetOr(p, "threshold_bps", VStr("0"))))),
        ("rsNewTrafficFilterPacketReport", report),
        ("rsNewTrafficFilterAttackTrackingType", GetOr(p, "tracking_type", VStr("0")))])
  }

  /** The mapped params with the item's two names assigned over them. */
  function FilterBody(row: Dict, profile: Value, protection: Value): Dict
  {
    Put(Put(row, "rsNewTrafficFilterProfileName", profile), "rsNewTrafficFilterName", protection)
  }

  // ---------------------------------------------------------------------------------------------
  // What the codes and bodies hold
  // ---------------------------------------------------------------------------------------------

  /** The action is "2" exactly for `disable` and "1" for every other value that can be looked
      up; only a list or dict raises. */
  lemma ActionCodes(v: Value)
    ensures ActionCode(v).Err? <==> v.VList? || v.VDict?
    ensures ActionCode(v).Ok? ==> ActionCode(v).value == VStr(if v == VStr("disable") then "2" else "1")
  {
  }

  /** The packet report is "2" exactly for `disable` and "1" for every other value that can be
      looked up; only a list or dict raises. */
  lemma ReportCodes(v: Value)
    ensures ReportCode(v).Err? <==> v.VList? || v.VDict?
    ensures ReportCode(v).Ok? ==> ReportCode(v).value == VStr(if v == VStr("disable") then "2" else "1")
  {
  }

  /** A profile's params map exactly when they are a dict whose action can be looked up; the
      body then holds the params' own `name` (None when absent), not the item's, and the action
      code. */
  lemma ProfileBodyOutcome(params: Value)
    ensures ProfileBody(params).Ok? <==> params.VDict? && Hashable(GetOr(params.entries, "action", VStr("enable")))
    ensures ProfileBody(params).Ok? ==>
      var b := ProfileBody(params).value;
      var name := Get(params.entries, "name");
      Keys(b) == ["rsNewTrafficProfileName", "rsNewTrafficProfileAction"] &&
      Get(b, "rsNewTrafficProfileName") == Some(if name.Some? then name.value else VNone) &&
      Get(b, "rsNewTrafficProfileAction") == Some(ActionCode(GetOr(params.entries, "action", VStr("enable"))).value)
  {
    if ProfileBody(params).Ok? {
      var b := ProfileBody(params).value;
      KeysLength(b);
      GetAt(b, 0, "rsNewTrafficProfileName");
      GetAt(b, 1, "rsNewTrafficProfileAction");
    }
  }

  /** A filter's params map exactly when they are a dict whose packet report can be looked up;
      the result then holds the six columns, each once, in the source's order. */
  lemma ParamsBodyKeys(params: Value)
    ensures ParamsBody(params).Ok? <==> params.VDict? && Hashable(GetOr(params.entries, "packet_report", VStr("enable")))
    ensures ParamsBody(params).Ok? ==> Keys(ParamsBody(params).value) == ParamColumns && UniqueKeys(ParamsBody(params).value)
  {
    if ParamsBody(params).Ok? {
      var b := ParamsBody(params).value;
      KeysLength(b);
      assert forall i :: 0 <= i < |b| ==> b[i].0 == ParamColumns[i];
    }
  }

  /** The mapped params take the defaults 1, 0, 10000, 0, enable and 0; the thresholds are sent
      as strings, the other values as given. */
  lemma ParamsBodyValues(params: Value)
    requires ParamsBody(params).Ok?
    ensures var b := ParamsBody(params).value;
      var p := params.entries;
      Get(b, "rsNewTrafficFilterMatchCriteria") == Some(GetOr(p, "match_criteria", VStr("1"))) &&
      Get(b, "rsNewTrafficFilterProtocol") == Some(GetOr(p, "protocol", VStr("0"))) &&
      Get(b, "rsNewTrafficFilterThresholdPPS") == Some(VStr(Str(GetOr(p, "threshold_pps", VStr("10000"))))) &&
      Get(b, "rsNewTrafficFilterThresholdBPS") == Some(VStr(Str(GetOr(p, "threshold_bps", VStr("0"))))) &&
      Get(b, "rsNewTrafficFilterPacketReport") == Some(ReportCode(GetOr(p, "packet_report", VStr("enable"))).value) &&
      Get(b, "rsNewTrafficFilterAttackTrackingType") == Some(GetOr(p, "tracking_type", VStr("0")))
  {
    var b := ParamsBody(params).value;
    ParamsBodyKeys(params);
    GetUnique(b, 0);
    GetUnique(b, 1);
    GetUnique(b, 2);
    GetUnique(b, 3);
    GetUnique(b, 4);
    GetUnique(b, 5);
  }

  /** The body sent for a filter is the six mapped columns followed by the item's profile and
      filter names, which always come from the item. */
  lemma FilterBodyNames(row: Dict, profile: Value, protection: Value)
    requires Keys(row) == ParamColumns
    ensures Keys(FilterBody(row, profile, protection)) == ParamColumns + ["rsNewTrafficFilterProfileName", "rsNewTrafficFilterName"]
    ensures Get(FilterBody(row, profile, protection), "rsNewTrafficFilterProfileName") == Some(profile)
    ensures Get(FilterBody(row, profile, protection), "rsNewTrafficFilterName") == Some(protection)
    ensures forall c :: c in ParamColumns ==> Get(FilterBody(row, profile, protection), c) == Get(row, c)
  {
    var once := Put(row, "rsNewTrafficFilterProfileName", profile);
    KeysPut(row, "rsNewTrafficFilterProfileName", profile);
    KeysPut(once, "rsNewTrafficFilterName", protection);
    GetPut(once, "rsNewTrafficFilterName", protection, "rsNewTrafficFilterProfileName");
    GetPut(row, "rsNewTrafficFilterProfileName", profile, "rsNewTrafficFilterProfileName");
    GetPut(once, "rsNewTrafficFilterName", protection, "rsNewTrafficFilterName");
    forall c | c in ParamColumns ensures Get(FilterBody(row, profile, protection), c) == Get(row, c) {
      GetPut(once, "rsNewTrafficFilterName", protection, c);
      GetPut(row, "rsNewTrafficFilterProfileName", profile, c);
    }
  }

  /** An edited profile's action reads back as `report_only` when it was `enable` (or absent or
      unknown), but `disable` sends "2", which the get module's table does not know and shows
      as the raw code. */
  lemma ActionReadBack(v: Value)
    requires Hashable(v)
    ensures Lookup(GetTrafficFilter.ActionWords, ActionCode(v).value) ==
      Ok(VStr(if v == VStr("disable") then "2" else "report_only"))
  {
    ActionCodes(v);
    GetTrafficFilter.ActionReadBack(if v == VStr("disable") then "2" else "1");
  }

  // ---------------------------------------------------------------------------------------------
  // The run: profiles, then filters
  // ---------------------------------------------------------------------------------------------

  /** `profile["name"]`, its mapped `params` (an empty dict when absent) and the PUT. */
  function ProfileJob(profile: Value, dp: string, render: Value -> string): Result<Job>
  {
    match Subscript(profile, "name")
    case Err(e) => Err(e)
    case Ok(name) =>
      match ProfileBody(GetOr(profile.entries, "params", VDict([])))
      case Err(e) => Err(e)
      case Ok(body) => Ok(Job(Request(PUT, ConfigPath(dp, ProfileTable + "/" + render(name)), Some(VDict(body))),
                              ProfileLabel(name)))
  }

  /** `prot["profile_name"]`, `prot["name"]`, its mapped `params` with the two names assigned,
      and the PUT. */
  function FilterJob(prot: Value, dp: string, render: Value -> string): Result<Job>
  {
    match Subscript(prot, "profile_name")
    case Err(e) => Err(e)
    case Ok(profile) =>
      match Subscript(prot, "name")
      case Err(e) => Err(e)
      case Ok(protection) =>
        match ParamsBody(GetOr(prot.entries, "params", VDict([])))
        case Err(e) => Err(e)
        case Ok(row) =>
          Ok(Job(Request(PUT, ConfigPath(dp, FilterTable + "/" + render(profile) + "/" + render(protection)),
                         Some(VDict(FilterBody(row, profile, protection)))),
                 FilterLabel(profile, protection)))
  }

  function ProfileJobs(profiles: seq<Value>, dp: string, render: Value -> string): (r: seq<Result<Job>>)
    ensures |r| == |profiles|
  {
    seq(|profiles|, i requires 0 <= i < |profiles| => ProfileJob(profiles[i], dp, render))
  }

  function FilterJobs(prots: seq<Value>, dp: string, render: Value -> string): (r: seq<Result<Job>>)
    ensures |r| == |prots|
  {
    seq(|prots|, i requires 0 <= i < |prots| => FilterJob(prots[i], dp, render))
  }

  /** The run as the handler means it: `fail_json` with the exception's message and `changed`
      false whatever was edited before, or `exit_json` with whether anything was edited and the two
      lists. */
  function Intended(profiles: seq<Value>, prots: seq<Value>, checkMode: bool, dp: string, net: Net, render: Value -> string := Str): RunResult
  {
    if checkMode then Done(false, [], [], [])
    else match Perform(Start, ProfileJobs(profiles, dp, render) + FilterJobs(prots, dp, render), net)
      case Aborted(m, sent) => Failed(m, sent)
      case Going(t) => Done(t.profiles != [] || t.filters != [], t.profiles, t.filters, t.sent)
  }

  /** The run as written: `result` already holds `debug_info`, so the handler's
      `fail_json(msg=str(e), debug_info=debug_info, **result)` raises a TypeError while handling
      the exception, and the module ends with that instead of failing with the message. */
  function Run(profiles: seq<Value>, prots: seq<Value>, checkMode: bool, dp: string, net: Net, render: Value -> string := Str): RunResult
  {
    DebugInfoHandler(Intended(profiles, prots, checkMode, dp, net, render))
  }

  // ---------------------------------------------------------------------------------------------
  // The loops
  // ---------------------------------------------------------------------------------------------

  /** Step 1: the profiles' loop. */
  method ProfilesLoop(profiles: seq<Value>, dp: string, net: Net) returns (r: Progress)
    ensures r == Perform(Start, ProfileJobs(profiles, dp, Str), net)
  {
    var jobs := ProfileJobs(profiles, dp, Str);
    var s := Start;
    var i := 0;
    while i < |profiles|
      invariant 0 <= i <= |profiles|
      invariant Perform(Start, jobs[..i], net) == Going(s)
    {
      assert jobs[..i + 1][..i] == jobs[..i];
      var job := ProfileJob(profiles[i], dp, Str);
      assert job == jobs[i];
      r := StepOne(s, job, net);
      if r.Aborted? {
        PerformStaysAborted(Start, jobs, net, i + 1);
        return;
      }
      s := r.state;
      i := i + 1;
    }
    assert jobs[..i] == jobs;
    r := Going(s);
  }

  /** Step 2: the filters' loop, from where the profiles left off. */
  method FiltersLoop(s0: State, prots: seq<Value>, dp: string, net: Net) returns (r: Progress)
    ensures r == Perform(s0, FilterJobs(prots, dp, Str), net)
  {
    var jobs := FilterJobs(prots, dp, Str);
    var s := s0;
    var k := 0;
    while k < |prots|
      invariant 0 <= k <= |prots|
      invariant Perform(s0, jobs[..k], net) == Going(s)
    {
      assert jobs[..k + 1][..k] == jobs[..k];
      var job := FilterJob(prots[k], dp, Str);
      assert job == jobs[k];
      r := StepOne(s, job, net);
      if r.Aborted? {
        PerformStaysAborted(s0, jobs, net, k + 1);
        return;
      }
      s := r.state;
      k := k + 1;
    }
    assert jobs[..k] == jobs;
    r := Going(s);
  }

  method RunModule(profiles: seq<Value>, prots: seq<Value>, checkMode: bool, dp: string, net: Net) returns (r: RunResult)
    ensures r == Run(profiles, prots, checkMode, dp, net)
  {
    if checkMode {
      return Done(false, [], [], []);
    }
    PerformAppend(Start, ProfileJobs(profiles, dp, Str), FilterJobs(prots, dp, Str), net);
    var p := ProfilesLoop(profiles, dp, net);
    if p.Aborted? {
      return Crashed(DebugInfoTwice, p.msg, p.sent);
    }
    var q := FiltersLoop(p.state, prots, dp, net);
    if q.Aborted? {
      return Crashed(DebugInfoTwice, q.msg, q.sent);
    }
    var t := q.state;
    r := Done(t.profiles != [] || t.filters != [], t.profiles, t.filters, t.sent);
  }

  // ---------------------------------------------------------------------------------------------
  // What the run does
  // ---------------------------------------------------------------------------------------------

  /** A profile is read exactly when it has a `name` and its params map; its PUT then goes to
      `rsNewTrafficProfileTable/{name}` and makes a profile entry under that name. */
  lemma ProfileJobOutcome(profile: Value, dp: string, render: Value -> string)
    ensures ProfileJob(profile, dp, render).Ok? <==>
      Subscript(profile, "name").Ok? && ProfileBody(GetOr(profile.entries, "params", VDict([]))).Ok?
    ensures ProfileJob(profile, dp, render).Ok? ==>
      var name := Subscript(profile, "name").value;
      var j := ProfileJob(profile, dp, render).value;
      j.item == ProfileLabel(name) && j.request.verb == PUT &&
      j.request.path == ConfigPath(dp, ProfileTable) + "/" + render(name) &&
      j.request.body == Some(VDict(ProfileBody(GetOr(profile.entries, "params", VDict([]))).value))
  {
    if ProfileJob(profile, dp, render).Ok? {
      var name := Subscript(profile, "name").value;
      assert ConfigPath(dp, ProfileTable) + "/" + render(name) == ConfigPath(dp, ProfileTable + "/" + render(name));
    }
  }

  /** A filter is read exactly when it has both names and its params map; its PUT then goes to
      `rsNewTrafficFilterTable/{profile}/{name}` with the mapped params and the two names, and
      makes a filter entry under them. */
  lemma FilterJobOutcome(prot: Value, dp: string, render: Value -> string)
    ensures FilterJob(prot, dp, render).Ok? <==>
      Subscript(prot, "profile_name").Ok? && Subscript(prot, "name").Ok? &&
      ParamsBody(GetOr(prot.entries, "params", VDict([]))).Ok?
    ensures FilterJob(prot, dp, render).Ok? ==>
      var profile := Subscript(prot, "profile_name").value;
      var protection := Subscript(prot, "name").value;
      var j := FilterJob(prot, dp, render).value;
      j.item == FilterLabel(profile, protection) && j.request.verb == PUT &&
      j.request.path == ConfigPath(dp, FilterTable) + "/" + render(profile) + "/" + render(protection) &&
      j.request.body == Some(VDict(FilterBody(ParamsBody(GetOr(prot.entries, "params", VDict([]))).value, profile, protection)))
  {
    if FilterJob(prot, dp, render).Ok? {
      var profile := Subscript(prot, "profile_name").value;
      var protection := Subscript(prot, "name").value;
      assert ConfigPath(dp, FilterTable) + "/" + render(profile) + "/" + render(protection) ==
        ConfigPath(dp, FilterTable + "/" + render(profile) + "/" + render(protection));
    }
  }

  /** Profile items only edit profiles, filter items only filters. */
  lemma JobsKinds(profiles: seq<Value>, prots: seq<Value>, dp: string, render: Value -> string)
    ensures AllProfiles(ProfileJobs(profiles, dp, render))
    ensures AllFilters(FilterJobs(prots, dp, render))
  {
  }

  /** Check mode sends nothing and reports no change.  Otherwise the module completes exactly
      when every item is read and every PUT answered with JSON; it has then PUT every profile
      and then every filter, in order, recorded each with the reply to its own PUT, and reports
      a change exactly when there was an item. */
  lemma RunDone(profiles: seq<Value>, prots: seq<Value>, checkMode: bool, dp: string, net: Net, render: Value -> string)
    ensures checkMode ==> Run(profiles, prots, checkMode, dp, net, render) == Done(false, [], [], [])
    ensures !checkMode ==>
      (Run(profiles, prots, checkMode, dp, net, render).Done? <==>
       Clear(ProfileJobs(profiles, dp, render), net, 0) && Clear(FilterJobs(prots, dp, render), net, |profiles|))
    ensures !checkMode && Run(profiles, prots, checkMode, dp, net, render).Done? ==>
      var r := Run(profiles, prots, checkMode, dp, net, render);
      var pj := ProfileJobs(profiles, dp, render);
      var fj := FilterJobs(prots, dp, render);
      r.sent == Requests(pj) + Requests(fj) &&
      r.profiles == Records(pj, net, 0) && r.filters == Records(fj, net, |profiles|) &&
      (r.changed <==> |profiles| + |prots| > 0)
  {
    if !checkMode {
      var pj := ProfileJobs(profiles, dp, render);
      var fj := FilterJobs(prots, dp, render);
      PerformBothGoing(pj, fj, net);
      if Clear(pj, net, 0) && Clear(fj, net, |pj|) {
        JobsKinds(profiles, prots, dp, render);
        PerformBoth(pj, fj, net);
      }
    }
  }

  /** As meant, a run that fails stopped at its first item that could not be read or whose PUT
      raised or was not answered with JSON, with that exception's message, after the PUTs of the
      items before it and its own PUT if it was read. */
  lemma IntendedFailed(profiles: seq<Value>, prots: seq<Value>, checkMode: bool, dp: string, net: Net, render: Value -> string) returns (k: nat)
    requires Intended(profiles, prots, checkMode, dp, net, render).Failed?
    ensures var jobs := ProfileJobs(profiles, dp, render) + FilterJobs(prots, dp, render);
      !checkMode && k < |jobs| && Clear(jobs[..k], net, 0) && !(jobs[k].Ok? && Answer(net(k)).Ok?) &&
      Intended(profiles, prots, checkMode, dp, net, render) ==
        Failed(if jobs[k].Err? then jobs[k].msg else Answer(net(k)).msg,
               Requests(jobs[..k]) + if jobs[k].Ok? then [jobs[k].value.request] else [])
  {
    var jobs := ProfileJobs(profiles, dp, render) + FilterJobs(prots, dp, render);
    PerformGoing(Start, jobs, net);
    k := FirstStop(jobs, net, 0);
    PerformStops(Start, jobs, net, k);
  }

  /** As written, a run that does not complete never fails with a message: it stops at the same
      item and after the same requests as the run meant, and then ends with the handler's
      TypeError, raised while handling that item's exception. */
  lemma RunCrashed(profiles: seq<Value>, prots: seq<Value>, checkMode: bool, dp: string, net: Net, render: Value -> string) returns (k: nat)
    requires !Run(profiles, prots, checkMode, dp, net, render).Done?
    ensures var jobs := ProfileJobs(profiles, dp, render) + FilterJobs(prots, dp, render);
      !checkMode && k < |jobs| && Clear(jobs[..k], net, 0) && !(jobs[k].Ok? && Answer(net(k)).Ok?) &&
      Run(profiles, prots, checkMode, dp, net, render) ==
        Crashed(DebugInfoTwice, if jobs[k].Err? then jobs[k].msg else Answer(net(k)).msg,
               Requests(jobs[..k]) + if jobs[k].Ok? then [jobs[k].value.request] else [])
  {
    k := IntendedFailed(profiles, prots, checkMode, dp, net, render);
  }
}

/** Deletion of Traffic Filter filters ("protections") and profiles
    (plugins/modules/delete_traffic_filter.py).  Outside check mode every listed filter is
    DELETEd from `rsNewTrafficFilterTable`, then every listed profile from
    `rsNewTrafficProfileTable`; a reply that is not JSON is recorded by its status code, and the
    first exception ends the module with its message.  Check mode sends nothing. */
module DeleteTrafficFilter {
  import opened Py
  import opened Http
  import opened TrafficFilterRun

  // ---------------------------------------------------------------------------------------------
  // Reading a reply
  // ---------------------------------------------------------------------------------------------

  /** `resp.json()`, or `{"status": resp.status_code}` when that raises. */
  function Reading(r: Reply): Value
  {
    match JsonOf(r)
    case Some(data) => data
    case None => VDict([("status", VInt(r.status))])
  }

  /** The oracle as the module sees it once the parsing error is caught: every reply parses. */
  function Tolerant(net: Net): Net
  {
    (i: nat) => match net(i)
         case Raised(m) => Raised(m)
         case Returned(r) => Returned(r.(json := Some(Reading(r))))
  }

  /** Only the DELETE itself can raise; a reply is its JSON body, or its status code when the
      body is not JSON. */
  lemma TolerantReads(net: Net, i: nat)
    ensures Answer(Tolerant(net)(i)).Err? <==> net(i).Raised?
    ensures net(i).Raised? ==> Answer(Tolerant(net)(i)).msg == net(i).msg
    ensures net(i).Returned? ==>
      Answer(Tolerant(net)(i)).value ==
        (if net(i).reply.json.Some? then net(i).reply.json.value else VDict([("status", VInt(net(i).reply.status))]))
  {
  }

  /** Items are clear under the caught parsing error exactly when each one can be read and no
      DELETE raises. */
  lemma ClearTolerant(jobs: seq<Result<Job>>, net: Net, from: nat)
    ensures Clear(jobs, Tolerant(net), from) <==>
      Readable(jobs) && forall i :: from <= i < from + |jobs| ==> net(i).Returned?
  {
    if Readable(jobs) && forall i :: from <= i < from + |jobs| ==> net(i).Returned? {
      forall k | 0 <= k < |jobs| ensures jobs[k].Ok? && Answer(Tolerant(net)(from + k)).Ok? {
        TolerantReads(net, from + k);
      }
      assert Clear(jobs, Tolerant(net), from);
    }
    if Clear(jobs, Tolerant(net), from) {
      forall k | 0 <= k < |jobs| ensures jobs[k].Ok? {
      }
      assert Readable(jobs);
      forall i | from <= i < from + |jobs| ensures net(i).Returned? {
        var k := i - from;
        assert jobs[k].Ok? && Answer(Tolerant(net)(from + k)).Ok?;
        TolerantReads(net, i);
      }
      assert Readable(jobs) && forall i :: from <= i < from + |jobs| ==> net(i).Returned?;
    }
  }

  /** Two lists of items can be read exactly when each can. */
  lemma ReadableSplit(a: seq<Result<Job>>, b: seq<Result<Job>>)
    ensures Readable(a + b) <==> Readable(a) && Readable(b)
  {
    if Readable(a) && Readable(b) {
      forall k | 0 <= k < |a + b| ensures (a + b)[k].Ok? {
        if k < |a| {
          assert (a + b)[k] == a[k];
        } else {
          assert (a + b)[k] == b[k - |a|];
        }
      }
    }
    if Readable(a + b) {
      forall k | 0 <= k < |a| ensures a[k].Ok? {
        assert (a + b)[k] == a[k];
      }
      forall k | 0 <= k < |b| ensures b[k].Ok? {
        assert (a + b)[|a| + k] == b[k];
      }
    }
  }

  // ---------------------------------------------------------------------------------------------
  // The run: filters, then profiles
  // ---------------------------------------------------------------------------------------------

  /** `prot["profile_name"]`, `prot["name"]` and the DELETE of the filter. */
  function FilterJob(prot: Value, dp: string, render: Value -> string): Result<Job>
  {
    match Subscript(prot, "profile_name")
    case Err(e) => Err(e)
    case Ok(profile) =>
      match Subscript(prot, "name")
      case Err(e) => Err(e)
      case Ok(protection) =>
        Ok(Job(Request(DELETE, ConfigPath(dp, FilterTable + "/" + render(profile) + "/" + render(protection)), None),
               FilterLabel(profile, protection)))
  }

  /** `profile["name"]` and the DELETE of the profile. */
  function ProfileJob(profile: Value, dp: string, render: Value -> string): Result<Job>
  {
    match Subscript(profile, "name")
    case Err(e) => Err(e)
    case Ok(name) => Ok(Job(Request(DELETE, ConfigPath(dp, ProfileTable + "/" + render(name)), None), ProfileLabel(name)))
  }

  function FilterJobs(prots: seq<Value>, dp: string, render: Value -> string): (r: seq<Result<Job>>)
    ensures |r| == |prots|
  {
    seq(|prots|, i requires 0 <= i < |prots| => FilterJob(prots[i], dp, render))
  }

  function ProfileJobs(profiles: seq<Value>, dp: string, render: Value -> string): (r: seq<Result<Job>>)
    ensures |r| == |profiles|
  {
    seq(|profiles|, i requires 0 <= i < |profiles| => ProfileJob(profiles[i], dp, render))
  }

  /** The run as the handler means it: `fail_json` with the exception's message and `changed`
      false whatever was deleted before, or `exit_json` with whether anything was deleted and the two
      lists. */
  function Intended(profiles: seq<Value>, prots: seq<Value>, checkMode: bool, dp: string, net: Net, render: Value -> string := Str): RunResult
  {
    if checkMode then Done(false, [], [], [])
    else match Perform(Start, FilterJobs(prots, dp, render) + ProfileJobs(profiles, dp, render), Tolerant(net))
      case Aborted(m, sent) => Failed(m, sent)
      case Going(t) => Done(t.profiles != [] || t.filters != [], t.profiles, t.filters, t.sent)
  }

  /** The run as written: `result` already holds `debug_info`, so the handler's
      `fail_json(msg=str(e), debug_info=debug_info, **result)` raises a TypeError while handling
      the exception, and the module ends with that instead of failing with the message. */
  function Run(profiles: seq<Value>, prots: seq<Value>, checkMode: bool, dp: string, net: Net, render: Value -> string := Str): RunResult
  {
    DebugInfoHandler(Intended(profiles, prots, checkMode, dp, net, render))
  }

  // ---------------------------------------------------------------------------------------------
  // The loops
  // ---------------------------------------------------------------------------------------------

  /** One item of either loop: the DELETE, then its reply or status code. */
  method DeleteOne(s: State, job: Result<Job>, net: Net) returns (r: Progress)
    ensures r == Step(s, job, Tolerant(net))
  {
    if job.Err? {
      return Aborted(job.msg, s.sent);
    }
    var j := job.value;
    var sent := s.sent + [j.request];
    var o := net(|s.sent|);
    if o.Raised? {
      return Aborted(o.msg, sent);
    }
    var data;
    if o.reply.json.Some? {
      data := o.reply.json.value;
    } else {
      data := VDict([("status", VInt(o.reply.status))]);
    }
    var m := Made(j.item, data);
    if j.item.ProfileLabel? {
      r := Going(State(s.profiles + [m], s.filters, sent));
    } else {
      r := Going(State(s.profiles, s.filters + [m], sent));
    }
  }

  /** Step 1: the filters' loop. */
  method FiltersLoop(prots: seq<Value>, dp: string, net: Net) returns (r: Progress)
    ensures r == Perform(Start, FilterJobs(prots, dp, Str), Tolerant(net))
  {
    var jobs := FilterJobs(prots, dp, Str);
    var s := Start;
    var k := 0;
    while k < |prots|
      invariant 0 <= k <= |prots|
      invariant Perform(Start, jobs[..k], Tolerant(net)) == Going(s)
    {
      assert jobs[..k + 1][..k] == jobs[..k];
      var job := FilterJob(prots[k], dp, Str);
      assert job == jobs[k];
      r := DeleteOne(s, job, net);
      if r.Aborted? {
        PerformStaysAborted(Start, jobs, Tolerant(net), k + 1);
        return;
      }
      s := r.state;
      k := k + 1;
    }
    assert jobs[..k] == jobs;
    r := Going(s);
  }

  /** Step 2: the profiles' loop, from where the filters left off. */
  method ProfilesLoop(s0: State, profiles: seq<Value>, dp: string, net: Net) returns (r: Progress)
    ensures r == Perform(s0, ProfileJobs(profiles, dp, Str), Tolerant(net))
  {
    var jobs := ProfileJobs(profiles, dp, Str);
    var s := s0;
    var i := 0;
    while i < |profiles|
      invariant 0 <= i <= |profiles|
      invariant Perform(s0, jobs[..i], Tolerant(net)) == Going(s)
    {
      assert jobs[..i + 1][..i] == jobs[..i];
      var job := ProfileJob(profiles[i], dp, Str);
      assert job == jobs[i];
      r := DeleteOne(s, job, net);
      if r.Aborted? {
        PerformStaysAborted(s0, jobs, Tolerant(net), i + 1);
        return;
      }
      s := r.state;
      i := i + 1;
    }
    assert jobs[..i] == jobs;
    r := Going(s);
  }

  method RunModule(profiles: seq<Value>, prots: seq<Value>, checkMode: bool, dp: string, net: Net) returns (r: RunResult)
    ensures r == Run(profiles, prots, checkMode, dp, net)
  {
    if checkMode {
      return Done(false, [], [], []);
    }
    PerformAppend(Start, FilterJobs(prots, dp, Str), ProfileJobs(profiles, dp, Str), Tolerant(net));
    var p := FiltersLoop(prots, dp, net);
    if p.Aborted? {
      return Crashed(DebugInfoTwice, p.msg, p.sent);
    }
    var q := ProfilesLoop(p.state, profiles, dp, net);
    if q.Aborted? {
      return Crashed(DebugInfoTwice, q.msg, q.sent);
    }
    var t := q.state;
    r := Done(t.profiles != [] || t.filters != [], t.profiles, t.filters, t.sent);
  }

  // ---------------------------------------------------------------------------------------------
  // What the run does
  // ---------------------------------------------------------------------------------------------

  /** A filter is read exactly when it has both names; its DELETE, with no body, then goes to
      `rsNewTrafficFilterTable/{profile}/{name}`. */
  lemma FilterJobOutcome(prot: Value, dp: string, render: Value -> string)
    ensures FilterJob(prot, dp, render).Ok? <==> Subscript(prot, "profile_name").Ok? && Subscript(prot, "name").Ok?
    ensures FilterJob(prot, dp, render).Ok? ==>
      var profile := Subscript(prot, "profile_name").value;
      var protection := Subscript(prot, "name").value;
      FilterJob(prot, dp, render).value ==
        Job(Request(DELETE, ConfigPath(dp, FilterTable) + "/" + render(profile) + "/" + render(protection), None),
            FilterLabel(profile, protection))
  {
    if FilterJob(prot, dp, render).Ok? {
      var profile := Subscript(prot, "profile_name").value;
      var protection := Subscript(prot, "name").value;
      assert ConfigPath(dp, FilterTable) + "/" + render(profile) + "/" + render(protection) ==
        ConfigPath(dp, FilterTable + "/" + render(profile) + "/" + render(protection));
    }
  }

  /** A profile is read exactly when it has a `name`; its DELETE, with no body, then goes to
      `rsNewTrafficProfileTable/{name}`. */
  lemma ProfileJobOutcome(profile: Value, dp: string, render: Value -> string)
    ensures ProfileJob(profile, dp, render).Ok? <==> Subscript(profile, "name").Ok?
    ensures ProfileJob(profile, dp, render).Ok? ==>
      var name := Subscript(profile, "name").value;
      ProfileJob(profile, dp, render).value ==
        Job(Request(DELETE, ConfigPath(dp, ProfileTable) + "/" + render(name), None), ProfileLabel(name))
  {
    if ProfileJob(profile, dp, render).Ok? {
      var name := Subscript(profile, "name").value;
      assert ConfigPath(dp, ProfileTable) + "/" + render(name) == ConfigPath(dp, ProfileTable + "/" + render(name));
    }
  }

  /** Filter items only delete filters, profile items only profiles. */
  lemma JobsKinds(profiles: seq<Value>, prots: seq<Value>, dp: string, render: Value -> string)
    ensures AllFilters(FilterJobs(prots, dp, render))
    ensures AllProfiles(ProfileJobs(profiles, dp, render))
  {
  }

  /** Check mode sends nothing and reports no change.  Otherwise the module completes exactly
      when every item can be read and no DELETE raises; it has then deleted every filter and
      then every profile, in order, recorded each with its own reply (or status code), and
      reports a change exactly when there was an item. */
  lemma RunDone(profiles: seq<Value>, prots: seq<Value>, checkMode: bool, dp: string, net: Net, render: Value -> string)
    ensures checkMode ==> Run(profiles, prots, checkMode, dp, net, render) == Done(false, [], [], [])
    ensures !checkMode ==>
      (Run(profiles, prots, checkMode, dp, net, render).Done? <==>
       Readable(FilterJobs(prots, dp, render)) && Readable(ProfileJobs(profiles, dp, render)) &&
       forall i :: 0 <= i < |prots| + |profiles| ==> net(i).Returned?)
    ensures !checkMode && Run(profiles, prots, checkMode, dp, net, render).Done? ==>
      var r := Run(profiles, prots, checkMode, dp, net, render);
      var fj := FilterJobs(prots, dp, render);
      var pj := ProfileJobs(profiles, dp, render);
      Clear(fj, Tolerant(net), 0) && Clear(pj, Tolerant(net), |prots|) &&
      r.sent == Requests(fj) + Requests(pj) &&
      r.filters == Records(fj, Tolerant(net), 0) && r.profiles == Records(pj, Tolerant(net), |prots|) &&
      (r.changed <==> |profiles| + |prots| > 0)
  {
    if !checkMode {
      var fj := FilterJobs(prots, dp, render);
      var pj := ProfileJobs(profiles, dp, render);
      PerformBothGoing(fj, pj, Tolerant(net));
      ClearSplit(fj, pj, Tolerant(net), 0);
      ClearTolerant(fj + pj, net, 0);
      ReadableSplit(fj, pj);
      if Clear(fj, Tolerant(net), 0) && Clear(pj, Tolerant(net), |fj|) {
        JobsKinds(profiles, prots, dp, render);
        PerformFiltersFirst(fj, pj, Tolerant(net));
      }
    }
  }

  /** As meant, a run that fails stopped at its first item that could not be read or whose DELETE
      raised, with that exception's message, after the DELETEs of the items before it and its own
      DELETE if it was read. */
  lemma IntendedFailed(profiles: seq<Value>, prots: seq<Value>, checkMode: bool, dp: string, net: Net, render: Value -> string) returns (k: nat)
    requires Intended(profiles, prots, checkMode, dp, net, render).Failed?
    ensures var jobs := FilterJobs(prots, dp, render) + ProfileJobs(profiles, dp, render);
      !checkMode && k < |jobs| && Clear(jobs[..k], Tolerant(net), 0) && !(jobs[k].Ok? && net(k).Returned?) &&
      Intended(profiles, prots, checkMode, dp, net, render) ==
        Failed(if jobs[k].Err? then jobs[k].msg else net(k).msg,
               Requests(jobs[..k]) + if jobs[k].Ok? then [jobs[k].value.request] else [])
  {
    var jobs := FilterJobs(prots, dp, render) + ProfileJobs(profiles, dp, render);
    PerformGoing(Start, jobs, Tolerant(net));
    k := FirstStop(jobs, Tolerant(net), 0);
    TolerantReads(net, k);
    PerformStops(Start, jobs, Tolerant(net), k);
  }

  /** As written, a run that does not complete never fails with a message: it stops at the same
      item and after the same requests as the run meant, and then ends with the handler's
      TypeError, raised while handling that item's exception. */
  lemma RunCrashed(profiles: seq<Value>, prots: seq<Value>, checkMode: bool, dp: string, net: Net, render: Value -> string) returns (k: nat)
    requires !Run(profiles, prots, checkMode, dp, net, render).Done?
    ensures var jobs := FilterJobs(prots, dp, render) + ProfileJobs(profiles, dp, render);
      !checkMode && k < |jobs| && Clear(jobs[..k], Tolerant(net), 0) && !(jobs[k].Ok? && net(k).Returned?) &&
      Run(profiles, prots, checkMode, dp, net, render) ==
        Crashed(DebugInfoTwice, if jobs[k].Err? then jobs[k].msg else net(k).msg,
               Requests(jobs[..k]) + if jobs[k].Ok? then [jobs[k].value.request] else [])
  {
    k := IntendedFailed(profiles, prots, checkMode, dp, net, render);
  }
}

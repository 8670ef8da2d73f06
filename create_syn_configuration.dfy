/** Creating SYN protections and SYN profiles in one run (plugins/modules/create_syn_configuration.py).
    Outside check mode every protection is POSTed to `rsIDSSYNAttackTable/{index}`, then every
    (profile, protection) pair is POSTed to `rsIDSSynProfilesTable/{profile}/{protection}` with the
    profile's `params` merged into the body; every POST is followed by a refresh GET whose outcome
    is ignored.  The first exception ends the whole run.

    Reading a protection or a profile never depends on a reply, so the run is described in two
    parts: the plan (the POSTs the loops would send, and the exception that would stop the loops
    while reading, if any) and the execution of that plan against the replies. */
module CreateSynConfiguration {
  import opened Py
  import opened Http

  const AttackTable := "rsIDSSYNAttackTable"
  const ProfilesTable := "rsIDSSynProfilesTable"

  // ---------------------------------------------------------------------------------------------
  // The bodies
  // ---------------------------------------------------------------------------------------------

  /** The row POSTed for a protection: its name, then the activation threshold (1000 by default),
      the termination threshold (500 by default) and the application port group (empty by
      default). */
  function ProtectionBody(name: Value, p: Value): Dict
  {
    [ ("rsIDSSYNAttackName", name),
      ("rsIDSSYNAttackActivationThreshold", FieldOr(p, "activation_threshold", VInt(1000))),
      ("rsIDSSYNAttackTerminationThreshold", FieldOr(p, "termination_threshold", VInt(500))),
      ("rsIDSSYNDestinationAppPortGroup", FieldOr(p, "app_port_group", VStr(""))) ]
  }

  /** The `parameters` of a created protection's record, read back from its row. */
  function Parameters(body: Dict): Dict
  {
    [ ("activation_threshold", GetOr(body, "rsIDSSYNAttackActivationThreshold", VNone)),
      ("termination_threshold", GetOr(body, "rsIDSSYNAttackTerminationThreshold", VNone)),
      ("app_port_group", GetOr(body, "rsIDSSYNDestinationAppPortGroup", VNone)) ]
  }

  /** `FIELD_MAP.get(k, k)`. */
  function ParamKey(k: string): string
  {
    if k == "profile_type" then "rsIDSSynProfileType" else k
  }

  /** `VALUE_MAP.get(k, {}).get(v.lower(), v)` for a string value, the value itself otherwise. */
  function ParamValue(k: string, v: Value): Value
  {
    if v.VStr? && k == "profile_type" && Lower(v.s) == "syn_protection" then VInt(4) else v
  }

  /** The body of a pair before the profile's params are merged in. */
  function PairBase(profile: Value, protection: Value): Dict
  {
    [("rsIDSSynProfilesName", profile), ("rsIDSSynProfileServiceName", protection)]
  }

  /** `body[FIELD_MAP.get(k, k)] = ...` for each of the params in turn. */
  function Merge(base: Dict, params: Dict): Dict
    decreases |params|
  {
    if params == [] then base
    else
      var n := |params| - 1;
      Put(Merge(base, params[..n]), ParamKey(params[n].0), ParamValue(params[n].0, params[n].1))
  }

  method MergeLoop(base: Dict, params: Dict) returns (body: Dict)
    ensures body == Merge(base, params)
  {
    body := base;
    var i := 0;
    while i < |params|
      invariant 0 <= i <= |params|
      invariant body == Merge(base, params[..i])
    {
      assert params[..i + 1][..i] == params[..i];
      var (k, v) := params[i];
      body := Put(body, ParamKey(k), ParamValue(k, v));
      i := i + 1;
    }
    assert params[..i] == params;
  }

  /** `profile["params"].items()` when the profile has params (a value that is not a dict raises
      `AttributeError`); none to merge otherwise. */
  function ProfileParams(profile: Value): Result<Dict>
  {
    match Field(profile, "params")
    case None => Ok([])
    case Some(v) => if v.VDict? then Ok(v.entries) else Err(NoItems)
  }

  // ---------------------------------------------------------------------------------------------
  // The plan
  // ---------------------------------------------------------------------------------------------

  /** One POST the run sends: a protection, or a protection attached to a profile. */
  datatype Job =
    | CreateJob(name: Value, index: Value, body: Dict)
    | AttachJob(profile: Value, protection: Value, parameters: Value, body: Dict)

  /** The POSTs the loops send, in order, and the exception that stops them while reading a
      protection or a profile (after the POSTs listed), if any. */
  datatype Plan = Plan(jobs: seq<Job>, error: Option<string>)

  /** One plan after another: nothing after an exception. */
  function Then(a: Plan, b: Plan): Plan
  {
    if a.error.Some? then a else Plan(a.jobs + b.jobs, b.error)
  }

  /** One protection: its name is read (`KeyError` without one), its index defaults to 0. */
  function ProtectionPlan(p: Value): Plan
  {
    match Subscript(p, "name")
    case Err(e) => Plan([], Some(e))
    case Ok(name) => Plan([CreateJob(name, FieldOr(p, "index", VInt(0)), ProtectionBody(name, p))], None)
  }

  function ProtectionsPlan(ps: seq<Value>): Plan
    decreases |ps|
  {
    if ps == [] then Plan([], None)
    else Then(ProtectionsPlan(ps[..|ps| - 1]), ProtectionPlan(ps[|ps| - 1]))
  }

  /** One profile: its name and its `protections` (none by default) are read; before the first
      pair's POST its `params`, when present, must be a dict; each pair's body is the two names
      with the params merged in. */
  function ProfilePlan(profile: Value): Plan
  {
    match Subscript(profile, "name")
    case Err(e) => Plan([], Some(e))
    case Ok(name) =>
      match Iter(FieldOr(profile, "protections", VList([])))
      case None => Plan([], Some(NotIterable))
      case Some(names) =>
        if names == [] then Plan([], None)
        else match ProfileParams(profile)
          case Err(e) => Plan([], Some(e))
          case Ok(params) =>
            Plan(seq(|names|, k requires 0 <= k < |names| =>
                   AttachJob(name, names[k], FieldOr(profile, "params", VDict([])), Merge(PairBase(name, names[k]), params))),
                 None)
  }

  function ProfilesPlan(profiles: seq<Value>): Plan
    decreases |profiles|
  {
    if profiles == [] then Plan([], None)
    else Then(ProfilesPlan(profiles[..|profiles| - 1]), ProfilePlan(profiles[|profiles| - 1]))
  }

  /** The protections, then the profiles. */
  function FullPlan(protections: seq<Value>, profiles: seq<Value>): Plan
  {
    Then(ProtectionsPlan(protections), ProfilesPlan(profiles))
  }

  // ---------------------------------------------------------------------------------------------
  // Executing the plan
  // ---------------------------------------------------------------------------------------------

  function RefreshRequest(dp: string): Request
  {
    Request(GET, ConfigPath(dp, AttackTable), None)
  }

  function PostRequest(dp: string, job: Job, render: Value -> string): Request
  {
    match job
    case CreateJob(_, index, body) =>
      Request(POST, ConfigPath(dp, AttackTable + "/" + render(index)), Some(VDict(body)))
    case AttachJob(profile, protection, _, body) =>
      Request(POST, ConfigPath(dp, ProfilesTable + "/" + render(profile) + "/" + render(protection)), Some(VDict(body)))
  }

  /** `resp.json()`, or `{"raw_text": resp.text}` when the reply is not JSON. */
  function Data(r: Reply): Value
  {
    match JsonOf(r)
    case Some(d) => d
    case None => VDict([("raw_text", VStr(r.text))])
  }

  /** An entry of `created_protections` or of `created_profiles`: what was POSTed, the request,
      the status code and the reply. */
  datatype Record = Record(job: Job, request: Request, status: int, response: Value)

  /** What the run has recorded so far, and the requests it has sent. */
  datatype State = State(created: seq<Record>, attached: seq<Record>, sent: seq<Request>)

  /** The run carries on, or an exception has ended it (with the requests sent until then). */
  datatype Progress = Going(state: State) | Aborted(msg: string, sent: seq<Request>)

  /** One POST: an exception ends the run; otherwise the reply is recorded and the refresh GET
      follows, whatever it returns or raises. */
  function Step(s: State, job: Job, dp: string, net: Net, render: Value -> string): Progress
  {
    var post := PostRequest(dp, job, render);
    match net(|s.sent|)
    case Raised(e) => Aborted(e, s.sent + [post])
    case Returned(reply) =>
      var rec := Record(job, post, reply.status, Data(reply));
      var sent := s.sent + [post, RefreshRequest(dp)];
      if job.CreateJob? then Going(State(s.created + [rec], s.attached, sent))
      else Going(State(s.created, s.attached + [rec], sent))
  }

  function Execute(s: State, jobs: seq<Job>, dp: string, net: Net, render: Value -> string): Progress
    decreases |jobs|
  {
    if jobs == [] then Going(s)
    else match Execute(s, jobs[..|jobs| - 1], dp, net, render)
      case Aborted(m, sent) => Aborted(m, sent)
      case Going(t) => Step(t, jobs[|jobs| - 1], dp, net, render)
  }

  /** A plan carried out: its POSTs, then its exception if it has one. */
  function Perform(s: State, plan: Plan, dp: string, net: Net, render: Value -> string): Progress
  {
    match Execute(s, plan.jobs, dp, net, render)
    case Aborted(m, sent) => Aborted(m, sent)
    case Going(t) => if plan.error.Some? then Aborted(plan.error.value, t.sent) else Going(t)
  }

  /** How the module ends: `fail_json` with the message (and `changed` false, with an empty
      response), or `exit_json` with `changed` and the two lists; either way with the requests
      sent. */
  datatype RunResult =
    | Failed(msg: string, sent: seq<Request>)
    | Done(changed: bool, created: seq<Record>, attached: seq<Record>, sent: seq<Request>)

  function Run(protections: seq<Value>, profiles: seq<Value>, checkMode: bool, dp: string, net: Net,
               render: Value -> string := Str): RunResult
  {
    if checkMode then Done(false, [], [], []) else Finish(FullPlan(protections, profiles), dp, net, render)
  }

  /** A plan carried out from nothing recorded and nothing sent: an exception fails the module;
      otherwise it has changed something exactly when it recorded something. */
  function Finish(plan: Plan, dp: string, net: Net, render: Value -> string): RunResult
  {
    match Perform(State([], [], []), plan, dp, net, render)
    case Aborted(m, sent) => Failed(m, sent)
    case Going(t) => Done(t.created != [] || t.attached != [], t.created, t.attached, t.sent)
  }

  // ---------------------------------------------------------------------------------------------
  // The loops
  // ---------------------------------------------------------------------------------------------

  /** The POST of one job and the refresh GET after it. */
  method Post(s: State, job: Job, dp: string, net: Net) returns (r: Progress)
    ensures r == Step(s, job, dp, net, Str)
  {
    var post := PostRequest(dp, job, Str);
    var sent := s.sent + [post];
    var resp := net(|s.sent|);
    if resp.Raised? {
      return Aborted(resp.msg, sent);
    }
    var rec := Record(job, post, resp.reply.status, Data(resp.reply));
    // Whatever the refresh GET returns or raises, the run carries on.
    sent := sent + [RefreshRequest(dp)];
    if job.CreateJob? {
      r := Going(State(s.created + [rec], s.attached, sent));
    } else {
      r := Going(State(s.created, s.attached + [rec], sent));
    }
  }

  /** The body of the protection loop. */
  method CreateOne(s: State, p: Value, dp: string, net: Net) returns (r: Progress)
    ensures r == Perform(s, ProtectionPlan(p), dp, net, Str)
  {
    var name := Subscript(p, "name");
    if name.Err? {
      return Aborted(name.msg, s.sent);
    }
    var index := FieldOr(p, "index", VInt(0));
    var body := ProtectionBody(name.value, p);
    var job := CreateJob(name.value, index, body);
    r := Post(s, job, dp, net);
    assert [job][..0] == [];
    assert Execute(s, [job], dp, net, Str) == Step(s, job, dp, net, Str);
  }

  /** The body of the profile loop, with its loop over the profile's protections. */
  method AttachAll(s0: State, profile: Value, dp: string, net: Net) returns (r: Progress)
    ensures r == Perform(s0, ProfilePlan(profile), dp, net, Str)
  {
    var name := Subscript(profile, "name");
    if name.Err? {
      return Aborted(name.msg, s0.sent);
    }
    var names := Iter(FieldOr(profile, "protections", VList([])));
    if names.None? {
      return Aborted(NotIterable, s0.sent);
    }
    var plan := ProfilePlan(profile);
    var s := s0;
    var k := 0;
    while k < |names.value|
      invariant 0 <= k <= |names.value|
      invariant k > 0 ==> ProfileParams(profile).Ok? && plan.error == None && |plan.jobs| == |names.value|
      invariant Execute(s0, plan.jobs[..k], dp, net, Str) == Going(s)
    {
      var params := ProfileParams(profile);
      if params.Err? {
        return Aborted(params.msg, s.sent);
      }
      var body := MergeLoop(PairBase(name.value, names.value[k]), params.value);
      var job := AttachJob(name.value, names.value[k], FieldOr(profile, "params", VDict([])), body);
      assert plan.jobs[k] == job;
      assert plan.jobs[..k + 1][..k] == plan.jobs[..k];
      var step := Post(s, job, dp, net);
      if step.Aborted? {
        ExecuteStaysAborted(s0, plan.jobs, dp, net, Str, k + 1);
        return step;
      }
      s := step.state;
      k := k + 1;
    }
    if k > 0 {
      assert plan.jobs[..k] == plan.jobs;
    }
    return Going(s);
  }

  method RunModule(protections: seq<Value>, profiles: seq<Value>, checkMode: bool, dp: string, net: Net)
    returns (r: RunResult)
    ensures r == Run(protections, profiles, checkMode, dp, net)
  {
    if checkMode {
      return Done(false, [], [], []);
    }
    var s0 := State([], [], []);
    var s := s0;
    var i := 0;
    while i < |protections|
      invariant 0 <= i <= |protections|
      invariant Perform(s0, ProtectionsPlan(protections[..i]), dp, net, Str) == Going(s)
    {
      assert protections[..i + 1][..i] == protections[..i];
      PerformThen(s0, ProtectionsPlan(protections[..i]), ProtectionPlan(protections[i]), dp, net, Str);
      var step := CreateOne(s, protections[i], dp, net);
      if step.Aborted? {
        ProtectionsStayAborted(protections, dp, net, Str, i + 1);
        PerformThen(s0, ProtectionsPlan(protections), ProfilesPlan(profiles), dp, net, Str);
        return Failed(step.msg, step.sent);
      }
      s := step.state;
      i := i + 1;
    }
    assert protections[..i] == protections;
    var s1 := s;
    var j := 0;
    while j < |profiles|
      invariant 0 <= j <= |profiles|
      invariant Perform(s1, ProfilesPlan(profiles[..j]), dp, net, Str) == Going(s)
    {
      assert profiles[..j + 1][..j] == profiles[..j];
      PerformThen(s1, ProfilesPlan(profiles[..j]), ProfilePlan(profiles[j]), dp, net, Str);
      var step := AttachAll(s, profiles[j], dp, net);
      if step.Aborted? {
        ProfilesStayAborted(s1, profiles, dp, net, Str, j + 1);
        PerformThen(s0, ProtectionsPlan(protections), ProfilesPlan(profiles), dp, net, Str);
        return Failed(step.msg, step.sent);
      }
      s := step.state;
      j := j + 1;
    }
    assert profiles[..j] == profiles;
    PerformThen(s0, ProtectionsPlan(protections), ProfilesPlan(profiles), dp, net, Str);
    r := Done(s.created != [] || s.attached != [], s.created, s.attached, s.sent);
  }

  // ---------------------------------------------------------------------------------------------
  // Composition
  // ---------------------------------------------------------------------------------------------

  /** Executing one list of jobs and then another is executing the two lists in order. */
  lemma {:induction false} ExecuteAppend(s: State, a: seq<Job>, b: seq<Job>, dp: string, net: Net, render: Value -> string)
    ensures Execute(s, a + b, dp, net, render) ==
      match Execute(s, a, dp, net, render)
      case Aborted(m, sent) => Aborted(m, sent)
      case Going(t) => Execute(t, b, dp, net, render)
    decreases |b|
  {
    if b == [] {
      assert a + b == a;
    } else {
      var n := |b| - 1;
      assert (a + b)[..|a + b| - 1] == a + b[..n];
      ExecuteAppend(s, a, b[..n], dp, net, render);
    }
  }

  /** Carrying out one plan and then another is carrying out the two in order. */
  lemma PerformThen(s: State, a: Plan, b: Plan, dp: string, net: Net, render: Value -> string)
    ensures Perform(s, Then(a, b), dp, net, render) ==
      match Perform(s, a, dp, net, render)
      case Aborted(m, sent) => Aborted(m, sent)
      case Going(t) => Perform(t, b, dp, net, render)
  {
    if a.error.None? {
      ExecuteAppend(s, a.jobs, b.jobs, dp, net, render);
    }
  }

  lemma {:induction false} ExecuteStaysAborted(s: State, jobs: seq<Job>, dp: string, net: Net, render: Value -> string, i: nat)
    requires i <= |jobs| && Execute(s, jobs[..i], dp, net, render).Aborted?
    ensures Execute(s, jobs, dp, net, render) == Execute(s, jobs[..i], dp, net, render)
  {
    ExecuteAppend(s, jobs[..i], jobs[i..], dp, net, render);
    assert jobs[..i] + jobs[i..] == jobs;
  }

  lemma {:induction false} ProtectionsStayAborted(ps: seq<Value>, dp: string, net: Net, render: Value -> string, i: nat)
    requires i <= |ps| && Perform(State([], [], []), ProtectionsPlan(ps[..i]), dp, net, render).Aborted?
    ensures Perform(State([], [], []), ProtectionsPlan(ps), dp, net, render) == Perform(State([], [], []), ProtectionsPlan(ps[..i]), dp, net, render)
    decreases |ps| - i
  {
    if i < |ps| {
      assert ps[..i + 1][..i] == ps[..i];
      PerformThen(State([], [], []), ProtectionsPlan(ps[..i]), ProtectionPlan(ps[i]), dp, net, render);
      ProtectionsStayAborted(ps, dp, net, render, i + 1);
    } else {
      assert ps[..i] == ps;
    }
  }

  lemma {:induction false} ProfilesStayAborted(s: State, profiles: seq<Value>, dp: string, net: Net, render: Value -> string, i: nat)
    requires i <= |profiles| && Perform(s, ProfilesPlan(profiles[..i]), dp, net, render).Aborted?
    ensures Perform(s, ProfilesPlan(profiles), dp, net, render) == Perform(s, ProfilesPlan(profiles[..i]), dp, net, render)
    decreases |profiles| - i
  {
    if i < |profiles| {
      assert profiles[..i + 1][..i] == profiles[..i];
      PerformThen(s, ProfilesPlan(profiles[..i]), ProfilePlan(profiles[i]), dp, net, render);
      ProfilesStayAborted(s, profiles, dp, net, render, i + 1);
    } else {
      assert profiles[..i] == profiles;
    }
  }

  // ---------------------------------------------------------------------------------------------
  // The bodies: what they hold
  // ---------------------------------------------------------------------------------------------

  /** A protection's row has its four columns, each once, and its record's parameters are the
      thresholds and port group given, or 1000, 500 and "" when left out. */
  lemma ProtectionBodyValues(name: Value, p: Value)
    ensures Keys(ProtectionBody(name, p)) ==
      ["rsIDSSYNAttackName", "rsIDSSYNAttackActivationThreshold", "rsIDSSYNAttackTerminationThreshold", "rsIDSSYNDestinationAppPortGroup"]
    ensures UniqueKeys(ProtectionBody(name, p))
    ensures Parameters(ProtectionBody(name, p)) ==
      [ ("activation_threshold", FieldOr(p, "activation_threshold", VInt(1000))),
        ("termination_threshold", FieldOr(p, "termination_threshold", VInt(500))),
        ("app_port_group", FieldOr(p, "app_port_group", VStr(""))) ]
  {
    var b := ProtectionBody(name, p);
    KeysLength(b);
    assert forall i :: 0 <= i < 4 ==> |b[i].0| == [18, 33, 34, 31][i];
    assert UniqueKeys(b);
    GetAt(b, 1, "rsIDSSYNAttackActivationThreshold");
    GetAt(b, 2, "rsIDSSYNAttackTerminationThreshold");
    GetAt(b, 3, "rsIDSSYNDestinationAppPortGroup");
  }

  /** A protection without an index is POSTed to row 0. */
  lemma DefaultIndex(p: Value, dp: string)
    requires Subscript(p, "name").Ok? && Field(p, "index") == None
    ensures ProtectionPlan(p).error == None && |ProtectionPlan(p).jobs| == 1
    ensures ProtectionPlan(p).jobs[0].index == VInt(0)
    ensures PostRequest(dp, ProtectionPlan(p).jobs[0], Str).path == ConfigPath(dp, "rsIDSSYNAttackTable/0")
  {
    assert IntToString(0) == "0";
  }

  /** Only `profile_type` is renamed; only its string values change, and exactly those that
      lowercase to `syn_protection`, which become 4. */
  lemma ParamMapping(k: string, v: Value)
    ensures ParamKey(k) != k <==> k == "profile_type"
    ensures ParamKey("profile_type") == "rsIDSSynProfileType"
    ensures ParamValue(k, v) != v ==> k == "profile_type" && v.VStr?
    ensures v.VStr? ==> (ParamValue("profile_type", v) == VInt(4) <==> Lower(v.s) == "syn_protection")
  {
  }

  /** Merging keeps the keys already in the body, first and in order, and keeps the keys
      distinct. */
  lemma {:induction false} MergeKeys(base: Dict, params: Dict)
    ensures |Keys(base)| <= |Keys(Merge(base, params))| && Keys(Merge(base, params))[..|Keys(base)|] == Keys(base)
    ensures UniqueKeys(base) ==> UniqueKeys(Merge(base, params))
    decreases |params|
  {
    if params != [] {
      var n := |params| - 1;
      var m := Merge(base, params[..n]);
      MergeKeys(base, params[..n]);
      KeysPut(m, ParamKey(params[n].0), ParamValue(params[n].0, params[n].1));
      if UniqueKeys(base) {
        UniqueKeysPut(m, ParamKey(params[n].0), ParamValue(params[n].0, params[n].1));
      }
    }
  }

  /** After merging, a key no param is renamed to keeps the value it has in the body. */
  lemma {:induction false} MergeGetUntouched(base: Dict, params: Dict, k: string)
    requires forall i :: 0 <= i < |params| ==> ParamKey(params[i].0) != k
    ensures Get(Merge(base, params), k) == Get(base, k)
    decreases |params|
  {
    if params != [] {
      var n := |params| - 1;
      MergeGetUntouched(base, params[..n], k);
      GetPut(Merge(base, params[..n]), ParamKey(params[n].0), ParamValue(params[n].0, params[n].1), k);
    }
  }

  /** After merging, a key some param is renamed to holds the translated value of the last such
      param. */
  lemma {:induction false} MergeGetLast(base: Dict, params: Dict, k: string, i: nat)
    requires i < |params| && ParamKey(params[i].0) == k
    requires forall j :: i < j < |params| ==> ParamKey(params[j].0) != k
    ensures Get(Merge(base, params), k) == Some(ParamValue(params[i].0, params[i].1))
    decreases |params|
  {
    var n := |params| - 1;
    GetPut(Merge(base, params[..n]), ParamKey(params[n].0), ParamValue(params[n].0, params[n].1), k);
    if i < n {
      MergeGetLast(base, params[..n], k, i);
    }
  }

  // ---------------------------------------------------------------------------------------------
  // Executing jobs
  // ---------------------------------------------------------------------------------------------

  /** Where the POST of the k-th job stands among the requests sent from `from` on: every POST
      that gets a reply is followed by its refresh GET. */
  function PostAt(from: nat, k: nat): nat
  {
    from + 2 * k
  }

  /** The first n POSTs from `from` on all get a reply. */
  predicate Answered(net: Net, from: nat, n: nat)
  {
    forall k :: 0 <= k < n ==> net(PostAt(from, k)).Returned?
  }

  /** The requests for jobs whose POSTs all get a reply: each POST followed by the refresh GET. */
  function Requests(dp: string, jobs: seq<Job>, render: Value -> string): (r: seq<Request>)
    ensures |r| == 2 * |jobs|
    decreases |jobs|
  {
    if jobs == [] then []
    else Requests(dp, jobs[..|jobs| - 1], render) + [PostRequest(dp, jobs[|jobs| - 1], render), RefreshRequest(dp)]
  }

  /** The k-th job's POST is request 2k, and the refresh GET comes right after it. */
  lemma {:induction false} RequestsAt(dp: string, jobs: seq<Job>, render: Value -> string)
    ensures forall k :: 0 <= k < |jobs| ==>
      Requests(dp, jobs, render)[PostAt(0, k)] == PostRequest(dp, jobs[k], render) &&
      Requests(dp, jobs, render)[PostAt(0, k) + 1] == RefreshRequest(dp)
    decreases |jobs|
  {
    if jobs != [] {
      var n := |jobs| - 1;
      RequestsAt(dp, jobs[..n], render);
      var r0 := Requests(dp, jobs[..n], render);
      assert forall j :: 0 <= j < |r0| ==> Requests(dp, jobs, render)[j] == r0[j];
    }
  }

  lemma RequestsAppend(dp: string, a: seq<Job>, b: seq<Job>, render: Value -> string)
    ensures Requests(dp, a + b, render) == Requests(dp, a, render) + Requests(dp, b, render)
    decreases |b|
  {
    if b != [] {
      var n := |b| - 1;
      assert (a + b)[..|a + b| - 1] == a + b[..n];
      RequestsAppend(dp, a, b[..n], render);
    } else {
      assert a + b == a;
    }
  }

  /** Each job with the reply to its POST, in order. */
  function Records(dp: string, jobs: seq<Job>, net: Net, from: nat, render: Value -> string): (r: seq<Record>)
    requires Answered(net, from, |jobs|)
  {
    seq(|jobs|, k requires 0 <= k < |jobs| =>
      Record(jobs[k], PostRequest(dp, jobs[k], render), net(PostAt(from, k)).reply.status, Data(net(PostAt(from, k)).reply)))
  }

  /** Executing jobs carries on exactly when every POST gets a reply, and it has then sent each
      POST followed by its refresh GET. */
  lemma {:induction false} ExecuteSucceeds(s: State, jobs: seq<Job>, dp: string, net: Net, render: Value -> string)
    ensures Execute(s, jobs, dp, net, render).Going? <==> Answered(net, |s.sent|, |jobs|)
    ensures Execute(s, jobs, dp, net, render).Going? ==>
      Execute(s, jobs, dp, net, render).state.sent == s.sent + Requests(dp, jobs, render)
    decreases |jobs|
  {
    if jobs != [] {
      var n := |jobs| - 1;
      ExecuteSucceeds(s, jobs[..n], dp, net, render);
      assert Answered(net, |s.sent|, n + 1) <==> Answered(net, |s.sent|, n) && net(PostAt(|s.sent|, n)).Returned?;
    }
  }

  /** Executing protections only records each of them, with its reply, after the protections
      recorded before. */
  lemma {:induction false} ExecuteCreates(s: State, jobs: seq<Job>, dp: string, net: Net, render: Value -> string)
    requires forall k :: 0 <= k < |jobs| ==> jobs[k].CreateJob?
    requires Execute(s, jobs, dp, net, render).Going?
    ensures Answered(net, |s.sent|, |jobs|)
    ensures Execute(s, jobs, dp, net, render).state.created == s.created + Records(dp, jobs, net, |s.sent|, render)
    ensures Execute(s, jobs, dp, net, render).state.attached == s.attached
    decreases |jobs|
  {
    ExecuteSucceeds(s, jobs, dp, net, render);
    if jobs != [] {
      var n := |jobs| - 1;
      ExecuteCreates(s, jobs[..n], dp, net, render);
      ExecuteSucceeds(s, jobs[..n], dp, net, render);
      assert forall k :: 0 <= k < n ==> jobs[..n][k] == jobs[k];
    }
  }

  /** Executing pairs only records each of them, with its reply, after the pairs recorded
      before. */
  lemma {:induction false} ExecuteAttaches(s: State, jobs: seq<Job>, dp: string, net: Net, render: Value -> string)
    requires forall k :: 0 <= k < |jobs| ==> jobs[k].AttachJob?
    requires Execute(s, jobs, dp, net, render).Going?
    ensures Answered(net, |s.sent|, |jobs|)
    ensures Execute(s, jobs, dp, net, render).state.attached == s.attached + Records(dp, jobs, net, |s.sent|, render)
    ensures Execute(s, jobs, dp, net, render).state.created == s.created
    decreases |jobs|
  {
    ExecuteSucceeds(s, jobs, dp, net, render);
    if jobs != [] {
      var n := |jobs| - 1;
      ExecuteAttaches(s, jobs[..n], dp, net, render);
      ExecuteSucceeds(s, jobs[..n], dp, net, render);
      assert forall k :: 0 <= k < n ==> jobs[..n][k] == jobs[k];
    }
  }

  /** When some POST gets no reply, there is a first one. */
  lemma {:induction false} FirstRaised(net: Net, from: nat, n: nat)
    requires !Answered(net, from, n)
    ensures exists k :: 0 <= k < n && Answered(net, from, k) && net(PostAt(from, k)).Raised?
    decreases n
  {
    if Answered(net, from, n - 1) {
      assert net(PostAt(from, n - 1)).Raised?;
    } else {
      FirstRaised(net, from, n - 1);
    }
  }

  /** Executing jobs stops at the first POST that raises, with its exception, after the requests
      of the jobs before it and that POST (no refresh GET follows it). */
  lemma {:induction false} ExecuteAborted(s: State, jobs: seq<Job>, dp: string, net: Net, render: Value -> string, k: nat)
    requires k < |jobs| && Answered(net, |s.sent|, k) && net(PostAt(|s.sent|, k)).Raised?
    ensures Execute(s, jobs, dp, net, render) ==
      Aborted(net(PostAt(|s.sent|, k)).msg, s.sent + Requests(dp, jobs[..k], render) + [PostRequest(dp, jobs[k], render)])
    decreases |jobs|
  {
    var n := |jobs| - 1;
    if k == n {
      ExecuteSucceeds(s, jobs[..n], dp, net, render);
    } else {
      ExecuteAborted(s, jobs[..n], dp, net, render, k);
      assert jobs[..n][..k] == jobs[..k];
    }
  }

  /** Executing jobs reads only the replies to its POSTs. */
  lemma {:induction false} ExecuteAgree(s: State, jobs: seq<Job>, dp: string, net: Net, net': Net, render: Value -> string)
    requires forall k :: 0 <= k < |jobs| ==> net(PostAt(|s.sent|, k)) == net'(PostAt(|s.sent|, k))
    ensures Execute(s, jobs, dp, net, render) == Execute(s, jobs, dp, net', render)
    decreases |jobs|
  {
    if jobs != [] {
      var n := |jobs| - 1;
      ExecuteAgree(s, jobs[..n], dp, net, net', render);
      ExecuteSucceeds(s, jobs[..n], dp, net, render);
      var r0 := Execute(s, jobs[..n], dp, net, render);
      if r0.Going? {
        assert |r0.state.sent| == PostAt(|s.sent|, n);
      }
    }
  }

  // ---------------------------------------------------------------------------------------------
  // The plan: what it holds
  // ---------------------------------------------------------------------------------------------

  /** Every protection has a name. */
  predicate Named(ps: seq<Value>)
  {
    forall k :: 0 <= k < |ps| ==> Subscript(ps[k], "name").Ok?
  }

  /** One POST per protection, in order: its name, its index (0 by default) and its row. */
  function CreateJobs(ps: seq<Value>): (r: seq<Job>)
    requires Named(ps)
    ensures |r| == |ps|
    ensures forall k :: 0 <= k < |r| ==> r[k].CreateJob?
  {
    seq(|ps|, k requires 0 <= k < |ps| =>
      CreateJob(Subscript(ps[k], "name").value, FieldOr(ps[k], "index", VInt(0)),
                ProtectionBody(Subscript(ps[k], "name").value, ps[k])))
  }

  /** The protections' loop raises exactly when a protection has no name; otherwise it POSTs
      every protection, in order. */
  lemma {:induction false} ProtectionsPlanShape(ps: seq<Value>)
    ensures ProtectionsPlan(ps).error.None? <==> Named(ps)
    ensures Named(ps) ==> ProtectionsPlan(ps).jobs == CreateJobs(ps)
    ensures forall k :: 0 <= k < |ProtectionsPlan(ps).jobs| ==> ProtectionsPlan(ps).jobs[k].CreateJob?
    decreases |ps|
  {
    if ps != [] {
      var n := |ps| - 1;
      ProtectionsPlanShape(ps[..n]);
      assert forall k :: 0 <= k < n ==> ps[..n][k] == ps[k];
      if Named(ps) {
        assert Named(ps[..n]);
      }
    }
  }

  /** The first protection without a name stops the loop with its `KeyError`, after the POSTs
      of the protections before it. */
  lemma {:induction false} ProtectionsPlanStops(ps: seq<Value>, i: nat)
    requires i < |ps| && Named(ps[..i]) && Subscript(ps[i], "name").Err?
    ensures ProtectionsPlan(ps) == Plan(CreateJobs(ps[..i]), Some(Subscript(ps[i], "name").msg))
    decreases |ps|
  {
    var n := |ps| - 1;
    if i == n {
      ProtectionsPlanShape(ps[..n]);
    } else {
      ProtectionsPlanStops(ps[..n], i);
      assert ps[..n][..i] == ps[..i];
    }
  }

  /** A profile's loop raises exactly when the profile has no name, its `protections` cannot be
      iterated, or it has protections and `params` that are not a dict. Otherwise it POSTs one
      pair per protection, in order, to the profile's row for that protection; and with no
      protections it sends nothing. */
  lemma ProfilePlanShape(profile: Value, dp: string, render: Value -> string)
    ensures var plan := ProfilePlan(profile);
      var names := Iter(FieldOr(profile, "protections", VList([])));
      (plan.error.None? <==>
         Subscript(profile, "name").Ok? && names.Some? && (names.value == [] || ProfileParams(profile).Ok?)) &&
      (plan.error.Some? ==> plan.jobs == []) &&
      (plan.error.None? ==>
         |plan.jobs| == |names.value| &&
         forall k :: 0 <= k < |plan.jobs| ==>
           plan.jobs[k].AttachJob? && plan.jobs[k].profile == Subscript(profile, "name").value &&
           plan.jobs[k].protection == names.value[k] &&
           PostRequest(dp, plan.jobs[k], render).path ==
             ConfigPath(dp, ProfilesTable + "/" + render(Subscript(profile, "name").value) + "/" + render(names.value[k])))
  {
  }

  /** A pair's body names the profile and the protection, first and in that order, unless a
      param is written to the same column; the keys stay distinct. */
  lemma PairBodyNames(profile: Value, protection: Value, params: Dict)
    ensures var body := Merge(PairBase(profile, protection), params);
      |Keys(body)| >= 2 && Keys(body)[..2] == ["rsIDSSynProfilesName", "rsIDSSynProfileServiceName"] &&
      UniqueKeys(body) &&
      ((forall i :: 0 <= i < |params| ==> ParamKey(params[i].0) != "rsIDSSynProfilesName") ==>
         Get(body, "rsIDSSynProfilesName") == Some(profile)) &&
      ((forall i :: 0 <= i < |params| ==> ParamKey(params[i].0) != "rsIDSSynProfileServiceName") ==>
         Get(body, "rsIDSSynProfileServiceName") == Some(protection))
  {
    var base := PairBase(profile, protection);
    MergeKeys(base, params);
    KeysLength(base);
    assert Keys(base) == ["rsIDSSynProfilesName", "rsIDSSynProfileServiceName"];
    if forall i :: 0 <= i < |params| ==> ParamKey(params[i].0) != "rsIDSSynProfilesName" {
      MergeGetUntouched(base, params, "rsIDSSynProfilesName");
    }
    if forall i :: 0 <= i < |params| ==> ParamKey(params[i].0) != "rsIDSSynProfileServiceName" {
      MergeGetUntouched(base, params, "rsIDSSynProfileServiceName");
      GetAt(base, 1, "rsIDSSynProfileServiceName");
    }
  }

  /** The profiles' loop raises exactly when one profile's does, and only pairs are POSTed. */
  lemma {:induction false} ProfilesPlanShape(profiles: seq<Value>)
    ensures ProfilesPlan(profiles).error.None? <==> forall m :: 0 <= m < |profiles| ==> ProfilePlan(profiles[m]).error.None?
    ensures forall k :: 0 <= k < |ProfilesPlan(profiles).jobs| ==> ProfilesPlan(profiles).jobs[k].AttachJob?
    decreases |profiles|
  {
    if profiles != [] {
      var n := |profiles| - 1;
      ProfilesPlanShape(profiles[..n]);
      assert forall m :: 0 <= m < n ==> profiles[..n][m] == profiles[m];
      ProfilePlanShape(profiles[n], "", Str);
    }
  }

  /** The first profile whose loop raises stops the profiles' loop with its exception, after the
      POSTs of the profiles before it. */
  lemma {:induction false} ProfilesPlanStops(profiles: seq<Value>, i: nat)
    requires i < |profiles| && ProfilePlan(profiles[i]).error.Some?
    requires forall m :: 0 <= m < i ==> ProfilePlan(profiles[m]).error.None?
    ensures ProfilesPlan(profiles) == Plan(ProfilesPlan(profiles[..i]).jobs, ProfilePlan(profiles[i]).error)
    decreases |profiles|
  {
    var n := |profiles| - 1;
    if i == n {
      ProfilesPlanShape(profiles[..n]);
      assert forall m :: 0 <= m < n ==> profiles[..n][m] == profiles[m];
      ProfilePlanShape(profiles[n], "", Str);
    } else {
      ProfilesPlanStops(profiles[..n], i);
      assert profiles[..n][..i] == profiles[..i];
    }
  }

  /** Every protection is POSTed before any pair. */
  lemma RunOrder(protections: seq<Value>, profiles: seq<Value>)
    ensures var jobs := FullPlan(protections, profiles).jobs;
      forall i, j :: 0 <= i < j < |jobs| && jobs[i].AttachJob? ==> jobs[j].AttachJob?
  {
    ProtectionsPlanShape(protections);
    ProfilesPlanShape(profiles);
  }

  // ---------------------------------------------------------------------------------------------
  // The run
  // ---------------------------------------------------------------------------------------------

  /** Check mode sends nothing and changes nothing. Otherwise the run completes exactly when
      every protection and profile is read without an exception and every POST gets a reply. */
  lemma RunSucceeds(protections: seq<Value>, profiles: seq<Value>, dp: string, net: Net, render: Value -> string)
    ensures Run(protections, profiles, true, dp, net, render) == Done(false, [], [], [])
    ensures Run(protections, profiles, false, dp, net, render).Done? <==>
      FullPlan(protections, profiles).error.None? && Answered(net, 0, |FullPlan(protections, profiles).jobs|)
  {
    ExecuteSucceeds(State([], [], []), FullPlan(protections, profiles).jobs, dp, net, render);
  }

  /** Protections then pairs, all POSTs answered: each POST followed by its refresh GET, and
      each job recorded in its list with its reply. */
  lemma {:induction false} ExecuteBoth(pj: seq<Job>, aj: seq<Job>, dp: string, net: Net, render: Value -> string)
    requires forall k :: 0 <= k < |pj| ==> pj[k].CreateJob?
    requires forall k :: 0 <= k < |aj| ==> aj[k].AttachJob?
    requires Execute(State([], [], []), pj + aj, dp, net, render).Going?
    ensures Answered(net, 0, |pj|) && Answered(net, PostAt(0, |pj|), |aj|)
    ensures Execute(State([], [], []), pj + aj, dp, net, render) ==
      Going(State(Records(dp, pj, net, 0, render), Records(dp, aj, net, PostAt(0, |pj|), render), Requests(dp, pj + aj, render)))
  {
    var s0 := State([], [], []);
    ExecuteAppend(s0, pj, aj, dp, net, render);
    var r0 := Execute(s0, pj, dp, net, render);
    assert r0.Going?;
    var t := r0.state;
    ExecuteCreates(s0, pj, dp, net, render);
    ExecuteSucceeds(s0, pj, dp, net, render);
    var created := Records(dp, pj, net, 0, render);
    assert t == State(created, [], Requests(dp, pj, render));
    var r1 := Execute(t, aj, dp, net, render);
    assert r1.Going?;
    ExecuteAttaches(t, aj, dp, net, render);
    ExecuteSucceeds(t, aj, dp, net, render);
    RequestsAppend(dp, pj, aj, render);
    var attached := Records(dp, aj, net, PostAt(0, |pj|), render);
    assert r1.state.attached == [] + attached;
    assert [] + attached == attached;
  }

  /** A plan of protections then pairs, carried out to the end, reports a change exactly when it
      has a job. */
  lemma {:induction false} FinishDone(plan: Plan, pj: seq<Job>, aj: seq<Job>, dp: string, net: Net, render: Value -> string)
    requires plan == Plan(pj + aj, None)
    requires forall k :: 0 <= k < |pj| ==> pj[k].CreateJob?
    requires forall k :: 0 <= k < |aj| ==> aj[k].AttachJob?
    requires Finish(plan, dp, net, render).Done?
    ensures Answered(net, 0, |pj|) && Answered(net, PostAt(0, |pj|), |aj|)
    ensures Finish(plan, dp, net, render) ==
      Done(pj + aj != [], Records(dp, pj, net, 0, render), Records(dp, aj, net, PostAt(0, |pj|), render),
           Requests(dp, pj + aj, render))
  {
    ExecuteBoth(pj, aj, dp, net, render);
    var created := Records(dp, pj, net, 0, render);
    var attached := Records(dp, aj, net, PostAt(0, |pj|), render);
    assert (created != [] || attached != []) <==> pj + aj != [] by {
      assert |created| == |pj| && |attached| == |aj|;
    }
  }

  /** A completed run has created every protection, in order, then attached every pair; each
      POST was followed by its refresh GET, each record holds its job's reply, and the run
      reports a change exactly when it sent a POST. */
  lemma RunDone(protections: seq<Value>, profiles: seq<Value>, dp: string, net: Net, render: Value -> string)
    requires Run(protections, profiles, false, dp, net, render).Done?
    ensures Named(protections) && ProfilesPlan(profiles).error == None
    ensures var pj := CreateJobs(protections);
      var aj := ProfilesPlan(profiles).jobs;
      Answered(net, 0, |pj|) && Answered(net, PostAt(0, |pj|), |aj|) &&
      Run(protections, profiles, false, dp, net, render) ==
        Done(pj + aj != [], Records(dp, pj, net, 0, render), Records(dp, aj, net, PostAt(0, |pj|), render),
             Requests(dp, pj + aj, render))
  {
    var plan := FullPlan(protections, profiles);
    ExecuteSucceeds(State([], [], []), plan.jobs, dp, net, render);
    ProtectionsPlanShape(protections);
    ProfilesPlanShape(profiles);
    FinishDone(plan, CreateJobs(protections), ProfilesPlan(profiles).jobs, dp, net, render);
  }

  /** A plan carried out that fails either ran all its POSTs, answered, and then met its
      exception, or stopped at the first POST that raised, right after sending it. */
  lemma FinishFailed(plan: Plan, dp: string, net: Net, render: Value -> string)
    requires Finish(plan, dp, net, render).Failed?
    ensures var r := Finish(plan, dp, net, render);
      (Answered(net, 0, |plan.jobs|) && plan.error.Some? && r == Failed(plan.error.value, Requests(dp, plan.jobs, render))) ||
      (exists k :: (0 <= k < |plan.jobs| && Answered(net, 0, k) && net(PostAt(0, k)).Raised? &&
                    r == Failed(net(PostAt(0, k)).msg, Requests(dp, plan.jobs[..k], render) + [PostRequest(dp, plan.jobs[k], render)])))
  {
    var s0 := State([], [], []);
    ExecuteSucceeds(s0, plan.jobs, dp, net, render);
    if !Answered(net, 0, |plan.jobs|) {
      FirstRaised(net, 0, |plan.jobs|);
      var k :| 0 <= k < |plan.jobs| && Answered(net, 0, k) && net(PostAt(0, k)).Raised?;
      FinishRaised(plan, dp, net, render, k);
    } else {
      assert Perform(s0, plan, dp, net, render) == Aborted(plan.error.value, s0.sent + Requests(dp, plan.jobs, render));
    }
  }

  /** The first POST that raises fails the run right after it is sent. */
  lemma FinishRaised(plan: Plan, dp: string, net: Net, render: Value -> string, k: nat)
    requires k < |plan.jobs| && Answered(net, 0, k) && net(PostAt(0, k)).Raised?
    ensures Finish(plan, dp, net, render) ==
      Failed(net(PostAt(0, k)).msg, Requests(dp, plan.jobs[..k], render) + [PostRequest(dp, plan.jobs[k], render)])
  {
    var s0 := State([], [], []);
    ExecuteAborted(s0, plan.jobs, dp, net, render, k);
    assert s0.sent + Requests(dp, plan.jobs[..k], render) == Requests(dp, plan.jobs[..k], render);
  }

  /** A run that fails either read every entry up to a protection or profile that raised, with
      all POSTs before it answered, or stopped at the first POST that raised, right after
      sending it. */
  lemma RunFailed(protections: seq<Value>, profiles: seq<Value>, dp: string, net: Net, render: Value -> string)
    requires Run(protections, profiles, false, dp, net, render).Failed?
    ensures var plan := FullPlan(protections, profiles);
      var r := Run(protections, profiles, false, dp, net, render);
      (Answered(net, 0, |plan.jobs|) && plan.error.Some? && r == Failed(plan.error.value, Requests(dp, plan.jobs, render))) ||
      (exists k :: (0 <= k < |plan.jobs| && Answered(net, 0, k) && net(PostAt(0, k)).Raised? &&
                    r == Failed(net(PostAt(0, k)).msg, Requests(dp, plan.jobs[..k], render) + [PostRequest(dp, plan.jobs[k], render)])))
  {
    FinishFailed(FullPlan(protections, profiles), dp, net, render);
  }

  /** The run reads only the replies to its POSTs: what the refresh GETs return or raise makes
      no difference. */
  lemma RunIgnoresRefreshReplies(protections: seq<Value>, profiles: seq<Value>, checkMode: bool, dp: string,
                                 net: Net, net': Net, render: Value -> string)
    requires forall j: nat :: j % 2 == 0 ==> net(j) == net'(j)
    ensures Run(protections, profiles, checkMode, dp, net, render) == Run(protections, profiles, checkMode, dp, net', render)
  {
    var jobs := FullPlan(protections, profiles).jobs;
    forall k | 0 <= k < |jobs| ensures net(PostAt(0, k)) == net'(PostAt(0, k)) {
      assert PostAt(0, k) % 2 == 0;
    }
    ExecuteAgree(State([], [], []), jobs, dp, net, net', render);
  }
}

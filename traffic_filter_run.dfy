/** The run shared by the Traffic Filter modules (plugins/modules/create_traffic_filter.py,
    edit_traffic_filter.py, delete_traffic_filter.py): the items of two lists in order, each one
    request whose parsed reply makes one entry of `..._profiles` or `..._protections`; the first
    exception ends the run with its message. */
module TrafficFilterRun {
  import opened Py
  import opened Http

  /** The two tables of the device's configuration the modules write to. */
  const ProfileTable := "rsNewTrafficProfileTable"
  const FilterTable := "rsNewTrafficFilterTable"

  // ---------------------------------------------------------------------------------------------
  // Items, entries and the run
  // ---------------------------------------------------------------------------------------------

  /** What an entry of the profiles or the protections list names. */
  datatype Label = ProfileLabel(name: Value) | FilterLabel(profile: Value, protection: Value)

  /** One request of the run and the entry it makes once answered. */
  datatype Job = Job(request: Request, item: Label)

  /** An entry of the profiles or of the protections list, with the parsed reply. */
  datatype Made = Made(item: Label, response: Value)

  /** The two lists so far, and the requests sent. */
  datatype State = State(profiles: seq<Made>, filters: seq<Made>, sent: seq<Request>)

  /** The run carries on, or an exception has ended it (with the requests sent until then). */
  datatype Progress = Going(state: State) | Aborted(msg: string, sent: seq<Request>)

  /** The entry a job adds to its list. */
  function Record(s: State, j: Job, response: Value, sent: seq<Request>): State
  {
    var m := Made(j.item, response);
    if j.item.ProfileLabel? then State(s.profiles + [m], s.filters, sent) else State(s.profiles, s.filters + [m], sent)
  }

  /** One item: reading it may raise before its request; the request or its `resp.json()` may raise
      after it. */
  function Step(s: State, job: Result<Job>, net: Net): Progress
  {
    match job
    case Err(e) => Aborted(e, s.sent)
    case Ok(j) =>
      var sent := s.sent + [j.request];
      match Answer(net(|s.sent|))
      case Err(e) => Aborted(e, sent)
      case Ok(data) => Going(Record(s, j, data, sent))
  }

  /** The items in order, up to the first exception. */
  function Perform(s: State, jobs: seq<Result<Job>>, net: Net): Progress
    decreases |jobs|
  {
    if jobs == [] then Going(s)
    else match Perform(s, jobs[..|jobs| - 1], net)
      case Aborted(m, sent) => Aborted(m, sent)
      case Going(t) => Step(t, jobs[|jobs| - 1], net)
  }

  const Start := State([], [], [])

  /** How the module ends.  `fail_json` reports the message with `changed` false and no
      response, whatever was created before; `exit_json` reports whether anything was created
      and the two lists.  A module whose handler itself raises ends with that `error` while
      handling the exception whose message is `context`, and reports nothing. */
  datatype RunResult =
    | Failed(msg: string, sent: seq<Request>)
    | Done(changed: bool, profiles: seq<Made>, filters: seq<Made>, sent: seq<Request>)
    | Crashed(error: string, context: string, sent: seq<Request>)

  /** A handler that raises `DebugInfoTwice` instead of failing the module with the message. */
  function DebugInfoHandler(r: RunResult): RunResult
  {
    if r.Failed? then Crashed(DebugInfoTwice, r.msg, r.sent) else r
  }

  /** One item of either loop. */
  method StepOne(s: State, job: Result<Job>, net: Net) returns (r: Progress)
    ensures r == Step(s, job, net)
  {
    if job.Err? {
      return Aborted(job.msg, s.sent);
    }
    var j := job.value;
    var data := Answer(net(|s.sent|));
    var sent := s.sent + [j.request];
    if data.Err? {
      return Aborted(data.msg, sent);
    }
    var m := Made(j.item, data.value);
    if j.item.ProfileLabel? {
      r := Going(State(s.profiles + [m], s.filters, sent));
    } else {
      r := Going(State(s.profiles, s.filters + [m], sent));
    }
  }

  /** Running two lists of items one after the other is running the first and, unless it
      raised, the second from where it left off. */
  lemma {:induction false} PerformAppend(s: State, a: seq<Result<Job>>, b: seq<Result<Job>>, net: Net)
    ensures Perform(s, a + b, net) ==
      match Perform(s, a, net)
      case Aborted(m, sent) => Aborted(m, sent)
      case Going(t) => Perform(t, b, net)
    decreases |b|
  {
    if b == [] {
      assert a + b == a;
    } else {
      var n := |b| - 1;
      assert (a + b)[..|a + b| - 1] == a + b[..n];
      PerformAppend(s, a, b[..n], net);
    }
  }

  lemma {:induction false} PerformStaysAborted(s: State, jobs: seq<Result<Job>>, net: Net, i: nat)
    requires i <= |jobs| && Perform(s, jobs[..i], net).Aborted?
    ensures Perform(s, jobs, net) == Perform(s, jobs[..i], net)
    decreases |jobs| - i
  {
    if i < |jobs| {
      assert jobs[..i + 1][..i] == jobs[..i];
      PerformStaysAborted(s, jobs, net, i + 1);
    } else {
      assert jobs[..i] == jobs;
    }
  }

  // ---------------------------------------------------------------------------------------------
  // What a run sends and records
  // ---------------------------------------------------------------------------------------------

  /** Every item can be read, and every request, counted from request `from`, is answered with
      JSON. */
  predicate Clear(jobs: seq<Result<Job>>, net: Net, from: nat)
  {
    forall k :: 0 <= k < |jobs| ==> jobs[k].Ok? && Answer(net(from + k)).Ok?
  }

  predicate Readable(jobs: seq<Result<Job>>)
  {
    forall k :: 0 <= k < |jobs| ==> jobs[k].Ok?
  }

  /** One request per item, in order. */
  function Requests(jobs: seq<Result<Job>>): (r: seq<Request>)
    requires Readable(jobs)
    ensures |r| == |jobs|
  {
    seq(|jobs|, k requires 0 <= k < |jobs| => jobs[k].value.request)
  }

  /** One entry per item, in order, each with the reply to its own request. */
  function Records(jobs: seq<Result<Job>>, net: Net, from: nat): (r: seq<Made>)
    requires Clear(jobs, net, from)
    ensures |r| == |jobs|
  {
    seq(|jobs|, k requires 0 <= k < |jobs| => Made(jobs[k].value.item, Answer(net(from + k)).value))
  }

  predicate AllProfiles(jobs: seq<Result<Job>>)
  {
    forall k :: 0 <= k < |jobs| && jobs[k].Ok? ==> jobs[k].value.item.ProfileLabel?
  }

  predicate AllFilters(jobs: seq<Result<Job>>)
  {
    forall k :: 0 <= k < |jobs| && jobs[k].Ok? ==> jobs[k].value.item.FilterLabel?
  }

  lemma PerformLast(s: State, jobs: seq<Result<Job>>, net: Net)
    requires jobs != []
    ensures var p := Perform(s, jobs[..|jobs| - 1], net);
      Perform(s, jobs, net) == if p.Aborted? then p else Step(p.state, jobs[|jobs| - 1], net)
  {
  }

  /** One item goes through exactly when it is read and its request answered with JSON; it then
      sends its request and adds its entry to its own list. */
  lemma StepOutcome(t: State, job: Result<Job>, net: Net)
    ensures Step(t, job, net).Going? <==> job.Ok? && Answer(net(|t.sent|)).Ok?
    ensures Step(t, job, net).Going? ==>
      var u := Step(t, job, net).state;
      var m := Made(job.value.item, Answer(net(|t.sent|)).value);
      u.sent == t.sent + [job.value.request] &&
      (job.value.item.ProfileLabel? ==> u.profiles == t.profiles + [m] && u.filters == t.filters) &&
      (job.value.item.FilterLabel? ==> u.filters == t.filters + [m] && u.profiles == t.profiles)
  {
  }

  lemma ClearLast(jobs: seq<Result<Job>>, net: Net, from: nat)
    requires jobs != []
    ensures var n := |jobs| - 1;
      Clear(jobs, net, from) <==> Clear(jobs[..n], net, from) && jobs[n].Ok? && Answer(net(from + n)).Ok?
  {
    var n := |jobs| - 1;
    if Clear(jobs, net, from) {
      forall k | 0 <= k < n ensures jobs[..n][k].Ok? && Answer(net(from + k)).Ok? {
        assert jobs[..n][k] == jobs[k];
      }
      assert Clear(jobs[..n], net, from);
      assert jobs[n].Ok? && Answer(net(from + n)).Ok?;
    }
    if Clear(jobs[..n], net, from) && jobs[n].Ok? && Answer(net(from + n)).Ok? {
      forall k | 0 <= k < |jobs| ensures jobs[k].Ok? && Answer(net(from + k)).Ok? {
        if k < n {
          assert jobs[..n][k] == jobs[k];
        }
      }
      assert Clear(jobs, net, from);
    }
  }

  lemma RecordsLast(jobs: seq<Result<Job>>, net: Net, from: nat)
    requires jobs != [] && Clear(jobs, net, from)
    ensures var n := |jobs| - 1;
      Clear(jobs[..n], net, from) &&
      Requests(jobs) == Requests(jobs[..n]) + [jobs[n].value.request] &&
      Records(jobs, net, from) == Records(jobs[..n], net, from) + [Made(jobs[n].value.item, Answer(net(from + n)).value)]
  {
    ClearLast(jobs, net, from);
  }

  /** Items run to the end exactly when every one is read and answered; they have then sent one
      request each, in order. */
  lemma {:induction false} PerformGoing(s: State, jobs: seq<Result<Job>>, net: Net)
    ensures Perform(s, jobs, net).Going? <==> Clear(jobs, net, |s.sent|)
    ensures Clear(jobs, net, |s.sent|) ==> Perform(s, jobs, net).state.sent == s.sent + Requests(jobs)
    decreases |jobs|
  {
    if jobs != [] {
      var n := |jobs| - 1;
      PerformGoing(s, jobs[..n], net);
      PerformLast(s, jobs, net);
      ClearLast(jobs, net, |s.sent|);
      var p := Perform(s, jobs[..n], net);
      if p.Going? {
        StepOutcome(p.state, jobs[n], net);
        if Clear(jobs, net, |s.sent|) {
          RecordsLast(jobs, net, |s.sent|);
        }
      }
    }
  }

  /** Items that all create profiles add their entries, in order, to the profiles list only. */
  lemma {:induction false} PerformProfiles(s: State, jobs: seq<Result<Job>>, net: Net)
    requires Clear(jobs, net, |s.sent|) && AllProfiles(jobs)
    ensures Perform(s, jobs, net).Going?
    ensures Perform(s, jobs, net).state.profiles == s.profiles + Records(jobs, net, |s.sent|)
    ensures Perform(s, jobs, net).state.filters == s.filters
    decreases |jobs|
  {
    PerformGoing(s, jobs, net);
    if jobs != [] {
      var n := |jobs| - 1;
      RecordsLast(jobs, net, |s.sent|);
      PerformProfiles(s, jobs[..n], net);
      PerformGoing(s, jobs[..n], net);
      PerformLast(s, jobs, net);
      StepOutcome(Perform(s, jobs[..n], net).state, jobs[n], net);
    }
  }

  /** Items that all create filters add their entries, in order, to the protections list
      only. */
  lemma {:induction false} PerformFilters(s: State, jobs: seq<Result<Job>>, net: Net)
    requires Clear(jobs, net, |s.sent|) && AllFilters(jobs)
    ensures Perform(s, jobs, net).Going?
    ensures Perform(s, jobs, net).state.filters == s.filters + Records(jobs, net, |s.sent|)
    ensures Perform(s, jobs, net).state.profiles == s.profiles
    decreases |jobs|
  {
    PerformGoing(s, jobs, net);
    if jobs != [] {
      var n := |jobs| - 1;
      RecordsLast(jobs, net, |s.sent|);
      PerformFilters(s, jobs[..n], net);
      PerformGoing(s, jobs[..n], net);
      PerformLast(s, jobs, net);
      StepOutcome(Perform(s, jobs[..n], net).state, jobs[n], net);
    }
  }

  /** The first item that cannot be read, or whose request raises or is not answered with JSON,
      ends the run with its exception; the requests before it have been sent, and its own request when
      it was read. */
  lemma PerformStops(s: State, jobs: seq<Result<Job>>, net: Net, k: nat)
    requires k < |jobs| && Clear(jobs[..k], net, |s.sent|)
    requires !(jobs[k].Ok? && Answer(net(|s.sent| + k)).Ok?)
    ensures Perform(s, jobs, net) ==
      Aborted(if jobs[k].Err? then jobs[k].msg else Answer(net(|s.sent| + k)).msg,
              s.sent + Requests(jobs[..k]) + if jobs[k].Ok? then [jobs[k].value.request] else [])
  {
    PerformGoing(s, jobs[..k], net);
    assert jobs[..k + 1][..k] == jobs[..k];
    PerformStaysAborted(s, jobs, net, k + 1);
  }

  /** When not every item runs clear, there is a first one that does not. */
  lemma {:induction false} FirstStop(jobs: seq<Result<Job>>, net: Net, from: nat) returns (k: nat)
    requires !Clear(jobs, net, from)
    ensures k < |jobs| && Clear(jobs[..k], net, from) && !(jobs[k].Ok? && Answer(net(from + k)).Ok?)
    decreases |jobs|
  {
    ClearLast(jobs, net, from);
    var n := |jobs| - 1;
    if Clear(jobs[..n], net, from) {
      k := n;
    } else {
      k := FirstStop(jobs[..n], net, from);
      assert jobs[..n][..k] == jobs[..k] && jobs[..n][k] == jobs[k];
    }
  }

  /** Clearing two lists of items one after the other is clearing each, the second counted on
      from where the first ends. */
  lemma ClearSplit(a: seq<Result<Job>>, b: seq<Result<Job>>, net: Net, from: nat)
    ensures Clear(a + b, net, from) <==> Clear(a, net, from) && Clear(b, net, from + |a|)
  {
    if Clear(a, net, from) && Clear(b, net, from + |a|) {
      forall k | 0 <= k < |a + b| ensures (a + b)[k].Ok? && Answer(net(from + k)).Ok? {
        if k < |a| {
          assert (a + b)[k] == a[k];
        } else {
          assert (a + b)[k] == b[k - |a|] && from + k == from + |a| + (k - |a|);
        }
      }
      assert Clear(a + b, net, from);
    }
    if Clear(a + b, net, from) {
      forall k | 0 <= k < |a| ensures a[k].Ok? && Answer(net(from + k)).Ok? {
        assert (a + b)[k] == a[k];
      }
      forall k | 0 <= k < |b| ensures b[k].Ok? && Answer(net(from + |a| + k)).Ok? {
        assert (a + b)[|a| + k] == b[k];
        assert (a + b)[|a| + k].Ok? && Answer(net(from + (|a| + k))).Ok?;
      }
      assert Clear(a, net, from);
      assert Clear(b, net, from + |a|);
    }
  }

  /** Profile items followed by filter items run to the end exactly when each list is clear in
      turn. */
  lemma PerformBothGoing(pj: seq<Result<Job>>, fj: seq<Result<Job>>, net: Net)
    ensures Perform(Start, pj + fj, net).Going? <==> Clear(pj, net, 0) && Clear(fj, net, |pj|)
  {
    PerformGoing(Start, pj + fj, net);
    ClearSplit(pj, fj, net, 0);
  }

  /** When they do, the state is one profile entry per profile item, one filter entry per
      filter item, and the profile requests before the filter requests. */
  lemma PerformBoth(pj: seq<Result<Job>>, fj: seq<Result<Job>>, net: Net)
    requires AllProfiles(pj) && AllFilters(fj)
    requires Clear(pj, net, 0) && Clear(fj, net, |pj|)
    ensures Perform(Start, pj + fj, net).Going?
    ensures Perform(Start, pj + fj, net).state ==
      State(Records(pj, net, 0), Records(fj, net, |pj|), Requests(pj) + Requests(fj))
  {
    PerformBothGoing(pj, fj, net);
    PerformAppend(Start, pj, fj, net);
    PerformProfiles(Start, pj, net);
    PerformGoing(Start, pj, net);
    var t := Perform(Start, pj, net).state;
    assert t == State(Records(pj, net, 0), [], Requests(pj));
    PerformFilters(t, fj, net);
    PerformGoing(t, fj, net);
  }

  /** The same with the filters first: the state is then one filter entry per filter item, one
      profile entry per profile item, and the filter requests before the profile requests. */
  lemma PerformFiltersFirst(fj: seq<Result<Job>>, pj: seq<Result<Job>>, net: Net)
    requires AllFilters(fj) && AllProfiles(pj)
    requires Clear(fj, net, 0) && Clear(pj, net, |fj|)
    ensures Perform(Start, fj + pj, net).Going?
    ensures Perform(Start, fj + pj, net).state ==
      State(Records(pj, net, |fj|), Records(fj, net, 0), Requests(fj) + Requests(pj))
  {
    PerformBothGoing(fj, pj, net);
    PerformAppend(Start, fj, pj, net);
    PerformFilters(Start, fj, net);
    PerformGoing(Start, fj, net);
    var t := Perform(Start, fj, net).state;
    assert t == State([], Records(fj, net, 0), Requests(fj));
    PerformProfiles(t, pj, net);
    PerformGoing(t, pj, net);
  }
}

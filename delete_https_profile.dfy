/** HTTPS-flood profile deletion (plugins/modules/delete_https_profile.py): the provider must
    give the controller and the credentials; then each listed profile is DELETEd by its `name`
    in turn.  A failed deletion is recorded and the loop goes on; a profile without a `name`
    ends the run with what was recorded so far. */
module DeleteHttpsProfile {
  import opened Py
  import opened Http

  const ProfileTable := "rsHttpsFloodProfileTable"
  const NotDeleted := "Check mode - not deleted"

  /** The `AttributeError` of `setdefault` on a reply that is not a JSON object. */
  const NoSetdefault := "object has no attribute 'setdefault'"

  /** `build_api_path`: `/mgmt/device/byip/{dp_ip}/config/rsHttpsFloodProfileTable/{name}/`. */
  function ProfilePath(dp: string, name: Value): string
  {
    ConfigPath(dp, ProfileTable + "/" + Str(name) + "/")
  }

  function DeleteRequest(dp: string, name: Value): Request
  {
    Request(DELETE, ProfilePath(dp, name), None)
  }

  // ---------------------------------------------------------------------------------------------
  // One profile
  // ---------------------------------------------------------------------------------------------

  /** `resp.json() if resp.content else {"status": "deleted"}`: an empty reply counts as a
      deletion, and a non-empty one must parse. */
  function Data(r: Reply): Option<Value>
  {
    if r.text != "" then r.json else Some(VDict([("status", VStr("deleted"))]))
  }

  /** `data.setdefault(k, v)` on the reply: a JSON object keeps an existing `k` and gains `v`
      otherwise; any other value raises. */
  function SetDefault(data: Value, k: string, v: Value): Result<Value>
  {
    if !data.VDict? then Err(NoSetdefault)
    else if Get(data.entries, k).Some? then Ok(data)
    else Ok(VDict(data.entries + [(k, v)]))
  }

  /** The entry of a profile whose deletion raised. */
  function Failure(profile: Value, e: string): Value
  {
    VDict([("profile", profile), ("response", VDict([("error", VStr(e))])), ("failed", VBool(true))])
  }

  /** A DELETE that succeeded: a reply with status 200 or 204 whose data could be read. */
  predicate Deleted(o: Outcome)
  {
    o.Returned? && o.reply.status in {200, 204} && Data(o.reply).Some?
  }

  /** The response entry of a profile whose DELETE had outcome `o`. */
  function Entry(profile: Value, o: Outcome): Value
  {
    match o
    case Raised(e) => Failure(profile, e)
    case Returned(r) =>
      match Data(r)
      case None => Failure(profile, JsonDecodeError)
      case Some(d) =>
        if r.status in {200, 204} then VDict([("profile", profile), ("response", d)])
        else
          match SetDefault(d, "error", VStr("HTTP " + IntToString(r.status)))
          case Err(e) => Failure(profile, e)
          case Ok(d') => VDict([("profile", profile), ("response", d'), ("failed", VBool(true))])
  }

  /** The two shapes of an entry: a success, and a failure flagged `failed`. */
  lemma EntryShapes(profile: Value, response: Value)
    ensures var ok := VDict([("profile", profile), ("response", response)]);
      Field(ok, "failed") == None && Field(ok, "profile") == Some(profile)
    ensures var bad := VDict([("profile", profile), ("response", response), ("failed", VBool(true))]);
      Field(bad, "failed") == Some(VBool(true)) && Field(bad, "profile") == Some(profile) &&
      FieldOr(bad, "response", VNone) == response
  {
    var ok := [("profile", profile), ("response", response)];
    var bad := [("profile", profile), ("response", response), ("failed", VBool(true))];
    GetAt(ok, 0, "profile");
    GetAt(bad, 0, "profile");
    GetAt(bad, 1, "response");
    GetAt(bad, 2, "failed");
    GetSome(ok, "failed");
  }

  /** A profile's entry is marked failed exactly when its DELETE did not succeed, and a failed
      entry's response always carries an `error`: the exception's message, the reply's own
      `error`, or the HTTP status. */
  lemma EntryFlags(profile: Value, o: Outcome)
    ensures Field(Entry(profile, o), "failed") == (if Deleted(o) then None else Some(VBool(true)))
    ensures !Deleted(o) ==> Field(FieldOr(Entry(profile, o), "response", VNone), "error").Some?
    ensures Field(Entry(profile, o), "profile") == Some(profile)
  {
    match o
    case Raised(e) =>
      EntryShapes(profile, VDict([("error", VStr(e))]));
    case Returned(r) =>
      match Data(r)
      case None =>
        EntryShapes(profile, VDict([("error", VStr(JsonDecodeError))]));
      case Some(d) =>
        if r.status in {200, 204} {
          EntryShapes(profile, d);
        } else {
          var e := VStr("HTTP " + IntToString(r.status));
          match SetDefault(d, "error", e)
          case Err(x) =>
            EntryShapes(profile, VDict([("error", VStr(x))]));
          case Ok(d') =>
            EntryShapes(profile, d');
            if Get(d.entries, "error").None? {
              GetAppend(d.entries, [("error", e)], "error");
            }
        }
  }

  /** What the module records: `changed`, the `response` entries, the `requests` and
      `responses` debug records, and the requests sent. */
  datatype Log = Log(changed: bool, response: seq<Value>, requests: seq<Value>, responses: seq<Value>, sent: seq<Request>)

  const NoLog := Log(false, [], [], [], [])

  /** The loop so far: still going, or stopped by an exception outside the per-profile `try`. */
  datatype Pass = Going(log: Log) | Stopped(msg: string, log: Log)

  /** The entry of a profile in check mode. */
  function CheckEntry(profile: Value): Value
  {
    VDict([("profile", profile), ("msg", VStr(NotDeleted))])
  }

  /** One iteration: the path needs the profile's `name` (a missing one raises out of the
      loop); then a debug record of the request; in check mode a "not deleted" entry; otherwise
      the DELETE, a status record when a reply arrives, and the profile's entry. */
  function Delete(log: Log, profile: Value, checkMode: bool, dp: string, ccIp: string, net: Net): Pass
  {
    match Subscript(profile, "name")
    case Err(e) => Stopped(e, log)
    case Ok(name) =>
      var requests := log.requests + [VDict([("method", VStr("DELETE")), ("url", VStr("https://" + ccIp + ProfilePath(dp, name)))])];
      if checkMode then
        Going(log.(requests := requests, response := log.response + [CheckEntry(profile)]))
      else
        var o := net(|log.sent|);
        Going(Log(log.changed || Deleted(o),
                  log.response + [Entry(profile, o)],
                  requests,
                  log.responses + (if o.Returned? then [VDict([("profile", profile), ("status_code", VInt(o.reply.status))])] else []),
                  log.sent + [DeleteRequest(dp, name)]))
  }

  /** One iteration that goes on adds one request record and one entry; it sends nothing in
      check mode, and otherwise sends the profile's DELETE as the next request, whose outcome
      makes the entry and may set `changed`. */
  lemma DeleteOne(log: Log, profile: Value, checkMode: bool, dp: string, ccIp: string, net: Net)
    requires Delete(log, profile, checkMode, dp, ccIp, net).Going?
    ensures var l := Delete(log, profile, checkMode, dp, ccIp, net).log;
      Subscript(profile, "name").Ok? && |l.requests| == |log.requests| + 1 &&
      (checkMode ==>
        l.response == log.response + [CheckEntry(profile)] &&
        l.sent == log.sent && l.responses == log.responses && l.changed == log.changed) &&
      (!checkMode ==>
        l.response == log.response + [Entry(profile, net(|log.sent|))] &&
        l.sent == log.sent + [DeleteRequest(dp, Subscript(profile, "name").value)] &&
        l.changed == (log.changed || Deleted(net(|log.sent|))))
  {
  }

  /** The loop over `https_profiles`. */
  function DeleteAll(profiles: seq<Value>, checkMode: bool, dp: string, ccIp: string, net: Net): Pass
    decreases |profiles|
  {
    if profiles == [] then Going(NoLog)
    else
      match DeleteAll(profiles[..|profiles| - 1], checkMode, dp, ccIp, net)
      case Stopped(e, log) => Stopped(e, log)
      case Going(log) => Delete(log, profiles[|profiles| - 1], checkMode, dp, ccIp, net)
  }

  method DeleteLoop(profiles: seq<Value>, checkMode: bool, dp: string, ccIp: string, net: Net) returns (p: Pass)
    ensures p == DeleteAll(profiles, checkMode, dp, ccIp, net)
  {
    var log := NoLog;
    var i := 0;
    while i < |profiles|
      invariant 0 <= i <= |profiles|
      invariant DeleteAll(profiles[..i], checkMode, dp, ccIp, net) == Going(log)
    {
      assert profiles[..i + 1][..i] == profiles[..i];
      var next := Delete(log, profiles[i], checkMode, dp, ccIp, net);
      if next.Stopped? {
        assert profiles[..i + 1] == profiles[..i] + [profiles[i]];
        StoppedStays(profiles, i + 1, checkMode, dp, ccIp, net);
        return next;
      }
      log := next.log;
      i := i + 1;
    }
    assert profiles[..i] == profiles;
    p := Going(log);
  }

  /** Once stopped, the loop stays stopped with the same message and record. */
  lemma {:induction false} StoppedStays(profiles: seq<Value>, i: nat, checkMode: bool, dp: string, ccIp: string, net: Net)
    requires i <= |profiles| && DeleteAll(profiles[..i], checkMode, dp, ccIp, net).Stopped?
    ensures DeleteAll(profiles, checkMode, dp, ccIp, net) == DeleteAll(profiles[..i], checkMode, dp, ccIp, net)
    decreases |profiles| - i
  {
    if i < |profiles| {
      assert profiles[..i + 1][..i] == profiles[..i];
      StoppedStays(profiles, i + 1, checkMode, dp, ccIp, net);
    } else {
      assert profiles[..i] == profiles;
    }
  }

  /** Every profile gets one request record and one response entry, and nothing else is
      recorded.  In check mode nothing is sent, no status is recorded and nothing changes;
      otherwise each profile sends exactly one request. */
  lemma {:induction false} DeleteAllRecords(profiles: seq<Value>, checkMode: bool, dp: string, ccIp: string, net: Net)
    requires DeleteAll(profiles, checkMode, dp, ccIp, net).Going?
    ensures var log := DeleteAll(profiles, checkMode, dp, ccIp, net).log;
      (forall i :: 0 <= i < |profiles| ==> Subscript(profiles[i], "name").Ok?) &&
      |log.requests| == |profiles| && |log.response| == |profiles| &&
      (checkMode ==>
        log.sent == [] && log.responses == [] && !log.changed &&
        forall i :: 0 <= i < |profiles| ==> log.response[i] == CheckEntry(profiles[i])) &&
      (!checkMode ==> |log.sent| == |profiles|)
    decreases |profiles|
  {
    if profiles != [] {
      var n := |profiles| - 1;
      var init := profiles[..n];
      assert DeleteAll(init, checkMode, dp, ccIp, net).Going?;
      DeleteAllRecords(init, checkMode, dp, ccIp, net);
      DeleteOne(DeleteAll(init, checkMode, dp, ccIp, net).log, profiles[n], checkMode, dp, ccIp, net);
      forall i | 0 <= i < n ensures profiles[i] == init[i] {
      }
    }
  }

  /** Outside check mode the `i`-th request sent is the DELETE of the `i`-th profile. */
  lemma {:induction false} DeleteAllSent(profiles: seq<Value>, dp: string, ccIp: string, net: Net)
    requires DeleteAll(profiles, false, dp, ccIp, net).Going?
    ensures var log := DeleteAll(profiles, false, dp, ccIp, net).log;
      |log.sent| == |profiles| &&
      forall i :: 0 <= i < |profiles| ==>
        Subscript(profiles[i], "name").Ok? && log.sent[i] == DeleteRequest(dp, Subscript(profiles[i], "name").value)
    decreases |profiles|
  {
    DeleteAllRecords(profiles, false, dp, ccIp, net);
    if profiles != [] {
      var n := |profiles| - 1;
      var init := profiles[..n];
      assert DeleteAll(init, false, dp, ccIp, net).Going?;
      DeleteAllSent(init, dp, ccIp, net);
      var log0 := DeleteAll(init, false, dp, ccIp, net).log;
      DeleteOne(log0, profiles[n], false, dp, ccIp, net);
      var log := DeleteAll(profiles, false, dp, ccIp, net).log;
      assert log.sent == log0.sent + [DeleteRequest(dp, Subscript(profiles[n], "name").value)];
      forall i | 0 <= i < |profiles|
        ensures log.sent[i] == DeleteRequest(dp, Subscript(profiles[i], "name").value)
      {
        if i < n {
          assert profiles[i] == init[i];
        }
      }
    }
  }

  /** Outside check mode the `i`-th entry is `Entry` of the `i`-th request's outcome, whether
      it raised or not: the loop goes on either way. */
  lemma {:induction false} DeleteAllEntries(profiles: seq<Value>, dp: string, ccIp: string, net: Net)
    requires DeleteAll(profiles, false, dp, ccIp, net).Going?
    ensures var log := DeleteAll(profiles, false, dp, ccIp, net).log;
      |log.response| == |profiles| &&
      forall i :: 0 <= i < |profiles| ==> log.response[i] == Entry(profiles[i], net(i))
    decreases |profiles|
  {
    if profiles != [] {
      var n := |profiles| - 1;
      var init := profiles[..n];
      assert DeleteAll(init, false, dp, ccIp, net).Going?;
      DeleteAllEntries(init, dp, ccIp, net);
      DeleteAllRecords(init, false, dp, ccIp, net);
      var log0 := DeleteAll(init, false, dp, ccIp, net).log;
      assert |log0.sent| == n;
      DeleteOne(log0, profiles[n], false, dp, ccIp, net);
      assert DeleteAll(profiles, false, dp, ccIp, net) == Delete(log0, profiles[n], false, dp, ccIp, net);
      var log := DeleteAll(profiles, false, dp, ccIp, net).log;
      assert log.response == log0.response + [Entry(profiles[n], net(n))];
      forall i | 0 <= i < |profiles| ensures log.response[i] == Entry(profiles[i], net(i)) {
        if i < n {
          assert log.response[i] == log0.response[i] == Entry(init[i], net(i));
          assert profiles[i] == init[i];
        }
      }
    }
  }

  /** Outside check mode the run has changed something exactly when some DELETE succeeded. */
  lemma {:induction false} DeleteAllChanged(profiles: seq<Value>, dp: string, ccIp: string, net: Net)
    requires DeleteAll(profiles, false, dp, ccIp, net).Going?
    ensures DeleteAll(profiles, false, dp, ccIp, net).log.changed <==> exists i :: 0 <= i < |profiles| && Deleted(net(i))
    decreases |profiles|
  {
    DeleteAllRecords(profiles, false, dp, ccIp, net);
    if profiles != [] {
      var n := |profiles| - 1;
      var init := profiles[..n];
      assert DeleteAll(init, false, dp, ccIp, net).Going?;
      DeleteAllChanged(init, dp, ccIp, net);
      DeleteAllRecords(init, false, dp, ccIp, net);
      var log0 := DeleteAll(init, false, dp, ccIp, net).log;
      DeleteOne(log0, profiles[n], false, dp, ccIp, net);
      assert |log0.sent| == n;
    }
  }

  /** A run stopped by a profile without a usable `name` stops at the first such profile, with
      its exception's message, having recorded only the profiles before it. */
  lemma {:induction false} DeleteAllStops(profiles: seq<Value>, checkMode: bool, dp: string, ccIp: string, net: Net)
    requires DeleteAll(profiles, checkMode, dp, ccIp, net).Stopped?
    ensures var p := DeleteAll(profiles, checkMode, dp, ccIp, net);
      exists j :: 0 <= j < |profiles| && Subscript(profiles[j], "name") == Err(p.msg) &&
        (forall i :: 0 <= i < j ==> Subscript(profiles[i], "name").Ok?) &&
        |p.log.response| == j && |p.log.requests| == j
    decreases |profiles|
  {
    var n := |profiles| - 1;
    var init := profiles[..n];
    forall i | 0 <= i < n ensures profiles[i] == init[i] {
    }
    if DeleteAll(init, checkMode, dp, ccIp, net).Stopped? {
      DeleteAllStops(init, checkMode, dp, ccIp, net);
    } else {
      DeleteAllRecords(init, checkMode, dp, ccIp, net);
    }
  }

  // ---------------------------------------------------------------------------------------------
  // The module
  // ---------------------------------------------------------------------------------------------

  /** The first of `cc_ip`, `username` and `password` that the provider lacks or gives empty. */
  function MissingField(provider: Dict): Option<string>
  {
    if !Truthy(GetOr(provider, "cc_ip", VNone)) then Some("cc_ip")
    else if !Truthy(GetOr(provider, "username", VNone)) then Some("username")
    else if !Truthy(GetOr(provider, "password", VNone)) then Some("password")
    else None
  }

  /** How the module ends: `exit_json` or `fail_json`, each with what was recorded. */
  datatype Finish = Exited(log: Log) | Failed(msg: string, log: Log)

  function Run(profiles: seq<Value>, provider: Dict, checkMode: bool, dp: string, net: Net): Finish
  {
    match MissingField(provider)
    case Some(k) => Failed("Missing required provider field: " + k, NoLog)
    case None =>
      match DeleteAll(profiles, checkMode, dp, Str(GetOr(provider, "cc_ip", VNone)), net)
      case Going(log) => Exited(log)
      case Stopped(e, log) => Failed(e, log)
  }

  method RunModule(profiles: seq<Value>, provider: Dict, checkMode: bool, dp: string, net: Net) returns (r: Finish)
    ensures r == Run(profiles, provider, checkMode, dp, net)
  {
    var missing := MissingField(provider);
    if missing.Some? {
      return Failed("Missing required provider field: " + missing.value, NoLog);
    }
    var p := DeleteLoop(profiles, checkMode, dp, Str(GetOr(provider, "cc_ip", VNone)), net);
    if p.Stopped? {
      return Failed(p.msg, p.log);
    }
    r := Exited(p.log);
  }

  /** A provider missing the controller or a credential fails before any request, naming the
      first such field.  Otherwise the run exits exactly when every profile has a `name`, and
      then it records every profile, sending nothing in check mode. */
  lemma RunOutcome(profiles: seq<Value>, provider: Dict, checkMode: bool, dp: string, net: Net)
    ensures var r := Run(profiles, provider, checkMode, dp, net);
      (MissingField(provider).Some? ==>
        r == Failed("Missing required provider field: " + MissingField(provider).value, NoLog)) &&
      (MissingField(provider).None? ==>
        (r.Exited? <==> forall i :: 0 <= i < |profiles| ==> Subscript(profiles[i], "name").Ok?) &&
        (r.Exited? ==> |r.log.response| == |profiles| && (checkMode ==> r.log.sent == [] && !r.log.changed)))
  {
    if MissingField(provider).None? {
      var ccIp := Str(GetOr(provider, "cc_ip", VNone));
      if DeleteAll(profiles, checkMode, dp, ccIp, net).Going? {
        DeleteAllRecords(profiles, checkMode, dp, ccIp, net);
      } else {
        DeleteAllStops(profiles, checkMode, dp, ccIp, net);
      }
    }
  }
}

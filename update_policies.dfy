/** Applying pending configuration to a DefensePro device (plugins/modules/update_policies.py):
    one POST to `updatepolicies`, whose 200 reply is then classified by searching its text for
    error and success words. */
module UpdatePolicies {
  import opened Py
  import opened Http

  const ErrorPatterns: seq<string> := ["error", "failed", "exception", "timeout", "denied"]
  const SuccessPatterns: seq<string> := ["success", "completed", "applied", "updated"]
  const Unconfirmed := "API response does not provide clear success confirmation - verify policy status manually"

  /** `any(pattern in s for pattern in patterns)`. */
  predicate AnyIn(patterns: seq<string>, s: string)
  {
    exists i :: 0 <= i < |patterns| && Contains(s, patterns[i])
  }

  /** How a 200 reply's data reads: a failure, or a success that does or does not confirm
      itself. */
  datatype Verdict = Failure | Success(confirmed: bool)

  function Classify(responseData: Value): Verdict
  {
    var text := Lower(Str(responseData));
    if AnyIn(ErrorPatterns, text) then Failure else Success(AnyIn(SuccessPatterns, text))
  }

  /** Case does not matter: data whose text mentions an error word in any letter case is a
      failure. */
  lemma ClassifyIgnoresCase(responseData: Value, word: string, i: nat)
    requires i < |ErrorPatterns| && Lower(word) == ErrorPatterns[i]
    requires Contains(Str(responseData), word)
    ensures Classify(responseData) == Failure
  {
    ContainsLower(Str(responseData), word);
  }

  /** A reply that mentions no error word is a success, confirmed iff it mentions a success
      word. */
  lemma ClassifySuccess(responseData: Value)
    requires forall i :: 0 <= i < |ErrorPatterns| ==> !Contains(Lower(Str(responseData)), ErrorPatterns[i])
    ensures Classify(responseData).Success?
    ensures Classify(responseData).confirmed <==>
      exists i :: 0 <= i < |SuccessPatterns| && Contains(Lower(Str(responseData)), SuccessPatterns[i])
  {
  }

  /** `resp.json()`, or `{"response_text": resp.text}` when the body is not JSON. */
  function ResponseData(r: Reply): Value
  {
    match r.json
    case Some(j) => j
    case None => VDict([("response_text", VStr(r.text))])
  }

  datatype RunResult = Exited(changed: bool, response: Value, sent: seq<Request>) | Failed(msg: string, sent: seq<Request>)

  function UpdateRequest(dp: string): Request
  {
    Request(POST, ConfigPath(dp, "updatepolicies"), None)
  }

  function PreviewResponse(dp: string): Value
  {
    VDict([("preview_mode", VBool(true)),
           ("planned_operations", VList([VDict([("operation", VStr("apply_policy_updates")),
                                                 ("device", VStr(dp)),
                                                 ("description", VStr("Apply pending configuration changes to " + dp))])])),
           ("message", VStr("PREVIEW MODE - Would apply policy updates to " + dp))])
  }

  function SuccessResponse(dp: string, data: Value, confirmed: bool): Value
  {
    VDict([("status", VStr("success")),
           ("message", VStr("Policy updates applied successfully on " + dp)),
           ("api_response", data),
           ("warnings", if confirmed then VNone else VList([VStr(Unconfirmed)]))])
  }

  /** Preview plans exactly one operation, the update of this device. */
  lemma PreviewPlansOne(dp: string)
    ensures var ops := FieldOr(PreviewResponse(dp), "planned_operations", VNone);
      ops.VList? && |ops.items| == 1 && Field(ops.items[0], "device") == Some(VStr(dp))
  {
    var d := PreviewResponse(dp).entries;
    assert d[0].0 != "planned_operations" by { assert d[0].0[1] != "planned_operations"[1]; }
    GetAt(d, 1, "planned_operations");
    var op := d[1].1.items[0].entries;
    assert op[0].0 != "device" by { assert op[0].0[0] != "device"[0]; }
    GetAt(op, 1, "device");
  }

  /** A reported success always says "success", carries the reply's data, and warns iff the data
      confirms nothing. */
  lemma SuccessResponseFields(dp: string, data: Value, confirmed: bool)
    ensures var v := SuccessResponse(dp, data, confirmed);
      Field(v, "status") == Some(VStr("success")) && Field(v, "api_response") == Some(data) &&
      (Field(v, "warnings") == Some(VNone) <==> confirmed)
  {
    var d := SuccessResponse(dp, data, confirmed).entries;
    GetAt(d, 0, "status");
    assert d[0].0 != "api_response" by { assert d[0].0[0] != "api_response"[0]; }
    assert d[1].0 != "api_response" by { assert d[1].0[0] != "api_response"[0]; }
    GetAt(d, 2, "api_response");
    assert d[0].0 != "warnings" by { assert d[0].0[0] != "warnings"[0]; }
    assert d[1].0 != "warnings" by { assert d[1].0[0] != "warnings"[0]; }
    assert d[2].0 != "warnings" by { assert d[2].0[0] != "warnings"[0]; }
    GetAt(d, 3, "warnings");
  }

  /** The module run.  Check mode plans the one update and sends nothing; otherwise the POST is
      sent once, a non-200 reply or a raised request fails the module, and a 200 reply succeeds
      iff its data mentions no error word (in any case), warning when it mentions no success
      word either. */
  function Run(dp: string, checkMode: bool, net: Net): (r: RunResult)
    ensures checkMode ==> r.Exited? && r.changed && r.sent == [] && r.response == PreviewResponse(dp)
    ensures !checkMode ==> r.sent == [UpdateRequest(dp)]
    ensures !checkMode && r.Exited? ==>
      net(0).Returned? && net(0).reply.status == 200 && r.changed &&
      Classify(ResponseData(net(0).reply)).Success? &&
      r.response == SuccessResponse(dp, ResponseData(net(0).reply), Classify(ResponseData(net(0).reply)).confirmed)
    ensures !checkMode && net(0).Returned? && net(0).reply.status == 200 ==>
      (r.Failed? <==> AnyIn(ErrorPatterns, Lower(Str(ResponseData(net(0).reply)))))
  {
    if checkMode then Exited(true, PreviewResponse(dp), [])
    else
      var sent := [UpdateRequest(dp)];
      match net(0)
      case Raised(m) => Failed("Error applying policy updates to " + dp + ": " + m, sent)
      case Returned(reply) =>
        if reply.status == 200 then
          var data := ResponseData(reply);
          match Classify(data)
          case Failure => Failed("Policy update failed for " + dp + ": API response indicates failure", sent)
          case Success(confirmed) => Exited(true, SuccessResponse(dp, data, confirmed), sent)
        else Failed("Policy update failed for " + dp + ": HTTP " + IntToString(reply.status) + " - " + reply.text, sent)
  }
}

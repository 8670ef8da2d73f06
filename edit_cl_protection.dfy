/** Editing one connection-limit protection (plugins/modules/edit_cl_protection.py): the module
    parameters that are not `None` make up a partial body, translated through the protection
    tables, which is PUT to `rsIDSConnectionLimitAttackTable/{protection_index}`; check mode and
    an empty body send nothing. */
module EditClProtection {
  import opened Py
  import opened Http
  import opened Tables
  import opened ConnectionLimit

  const NoParameters := "No parameters provided to update"

  /** `module.params[key] is not None`, then that value. */
  function GivenNotNone(params: Dict): string -> Option<Value>
  {
    k => if GetOr(params, k, VNone) == VNone then None else Some(GetOr(params, k, VNone))
  }

  function EditRequest(dp: string, index: int, body: Dict): Request
  {
    Request(PUT, ConfigPath(dp, "rsIDSConnectionLimitAttackTable/" + IntToString(index)), Some(VDict(body)))
  }

  /** How the module ends: `fail_json` with a message, or `exit_json` with `changed`, an optional
      message and the response; either way with the requests it sent. */
  datatype RunResult =
    | Failed(msg: string, sent: seq<Request>)
    | Done(changed: bool, msg: string, response: Value, sent: seq<Request>)

  /** The reply to the PUT: its JSON makes the change; an exception, or a reply that is not JSON,
      fails the module. */
  function Conclude(req: Request, o: Outcome): RunResult
  {
    match o
    case Raised(e) => Failed(e, [req])
    case Returned(r) =>
      match r.json
      case None => Failed("Invalid JSON response: " + r.text, [req])
      case Some(data) => Done(true, "", data, [req])
  }

  /** `exit_json(changed=False, msg=..., **result)` while `result` already holds `changed`. */
  const ChangedTwice := DuplicateKeyword("exit_json", "changed")

  /** The module run as written, for the parameters `ps` in the order the module inserts them:
      the exit for an empty body raises the TypeError of `ChangedTwice` inside the `try`, and the
      handler fails the module with its message. */
  function Run(params: Dict, index: int, checkMode: bool, dp: string, net: Net, ps: seq<Param> := EditParams): RunResult
  {
    RunWith(Failed(ChangedTwice, []), params, index, checkMode, dp, net, ps)
  }

  /** The module run as meant: an empty body exits unchanged with `NoParameters`. */
  function Intended(params: Dict, index: int, checkMode: bool, dp: string, net: Net, ps: seq<Param> := EditParams): RunResult
  {
    RunWith(Done(false, NoParameters, VDict([]), []), params, index, checkMode, dp, net, ps)
  }

  /** The run, ending with `onEmpty` when no parameter puts anything in the body. */
  function RunWith(onEmpty: RunResult, params: Dict, index: int, checkMode: bool, dp: string, net: Net, ps: seq<Param>): RunResult
  {
    if checkMode then Done(false, "", VDict([]), [])
    else match PartialBody(GivenNotNone(params), ps)
      case Err(e) => Failed(e, [])
      case Ok(Invalid(m)) => Failed(m, [])
      case Ok(Body(body)) =>
        if body == [] then onEmpty
        else Conclude(EditRequest(dp, index, body), net(0))
  }

  method RunModule(params: Dict, index: int, checkMode: bool, dp: string, net: Net) returns (r: RunResult)
    ensures r == Run(params, index, checkMode, dp, net)
  {
    if checkMode {
      return Done(false, "", VDict([]), []);
    }
    var partial := PartialLoop(GivenNotNone(params), EditParams);
    if partial.Err? {
      return Failed(partial.msg, []);
    }
    match partial.value {
      case Invalid(m) => return Failed(m, []);
      case Body(body) =>
        if body == [] {
          return Failed(ChangedTwice, []);
        }
        var req := EditRequest(dp, index, body);
        r := Conclude(req, net(0));
    }
  }

  /** Outside check mode the module sends a request exactly when every given parameter is
      accepted and at least one is given, and it reports a change only after sending one; check
      mode sends nothing and changes nothing. */
  lemma RunSends(params: Dict, index: int, checkMode: bool, dp: string, net: Net, ps: seq<Param>)
    requires SuffixesDistinct(ps)
    ensures var r := Run(params, index, checkMode, dp, net, ps);
      var given := GivenNotNone(params);
      (r.sent != [] <==>
         !checkMode && (forall i :: 0 <= i < |ps| ==> Accepted(ParamStep(given, ps[i]))) && Emitted(given, ps) != []) &&
      (r.Done? && r.changed ==> r.sent != [])
  {
    BodyNonEmpty(GivenNotNone(params), ps);
  }

  /** A non-empty body is built exactly when every given parameter is accepted and one is given. */
  lemma BodyNonEmpty(given: string -> Option<Value>, ps: seq<Param>)
    requires SuffixesDistinct(ps)
    ensures var pb := PartialBody(given, ps);
      (pb.Ok? && pb.value.Body? && pb.value.body != []) <==>
      (forall i :: 0 <= i < |ps| ==> Accepted(ParamStep(given, ps[i]))) && Emitted(given, ps) != []
  {
    var pb := PartialBody(given, ps);
    PartialFirstFailure(given, ps);
    if pb.Ok? && pb.value.Body? {
      PartialContents(given, ps);
      KeysLength(pb.value.body);
      assert pb.value.body == [] <==> Emitted(given, ps) == [];
    }
  }

  /** A request that is sent is a single PUT of the protection's row whose body has one column
      per given parameter, carrying the given value or its code; the run reports a change exactly
      when that PUT was answered with JSON. */
  lemma RunRequest(params: Dict, index: int, dp: string, net: Net, ps: seq<Param>)
    requires SuffixesDistinct(ps)
    requires Run(params, index, false, dp, net, ps).sent != []
    ensures var r := Run(params, index, false, dp, net, ps);
      var given := GivenNotNone(params);
      |r.sent| == 1 && r.sent[0].verb == PUT &&
      r.sent[0].path == ConfigPath(dp, "rsIDSConnectionLimitAttackTable/" + IntToString(index)) &&
      r.sent[0].body.Some? && r.sent[0].body.value.VDict? &&
      Keys(r.sent[0].body.value.entries) == Emitted(given, ps) &&
      (forall i :: 0 <= i < |ps| ==> Get(r.sent[0].body.value.entries, Column(ps[i].suffix)) == Sent(given, ps[i])) &&
      (r.Done? && r.changed <==> net(0).Returned? && net(0).reply.json.Some?)
  {
    PartialContents(GivenNotNone(params), ps);
  }

  lemma {:induction false} NothingGivenEmpty(given: string -> Option<Value>, ps: seq<Param>)
    requires forall i :: 0 <= i < |ps| ==> given(ps[i].key) == None
    ensures PartialBody(given, ps) == Ok(Body([]))
  {
    if ps != [] {
      NothingGivenEmpty(given, ps[..|ps| - 1]);
    }
  }

  /** As written: outside check mode, when no parameter is given the module fails with the
      TypeError of naming `changed` twice, having sent nothing. */
  lemma NothingGivenFails(params: Dict, index: int, dp: string, net: Net)
    requires forall i :: 0 <= i < |EditParams| ==> GivenNotNone(params)(EditParams[i].key) == None
    ensures Run(params, index, false, dp, net) == Failed(ChangedTwice, [])
  {
    NothingGivenEmpty(GivenNotNone(params), EditParams);
  }

  /** As meant: outside check mode, when no parameter is given the module exits unchanged with
      `NoParameters`, having sent nothing; on every other input the run meant is the run. */
  lemma IntendedNothingGiven(params: Dict, index: int, checkMode: bool, dp: string, net: Net)
    ensures (forall i :: 0 <= i < |EditParams| ==> GivenNotNone(params)(EditParams[i].key) == None) && !checkMode ==>
      Intended(params, index, checkMode, dp, net) == Done(false, NoParameters, VDict([]), [])
    ensures Run(params, index, checkMode, dp, net) != Failed(ChangedTwice, []) ==>
      Intended(params, index, checkMode, dp, net) == Run(params, index, checkMode, dp, net)
  {
    if forall i :: 0 <= i < |EditParams| ==> GivenNotNone(params)(EditParams[i].key) == None {
      NothingGivenEmpty(GivenNotNone(params), EditParams);
    }
  }

  /** A value outside its table fails the module with that parameter's `Invalid ... value`
      message and sends nothing; an earlier parameter's failure takes precedence. */
  lemma RunRejects(params: Dict, index: int, dp: string, net: Net)
    requires exists i :: 0 <= i < |EditParams| && !Accepted(ParamStep(GivenNotNone(params), EditParams[i]))
    ensures var r := Run(params, index, false, dp, net);
      r.Failed? && r.sent == [] &&
      exists j :: (0 <= j < |EditParams| && !Accepted(ParamStep(GivenNotNone(params), EditParams[j])) &&
                   (forall i :: 0 <= i < j ==> Accepted(ParamStep(GivenNotNone(params), EditParams[i]))) &&
                   (match ParamStep(GivenNotNone(params), EditParams[j])
                    case Err(e) => r.msg == e
                    case Ok(e) => r.msg == e.msg))
  {
    PartialFirstFailure(GivenNotNone(params), EditParams);
  }
}

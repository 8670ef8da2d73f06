/** Editing connection-limit protections in bulk (plugins/modules/edit_cl_configuration.py): each
    item names a `protection_index` and the parameters to change; the parameters it carries are
    put in a partial body, and a non-empty body is PUT to `rsIDSConnectionLimitAttackTable/{index}`
    outside check mode.  Nothing in this module fails the run: an item that cannot be sent is left
    out of `results`, and a failed PUT is recorded in its result. */
module EditClConfiguration {
  import opened Py
  import opened Http
  import opened Tables
  import opened ConnectionLimit

  const MissingIndex := "Missing protection_index"
  const NothingToUpdate := "No parameters to update"

  /** `'key' in prot`, then `prot['key']`. */
  function GivenIn(prot: Dict): string -> Option<Value>
  {
    k => Get(prot, k)
  }

  /** What becomes of one item before any request: it is skipped with the reason recorded in the
      debug information, or it is ready to be sent. */
  datatype Prepared = Skipped(reason: string) | Ready(index: Value, body: Dict)

  /** The checks of one item, in the source's order; a list or dict where a table word is
      expected raises a `TypeError` that nothing catches. */
  function Prepare(prot: Dict): Result<Prepared>
  {
    var idx := GetOr(prot, "protection_index", VNone);
    if idx == VNone then Ok(Skipped(MissingIndex))
    else match PartialBody(GivenIn(prot), EditParams)
      case Err(e) => Err(e)
      case Ok(Invalid(m)) => Ok(Skipped(m))
      case Ok(Body(body)) => if body == [] then Ok(Skipped(NothingToUpdate)) else Ok(Ready(idx, body))
  }

  function EditRequest(dp: string, idx: Value, body: Dict): Request
  {
    Request(PUT, ConfigPath(dp, "rsIDSConnectionLimitAttackTable/" + Str(idx)), Some(VDict(body)))
  }

  /** A prepared item: an index given as `None` or left out is skipped; otherwise the item is
      ready exactly when every given parameter is accepted and at least one is given, and its
      body then holds one column per given parameter, with the given value or its code. */
  lemma PrepareOutcome(prot: Dict)
    ensures GetOr(prot, "protection_index", VNone) == VNone ==> Prepare(prot) == Ok(Skipped(MissingIndex))
    ensures Prepare(prot).Ok? && Prepare(prot).value.Ready? ==>
      var body := Prepare(prot).value.body;
      Prepare(prot).value.index == GetOr(prot, "protection_index", VNone) &&
      Keys(body) == Emitted(GivenIn(prot), EditParams) && Keys(body) != [] &&
      forall i :: 0 <= i < |EditParams| ==> Get(body, Column(EditParams[i].suffix)) == Sent(GivenIn(prot), EditParams[i])
    ensures GetOr(prot, "protection_index", VNone) != VNone ==>
      (Prepare(prot).Ok? && Prepare(prot).value.Ready? <==>
         (forall i :: 0 <= i < |EditParams| ==> Accepted(ParamStep(GivenIn(prot), EditParams[i]))) &&
         Emitted(GivenIn(prot), EditParams) != [])
  {
    var given := GivenIn(prot);
    PartialFirstFailure(given, EditParams);
    if PartialBody(given, EditParams).Ok? && PartialBody(given, EditParams).value.Body? {
      EditSuffixesDistinct();
      PartialContents(given, EditParams);
      KeysLength(PartialBody(given, EditParams).value.body);
    }
  }

  /** A value outside its table drops the item with the message of the first such parameter; an
      unhashable one raises before any later parameter is looked at. */
  lemma PrepareRejects(prot: Dict)
    requires GetOr(prot, "protection_index", VNone) != VNone
    requires exists i :: 0 <= i < |EditParams| && !Accepted(ParamStep(GivenIn(prot), EditParams[i]))
    ensures exists j :: (0 <= j < |EditParams| &&
                         (forall i :: 0 <= i < j ==> Accepted(ParamStep(GivenIn(prot), EditParams[i]))) &&
                         (match ParamStep(GivenIn(prot), EditParams[j])
                          case Err(e) => Prepare(prot) == Err(e)
                          case Ok(e) => e.Reject? && Prepare(prot) == Ok(Skipped(e.msg))))
  {
    PartialFirstFailure(GivenIn(prot), EditParams);
  }

  // ---------------------------------------------------------------------------------------------
  // The batch loop
  // ---------------------------------------------------------------------------------------------

  /** An entry of `results`: whether the PUT succeeded, its JSON reply (`{}` otherwise), the
      request described in its debug information, and the exception a failed PUT raised. */
  datatype ProtResult = ProtResult(changed: bool, response: Value, request: Request, error: Option<string>)

  /** `result['results']`, `any_changed`, the reasons items were skipped and the requests sent. */
  datatype Batch = Batch(changed: bool, results: seq<ProtResult>, skipped: seq<string>, sent: seq<Request>)

  const NoBatch := Batch(false, [], [], [])

  function EditStep(b: Batch, prot: Dict, checkMode: bool, dp: string, net: Net): Result<Batch>
  {
    match Prepare(prot)
    case Err(e) => Err(e)
    case Ok(Skipped(m)) => Ok(b.(skipped := b.skipped + [m]))
    case Ok(Ready(idx, body)) =>
      var req := EditRequest(dp, idx, body);
      if checkMode then Ok(b.(results := b.results + [ProtResult(false, VDict([]), req, None)]))
      else
        var b1 := b.(sent := b.sent + [req]);
        match net(|b.sent|)
        case Raised(e) => Ok(b1.(results := b1.results + [ProtResult(false, VDict([]), req, Some(e))]))
        case Returned(r) =>
          match r.json
          case None => Ok(b1.(results := b1.results + [ProtResult(false, VDict([]), req, Some(JsonDecodeError))]))
          case Some(data) => Ok(b1.(changed := true, results := b1.results + [ProtResult(true, data, req, None)]))
  }

  function RunBatch(prots: seq<Dict>, checkMode: bool, dp: string, net: Net): Result<Batch>
  {
    if prots == [] then Ok(NoBatch)
    else match RunBatch(prots[..|prots| - 1], checkMode, dp, net)
      case Err(e) => Err(e)
      case Ok(b) => EditStep(b, prots[|prots| - 1], checkMode, dp, net)
  }

  lemma {:induction false} RunBatchStaysErr(prots: seq<Dict>, checkMode: bool, dp: string, net: Net, i: nat)
    requires i <= |prots| && RunBatch(prots[..i], checkMode, dp, net).Err?
    ensures RunBatch(prots, checkMode, dp, net) == RunBatch(prots[..i], checkMode, dp, net)
    decreases |prots| - i
  {
    if i < |prots| {
      assert prots[..i + 1][..i] == prots[..i];
      RunBatchStaysErr(prots, checkMode, dp, net, i + 1);
    } else {
      assert prots[..i] == prots;
    }
  }

  method RunBatchLoop(prots: seq<Dict>, checkMode: bool, dp: string, net: Net) returns (r: Result<Batch>)
    ensures r == RunBatch(prots, checkMode, dp, net)
  {
    var b := NoBatch;
    var i := 0;
    while i < |prots|
      invariant 0 <= i <= |prots|
      invariant RunBatch(prots[..i], checkMode, dp, net) == Ok(b)
    {
      assert prots[..i + 1][..i] == prots[..i];
      var step := EditStep(b, prots[i], checkMode, dp, net);
      if step.Err? {
        RunBatchStaysErr(prots, checkMode, dp, net, i + 1);
        return step;
      }
      b := step.value;
      i := i + 1;
    }
    assert prots[..i] == prots;
    return Ok(b);
  }

  /** A reply records the edit exactly when it arrived and parsed as JSON. */
  predicate Answered(o: Outcome)
  {
    o.Returned? && o.reply.json.Some?
  }

  /** One item: a skipped item adds no result and sends nothing; a ready one adds exactly one
      result describing its PUT, which is sent only outside check mode and counts as a change
      only when the reply was answered; a failed PUT leaves `changed` as it was. */
  lemma EditStepOutcome(b: Batch, prot: Dict, checkMode: bool, dp: string, net: Net)
    requires EditStep(b, prot, checkMode, dp, net).Ok?
    ensures var s := EditStep(b, prot, checkMode, dp, net).value;
      match Prepare(prot).value
      case Skipped(m) => s.results == b.results && s.sent == b.sent && s.changed == b.changed
      case Ready(idx, body) =>
        var req := EditRequest(dp, idx, body);
        s.results[..|b.results|] == b.results && |s.results| == |b.results| + 1 &&
        s.results[|b.results|].request == req &&
        s.sent == (if checkMode then b.sent else b.sent + [req]) &&
        (s.results[|b.results|].changed <==> !checkMode && Answered(net(|b.sent|))) &&
        (s.changed <==> b.changed || s.results[|b.results|].changed) &&
        (!checkMode && !Answered(net(|b.sent|)) ==> s.results[|b.results|].error.Some?)
  {
    var s := EditStep(b, prot, checkMode, dp, net).value;
    if Prepare(prot).value.Ready? {
      assert s.results[..|b.results|] == b.results;
    }
  }

  /** The number of results that record a change. */
  function CountChanged(results: seq<ProtResult>): nat
  {
    if results == [] then 0
    else CountChanged(results[..|results| - 1]) + if results[|results| - 1].changed then 1 else 0
  }

  /** Over the whole loop: in check mode nothing is sent and nothing changes; otherwise each
      result's request is the PUT sent for it, in order, and `changed` holds exactly when some
      PUT succeeded. */
  lemma {:induction false} BatchAccounts(prots: seq<Dict>, checkMode: bool, dp: string, net: Net)
    requires RunBatch(prots, checkMode, dp, net).Ok?
    ensures var b := RunBatch(prots, checkMode, dp, net).value;
      (checkMode ==> b.sent == [] && CountChanged(b.results) == 0) &&
      (!checkMode ==> |b.sent| == |b.results| && forall i :: 0 <= i < |b.sent| ==> b.sent[i] == b.results[i].request) &&
      (b.changed <==> CountChanged(b.results) != 0)
    decreases |prots|
  {
    if prots != [] {
      var init := prots[..|prots| - 1];
      BatchAccounts(init, checkMode, dp, net);
      var b0 := RunBatch(init, checkMode, dp, net).value;
      EditStepOutcome(b0, prots[|prots| - 1], checkMode, dp, net);
      var b := RunBatch(prots, checkMode, dp, net).value;
      if Prepare(prots[|prots| - 1]).value.Ready? {
        assert b.results[..|b.results| - 1] == b0.results;
      }
    }
  }

  /** The number of items that are ready to send. */
  function ReadyCount(prots: seq<Dict>): nat
  {
    if prots == [] then 0
    else ReadyCount(prots[..|prots| - 1]) + (if Prepare(prots[|prots| - 1]).Ok? && Prepare(prots[|prots| - 1]).value.Ready? then 1 else 0)
  }

  /** Every ready item leaves one result, and no other item does. */
  lemma {:induction false} ResultsCount(prots: seq<Dict>, checkMode: bool, dp: string, net: Net)
    requires RunBatch(prots, checkMode, dp, net).Ok?
    ensures |RunBatch(prots, checkMode, dp, net).value.results| == ReadyCount(prots)
    decreases |prots|
  {
    if prots != [] {
      var init := prots[..|prots| - 1];
      ResultsCount(init, checkMode, dp, net);
      EditStepOutcome(RunBatch(init, checkMode, dp, net).value, prots[|prots| - 1], checkMode, dp, net);
    }
  }

  // ---------------------------------------------------------------------------------------------
  // The module run
  // ---------------------------------------------------------------------------------------------

  datatype RunResult = Crashed(msg: string) | Finished(changed: bool, results: seq<ProtResult>)

  function Run(prots: seq<Dict>, checkMode: bool, dp: string, net: Net): RunResult
  {
    match RunBatch(prots, checkMode, dp, net)
    case Err(e) => Crashed(e)
    case Ok(b) => Finished(b.changed, b.results)
  }

  method RunModule(prots: seq<Dict>, checkMode: bool, dp: string, net: Net) returns (r: RunResult)
    ensures r == Run(prots, checkMode, dp, net)
  {
    var b := RunBatchLoop(prots, checkMode, dp, net);
    if b.Err? {
      return Crashed(b.msg);
    }
    r := Finished(b.value.changed, b.value.results);
  }

  /** A finished run has one result per ready item and reports a change exactly when some result
      records one, which never happens in check mode. */
  lemma RunOutcome(prots: seq<Dict>, checkMode: bool, dp: string, net: Net)
    ensures var r := Run(prots, checkMode, dp, net);
      r.Finished? ==>
        |r.results| == ReadyCount(prots) &&
        (r.changed <==> CountChanged(r.results) != 0) &&
        (checkMode ==> !r.changed)
  {
    if RunBatch(prots, checkMode, dp, net).Ok? {
      BatchAccounts(prots, checkMode, dp, net);
      ResultsCount(prots, checkMode, dp, net);
    }
  }
}

/** Deleting network-class groups (plugins/modules/delete_network_class.py): each entry that names
    a class and an index gets one DELETE of `rsBWMNetworkTable/{class}/{index}`, and a reply that
    parses as JSON records the deletion; the preview plans exactly those requests. */
module DeleteNetworkClass {
  import opened Py
  import opened Http

  const MissingClass := "Network deletion missing required 'class_name' field"

  function MissingIndex(cls: Value): string
  {
    "Network deletion for class '" + Str(cls) + "' missing required 'index' field"
  }

  /** `network_deletion.get('class_name', '')`. */
  function ClassName(item: Dict): Value
  {
    GetOr(item, "class_name", VStr(""))
  }

  /** `network_deletion.get('index', '')`. */
  function Index(item: Dict): Value
  {
    GetOr(item, "index", VStr(""))
  }

  /** `index == '' or index is None`: an index is missing only as these two values, never as a
      falsy number. */
  predicate IndexMissing(index: Value)
  {
    index == VStr("") || index == VNone
  }

  function DeleteRequest(dp: string, cls: Value, index: Value): Request
  {
    Request(DELETE, ConfigPath(dp, "rsBWMNetworkTable/" + Str(cls) + "/" + Str(index)), None)
  }

  /** The validation execution and preview both apply: the class name and the index of an entry
      to delete, or the error that skips it. */
  function Check(item: Dict): Result<(Value, Value)>
  {
    var cls := ClassName(item);
    var index := Index(item);
    if !Truthy(cls) then Err(MissingClass)
    else if IndexMissing(index) then Err(MissingIndex(cls))
    else Ok((cls, index))
  }

  /** An entry without an index key is rejected; an index 0 is accepted and deletes row `0`. */
  lemma IndexRules(item: Dict, dp: string)
    ensures "index" !in Keys(item) ==> Check(item).Err?
    ensures Truthy(ClassName(item)) && Get(item, "index") == Some(VInt(0)) ==>
      Check(item) == Ok((ClassName(item), VInt(0))) &&
      DeleteRequest(dp, ClassName(item), VInt(0)).path == ConfigPath(dp, "rsBWMNetworkTable/" + Str(ClassName(item)) + "/0")
  {
    GetSome(item, "index");
    assert IntToString(0) == "0";
  }

  // ---------------------------------------------------------------------------------------------
  // Execution
  // ---------------------------------------------------------------------------------------------

  datatype DeleteStatus = Succeeded(response: Value) | FailedWith(error: string)

  /** An entry of `deleted_groups`. */
  datatype GroupEntry = GroupEntry(cls: Value, index: Value, status: DeleteStatus)

  datatype Batch = Batch(changed: bool, groups: seq<GroupEntry>, errors: seq<string>, sent: seq<Request>)

  const NoBatch := Batch(false, [], [], [])

  /** A DELETE that raised, or whose reply is not JSON: one error and one failed entry. */
  function Failure(b: Batch, cls: Value, index: Value, e: string): Batch
  {
    b.(errors := b.errors + ["Failed to delete network group '" + Str(cls) + "[" + Str(index) + "]': " + e],
       groups := b.groups + [GroupEntry(cls, index, FailedWith(e))])
  }

  function DeleteStep(b: Batch, item: Dict, dp: string, net: Net): Batch
  {
    match Check(item)
    case Err(e) => b.(errors := b.errors + [e])
    case Ok((cls, index)) =>
      var b1 := b.(sent := b.sent + [DeleteRequest(dp, cls, index)]);
      match net(|b.sent|)
      case Raised(e) => Failure(b1, cls, index, e)
      case Returned(r) =>
        match r.json
        case None => Failure(b1, cls, index, JsonDecodeError)
        case Some(data) => b1.(changed := true, groups := b1.groups + [GroupEntry(cls, index, Succeeded(data))])
  }

  function RunBatch(items: seq<Dict>, dp: string, net: Net): Batch
  {
    if items == [] then NoBatch
    else DeleteStep(RunBatch(items[..|items| - 1], dp, net), items[|items| - 1], dp, net)
  }

  method RunBatchLoop(items: seq<Dict>, dp: string, net: Net) returns (b: Batch)
    ensures b == RunBatch(items, dp, net)
  {
    b := NoBatch;
    var i := 0;
    while i < |items|
      invariant 0 <= i <= |items|
      invariant RunBatch(items[..i], dp, net) == b
    {
      assert items[..i + 1][..i] == items[..i];
      b := DeleteStep(b, items[i], dp, net);
      i := i + 1;
    }
    assert items[..i] == items;
  }

  /** A reply records a deletion exactly when it arrived and parsed as JSON. */
  predicate Answered(o: Outcome)
  {
    o.Returned? && o.reply.json.Some?
  }

  /** One entry: a rejected entry adds its error and sends nothing; an accepted one sends exactly
      its DELETE and adds one entry for it, a success iff the reply was answered, and otherwise a
      failure with one error. */
  lemma DeleteStepOutcome(b: Batch, item: Dict, dp: string, net: Net)
    ensures var s := DeleteStep(b, item, dp, net);
      match Check(item)
      case Err(e) => s == b.(errors := b.errors + [e])
      case Ok(v) =>
        s.sent == b.sent + [DeleteRequest(dp, v.0, v.1)] &&
        |s.groups| == |b.groups| + 1 && s.groups[..|b.groups|] == b.groups &&
        s.groups[|b.groups|].cls == v.0 && s.groups[|b.groups|].index == v.1 &&
        (s.groups[|b.groups|].status.Succeeded? <==> Answered(net(|b.sent|))) &&
        (if Answered(net(|b.sent|)) then s.errors == b.errors && s.changed
         else |s.errors| == |b.errors| + 1 && s.changed == b.changed)
  {
    match Check(item)
    case Err(e) =>
    case Ok(v) =>
      var s := DeleteStep(b, item, dp, net);
      assert s.groups[..|b.groups|] == b.groups;
  }

  function CountSucceeded(entries: seq<GroupEntry>): nat
  {
    if entries == [] then 0
    else CountSucceeded(entries[..|entries| - 1]) + if entries[|entries| - 1].status.Succeeded? then 1 else 0
  }

  function CountFailed(entries: seq<GroupEntry>): nat
  {
    if entries == [] then 0
    else CountFailed(entries[..|entries| - 1]) + if entries[|entries| - 1].status.FailedWith? then 1 else 0
  }

  /** Every entry is a success or a failure. */
  lemma {:induction false} CountSplit(entries: seq<GroupEntry>)
    ensures CountSucceeded(entries) + CountFailed(entries) == |entries|
    decreases |entries|
  {
    if entries != [] {
      CountSplit(entries[..|entries| - 1]);
    }
  }

  /** The number of entries the validation rejects. */
  function Rejected(items: seq<Dict>): nat
  {
    if items == [] then 0
    else Rejected(items[..|items| - 1]) + if Check(items[|items| - 1]).Err? then 1 else 0
  }

  /** Each accepted entry sends one DELETE and leaves one entry recording it; the errors are the
      rejected entries plus the failed deletions; `changed` is set iff some deletion succeeded. */
  lemma {:induction false} BatchAccounts(items: seq<Dict>, dp: string, net: Net)
    ensures var b := RunBatch(items, dp, net);
      |b.groups| == |b.sent| && |b.sent| + Rejected(items) == |items| &&
      |b.errors| == Rejected(items) + CountFailed(b.groups) &&
      (b.changed <==> CountSucceeded(b.groups) != 0) &&
      (forall i :: 0 <= i < |b.groups| ==> b.sent[i] == DeleteRequest(dp, b.groups[i].cls, b.groups[i].index))
    decreases |items|
  {
    if items != [] {
      var init := items[..|items| - 1];
      BatchAccounts(init, dp, net);
      var b0 := RunBatch(init, dp, net);
      DeleteStepOutcome(b0, items[|items| - 1], dp, net);
      var b := RunBatch(items, dp, net);
      if Check(items[|items| - 1]).Ok? {
        assert b.groups[..|b0.groups|] == b0.groups;
        assert b.groups[..|b.groups| - 1] == b0.groups;
      }
    }
  }

  // ---------------------------------------------------------------------------------------------
  // The preview
  // ---------------------------------------------------------------------------------------------

  datatype Planned = Planned(cls: Value, index: Value, description: string)

  datatype PreviewPlan = PreviewPlan(planned: seq<Planned>, errors: seq<string>)

  function Describe(cls: Value, index: Value): string
  {
    "Delete network group '" + Str(cls) + "[" + Str(index) + "]'"
  }

  function PlanStep(p: PreviewPlan, item: Dict): PreviewPlan
  {
    match Check(item)
    case Err(e) => p.(errors := p.errors + [e])
    case Ok((cls, index)) => p.(planned := p.planned + [Planned(cls, index, Describe(cls, index))])
  }

  function Plan(items: seq<Dict>): PreviewPlan
  {
    if items == [] then PreviewPlan([], [])
    else PlanStep(Plan(items[..|items| - 1]), items[|items| - 1])
  }

  method PlanLoop(items: seq<Dict>) returns (p: PreviewPlan)
    ensures p == Plan(items)
  {
    p := PreviewPlan([], []);
    var i := 0;
    while i < |items|
      invariant 0 <= i <= |items|
      invariant Plan(items[..i]) == p
    {
      assert items[..i + 1][..i] == items[..i];
      p := PlanStep(p, items[i]);
      i := i + 1;
    }
    assert items[..i] == items;
  }

  /** The preview rejects the same entries as execution, and each planned operation is the
      DELETE execution sends for it, in the same order and recorded under the same class and
      index. */
  lemma {:induction false} PlanMatchesSent(items: seq<Dict>, dp: string, net: Net)
    ensures var p := Plan(items);
      var b := RunBatch(items, dp, net);
      |p.errors| == Rejected(items) && |p.planned| == |b.sent| && |p.planned| == |b.groups| &&
      forall i :: 0 <= i < |p.planned| ==>
        b.sent[i] == DeleteRequest(dp, p.planned[i].cls, p.planned[i].index) &&
        b.groups[i].cls == p.planned[i].cls && b.groups[i].index == p.planned[i].index
    decreases |items|
  {
    if items != [] {
      var init := items[..|items| - 1];
      PlanMatchesSent(init, dp, net);
      var b0 := RunBatch(init, dp, net);
      DeleteStepOutcome(b0, items[|items| - 1], dp, net);
      var b := RunBatch(items, dp, net);
      if Check(items[|items| - 1]).Ok? {
        assert forall i :: 0 <= i < |b0.groups| ==> b.groups[i] == b0.groups[i] by {
          assert b.groups[..|b0.groups|] == b0.groups;
        }
      }
    }
  }

  // ---------------------------------------------------------------------------------------------
  // The module run
  // ---------------------------------------------------------------------------------------------

  datatype Summary = Summary(attempted: nat, successful: nat, failed: nat)

  datatype Response = PreviewResponse(plan: PreviewPlan) | DeleteResponse(batch: Batch, summary: Summary)

  datatype RunResult = Finished(failed: bool, msg: string, changed: bool, warnings: seq<string>, response: Response)

  /** With errors, a run that changed nothing fails listing them all; one that changed something
      reports them as warnings. */
  function Conclude(changed: bool, errors: seq<string>, response: Response): RunResult
  {
    if errors != [] && !changed then Finished(true, "All operations failed. Errors: " + Join("; ", errors), changed, [], response)
    else Finished(false, "", changed, errors, response)
  }

  function Run(items: seq<Dict>, checkMode: bool, dp: string, net: Net): RunResult
  {
    if checkMode then
      var p := Plan(items);
      Conclude(p.planned != [], p.errors, PreviewResponse(p))
    else
      var b := RunBatch(items, dp, net);
      Conclude(b.changed, b.errors, DeleteResponse(b, Summary(|b.groups|, CountSucceeded(b.groups), CountFailed(b.groups))))
  }

  method RunModule(items: seq<Dict>, checkMode: bool, dp: string, net: Net) returns (r: RunResult)
    ensures r == Run(items, checkMode, dp, net)
  {
    if checkMode {
      var p := PlanLoop(items);
      return Conclude(p.planned != [], p.errors, PreviewResponse(p));
    }
    var b := RunBatchLoop(items, dp, net);
    var entries := b.groups;
    r := Conclude(b.changed, b.errors, DeleteResponse(b, Summary(|entries|, CountSucceeded(entries), CountFailed(entries))));
  }

  /** A preview sends nothing, changes something iff it plans a deletion and fails iff some entry
      is rejected and none is planned; an applied run's attempted deletions are its successes
      plus its failures, it changes something iff one succeeded, and it fails iff it has errors
      and no success. A run that does not fail reports its errors as warnings. */
  lemma RunOutcome(items: seq<Dict>, checkMode: bool, dp: string, net: Net)
    ensures var r := Run(items, checkMode, dp, net);
      (checkMode ==>
         var p := Plan(items);
         r.response == PreviewResponse(p) && (r.changed <==> p.planned != []) &&
         |p.planned| + Rejected(items) == |items| &&
         (r.failed <==> Rejected(items) != 0 && p.planned == [])) &&
      (!checkMode ==>
         var b := RunBatch(items, dp, net);
         r.response.DeleteResponse? && r.response.batch == b &&
         r.response.summary.attempted == r.response.summary.successful + r.response.summary.failed &&
         r.response.summary.attempted + Rejected(items) == |items| &&
         (r.changed <==> r.response.summary.successful != 0) &&
         (r.failed <==> b.errors != [] && r.response.summary.successful == 0)) &&
      (!r.failed ==> r.warnings == (if checkMode then Plan(items).errors else RunBatch(items, dp, net).errors))
  {
    PlanMatchesSent(items, dp, net);
    BatchAccounts(items, dp, net);
    CountSplit(RunBatch(items, dp, net).groups);
  }
}

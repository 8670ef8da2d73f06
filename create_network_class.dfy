/** Creating network classes (plugins/modules/create_network_class.py): every group of every
    named class that has both an address and a mask is POSTed to
    `rsBWMNetworkTable/{class}/{index}`, where the index is the group's position in the class's
    list; the preview plans exactly those requests. */
module CreateNetworkClass {
  import opened Py
  import opened Http

  const MissingName := "Network class missing required 'name' field"

  function MissingGroup(index: nat, cls: Value): string
  {
    "Group at index " + NatToString(index) + " in class '" + Str(cls) + "' missing address or mask"
  }

  /** `netclass.get('groups', [])`. */
  function Groups(nc: Dict): Value
  {
    GetOr(nc, "groups", VList([]))
  }

  /** `sum(len(nc.get('groups', [])) for nc in netclasses)`, evaluated before the module's `try`,
      succeeds exactly when every class's groups have a length. */
  predicate Counted(classes: seq<Dict>)
  {
    forall i :: 0 <= i < |classes| ==> Len(Groups(classes[i])).Some?
  }

  function Address(group: Dict): Value
  {
    GetOr(group, "address", VStr(""))
  }

  function Mask(group: Dict): Value
  {
    GetOr(group, "mask", VStr(""))
  }

  /** A group is sent only with both an address and a mask. */
  predicate Complete(group: Dict)
  {
    Truthy(Address(group)) && Truthy(Mask(group))
  }

  function GroupRequest(dp: string, cls: Value, index: nat, address: Value, mask: Value): Request
  {
    Request(POST, ConfigPath(dp, "rsBWMNetworkTable/" + Str(cls) + "/" + NatToString(index)),
            Some(VDict([ ("rsBWMNetworkName", cls), ("rsBWMNetworkSubIndex", VInt(index)),
                         ("rsBWMNetworkAddress", address), ("rsBWMNetworkMask", mask),
                         ("rsBWMNetworkMode", VStr("1")) ])))
  }

  // ---------------------------------------------------------------------------------------------
  // Execution
  // ---------------------------------------------------------------------------------------------

  datatype GroupStatus = Succeeded(response: Value) | FailedWith(error: string)

  /** An entry of `created_groups`. */
  datatype GroupEntry = GroupEntry(cls: Value, index: nat, address: Value, mask: Value, status: GroupStatus)

  datatype Batch = Batch(changed: bool, groups: seq<GroupEntry>, errors: seq<string>, sent: seq<Request>)

  const NoBatch := Batch(false, [], [], [])

  /** A POST that raised, or whose reply is not JSON: one error and one failed entry. */
  function Failure(b: Batch, cls: Value, index: nat, address: Value, mask: Value, e: string): Batch
  {
    b.(errors := b.errors + ["Failed to create network group '" + Str(cls) + "[" + NatToString(index) + "]' (" +
                             Str(address) + "/" + Str(mask) + "): " + e],
       groups := b.groups + [GroupEntry(cls, index, address, mask, FailedWith(e))])
  }

  /** One group. A group that is not a dict makes `group.get` raise outside the per-group `try`;
      that exception reaches the module's outer handler. */
  function GroupStep(b: Batch, cls: Value, index: nat, g: Value, dp: string, net: Net): Result<Batch>
  {
    if !g.VDict? then Err(NoGet)
    else
      var address := Address(g.entries);
      var mask := Mask(g.entries);
      if !Complete(g.entries) then Ok(b.(errors := b.errors + [MissingGroup(index, cls)]))
      else
        var b1 := b.(sent := b.sent + [GroupRequest(dp, cls, index, address, mask)]);
        match net(|b.sent|)
        case Raised(e) => Ok(Failure(b1, cls, index, address, mask, e))
        case Returned(r) =>
          match r.json
          case None => Ok(Failure(b1, cls, index, address, mask, JsonDecodeError))
          case Some(data) => Ok(b1.(changed := true, groups := b1.groups + [GroupEntry(cls, index, address, mask, Succeeded(data))]))
  }

  /** `for index, group in enumerate(groups)`: the groups of one class, each at its position. */
  function ClassGroups(b: Batch, cls: Value, groups: seq<Value>, dp: string, net: Net): Result<Batch>
  {
    if groups == [] then Ok(b)
    else match ClassGroups(b, cls, groups[..|groups| - 1], dp, net)
      case Err(e) => Err(e)
      case Ok(b1) => GroupStep(b1, cls, |groups| - 1, groups[|groups| - 1], dp, net)
  }

  function ClassStep(b: Batch, nc: Dict, dp: string, net: Net): Result<Batch>
  {
    var cls := GetOr(nc, "name", VStr(""));
    if !Truthy(cls) then Ok(b.(errors := b.errors + [MissingName]))
    else match Iter(Groups(nc))
      case None => Err(NotIterable)
      case Some(groups) => ClassGroups(b, cls, groups, dp, net)
  }

  function RunBatch(classes: seq<Dict>, dp: string, net: Net): Result<Batch>
  {
    if classes == [] then Ok(NoBatch)
    else match RunBatch(classes[..|classes| - 1], dp, net)
      case Err(e) => Err(e)
      case Ok(b) => ClassStep(b, classes[|classes| - 1], dp, net)
  }

  lemma {:induction false} ClassGroupsStaysErr(b: Batch, cls: Value, groups: seq<Value>, dp: string, net: Net, i: nat)
    requires i <= |groups| && ClassGroups(b, cls, groups[..i], dp, net).Err?
    ensures ClassGroups(b, cls, groups, dp, net) == ClassGroups(b, cls, groups[..i], dp, net)
    decreases |groups| - i
  {
    if i < |groups| {
      assert groups[..i + 1][..i] == groups[..i];
      ClassGroupsStaysErr(b, cls, groups, dp, net, i + 1);
    } else {
      assert groups[..i] == groups;
    }
  }

  lemma {:induction false} RunBatchStaysErr(classes: seq<Dict>, dp: string, net: Net, i: nat)
    requires i <= |classes| && RunBatch(classes[..i], dp, net).Err?
    ensures RunBatch(classes, dp, net) == RunBatch(classes[..i], dp, net)
    decreases |classes| - i
  {
    if i < |classes| {
      assert classes[..i + 1][..i] == classes[..i];
      RunBatchStaysErr(classes, dp, net, i + 1);
    } else {
      assert classes[..i] == classes;
    }
  }

  /** The inner loop over one class's groups. */
  method GroupsLoop(b0: Batch, cls: Value, groups: seq<Value>, dp: string, net: Net) returns (r: Result<Batch>)
    ensures r == ClassGroups(b0, cls, groups, dp, net)
  {
    var b := b0;
    var index := 0;
    while index < |groups|
      invariant 0 <= index <= |groups|
      invariant ClassGroups(b0, cls, groups[..index], dp, net) == Ok(b)
    {
      assert groups[..index + 1][..index] == groups[..index];
      var step := GroupStep(b, cls, index, groups[index], dp, net);
      if step.Err? {
        ClassGroupsStaysErr(b0, cls, groups, dp, net, index + 1);
        return step;
      }
      b := step.value;
      index := index + 1;
    }
    assert groups[..index] == groups;
    return Ok(b);
  }

  /** The outer loop over the classes. */
  method RunBatchLoop(classes: seq<Dict>, dp: string, net: Net) returns (r: Result<Batch>)
    ensures r == RunBatch(classes, dp, net)
  {
    var b := NoBatch;
    var i := 0;
    while i < |classes|
      invariant 0 <= i <= |classes|
      invariant RunBatch(classes[..i], dp, net) == Ok(b)
    {
      assert classes[..i + 1][..i] == classes[..i];
      var step: Result<Batch>;
      var cls := GetOr(classes[i], "name", VStr(""));
      if !Truthy(cls) {
        step := Ok(b.(errors := b.errors + [MissingName]));
      } else {
        var groups := Iter(Groups(classes[i]));
        if groups.None? {
          step := Err(NotIterable);
        } else {
          step := GroupsLoop(b, cls, groups.value, dp, net);
        }
      }
      if step.Err? {
        RunBatchStaysErr(classes, dp, net, i + 1);
        return step;
      }
      b := step.value;
      i := i + 1;
    }
    assert classes[..i] == classes;
    return Ok(b);
  }

  /** One group: a group that is not a dict raises; an incomplete one adds one error and sends
      nothing; a complete one sends exactly its POST and adds one entry, a success when the reply
      is JSON, otherwise a failure with one error. */
  lemma GroupStepOutcome(b: Batch, cls: Value, index: nat, g: Value, dp: string, net: Net)
    ensures var r := GroupStep(b, cls, index, g, dp, net);
      (r.Err? <==> !g.VDict?) &&
      (r.Ok? && !Complete(g.entries) ==> r.value == b.(errors := b.errors + [MissingGroup(index, cls)])) &&
      (r.Ok? && Complete(g.entries) ==>
         var o := net(|b.sent|);
         r.value.sent == b.sent + [GroupRequest(dp, cls, index, Address(g.entries), Mask(g.entries))] &&
         |r.value.groups| == |b.groups| + 1 && r.value.groups[..|b.groups|] == b.groups &&
         var e := r.value.groups[|b.groups|];
         e.cls == cls && e.index == index && e.address == Address(g.entries) && e.mask == Mask(g.entries) &&
         (if o.Returned? && o.reply.json.Some? then e.status == Succeeded(o.reply.json.value) && r.value.errors == b.errors && r.value.changed
          else e.status.FailedWith? && |r.value.errors| == |b.errors| + 1 && r.value.changed == b.changed))
  {
  }

  // ---------------------------------------------------------------------------------------------
  // The preview
  // ---------------------------------------------------------------------------------------------

  datatype Planned = Planned(cls: Value, index: nat, address: Value, mask: Value, description: string)

  datatype PreviewPlan = PreviewPlan(planned: seq<Planned>, errors: seq<string>)

  function Describe(cls: Value, index: nat, address: Value, mask: Value): string
  {
    "Create network group '" + Str(cls) + "[" + NatToString(index) + "]': " + Str(address) + "/" + Str(mask)
  }

  function PlanGroup(p: PreviewPlan, cls: Value, index: nat, g: Value): Result<PreviewPlan>
  {
    if !g.VDict? then Err(NoGet)
    else if !Complete(g.entries) then Ok(p.(errors := p.errors + [MissingGroup(index, cls)]))
    else
      var address := Address(g.entries);
      var mask := Mask(g.entries);
      Ok(p.(planned := p.planned + [Planned(cls, index, address, mask, Describe(cls, index, address, mask))]))
  }

  function PlanGroups(p: PreviewPlan, cls: Value, groups: seq<Value>): Result<PreviewPlan>
  {
    if groups == [] then Ok(p)
    else match PlanGroups(p, cls, groups[..|groups| - 1])
      case Err(e) => Err(e)
      case Ok(p1) => PlanGroup(p1, cls, |groups| - 1, groups[|groups| - 1])
  }

  function PlanClass(p: PreviewPlan, nc: Dict): Result<PreviewPlan>
  {
    var cls := GetOr(nc, "name", VStr(""));
    if !Truthy(cls) then Ok(p.(errors := p.errors + [MissingName]))
    else match Iter(Groups(nc))
      case None => Err(NotIterable)
      case Some(groups) => PlanGroups(p, cls, groups)
  }

  function Plan(classes: seq<Dict>): Result<PreviewPlan>
  {
    if classes == [] then Ok(PreviewPlan([], []))
    else match Plan(classes[..|classes| - 1])
      case Err(e) => Err(e)
      case Ok(p) => PlanClass(p, classes[|classes| - 1])
  }

  lemma {:induction false} PlanGroupsStaysErr(p: PreviewPlan, cls: Value, groups: seq<Value>, i: nat)
    requires i <= |groups| && PlanGroups(p, cls, groups[..i]).Err?
    ensures PlanGroups(p, cls, groups) == PlanGroups(p, cls, groups[..i])
    decreases |groups| - i
  {
    if i < |groups| {
      assert groups[..i + 1][..i] == groups[..i];
      PlanGroupsStaysErr(p, cls, groups, i + 1);
    } else {
      assert groups[..i] == groups;
    }
  }

  lemma {:induction false} PlanStaysErr(classes: seq<Dict>, i: nat)
    requires i <= |classes| && Plan(classes[..i]).Err?
    ensures Plan(classes) == Plan(classes[..i])
    decreases |classes| - i
  {
    if i < |classes| {
      assert classes[..i + 1][..i] == classes[..i];
      PlanStaysErr(classes, i + 1);
    } else {
      assert classes[..i] == classes;
    }
  }

  method PlanGroupsLoop(p0: PreviewPlan, cls: Value, groups: seq<Value>) returns (r: Result<PreviewPlan>)
    ensures r == PlanGroups(p0, cls, groups)
  {
    var p := p0;
    var index := 0;
    while index < |groups|
      invariant 0 <= index <= |groups|
      invariant PlanGroups(p0, cls, groups[..index]) == Ok(p)
    {
      assert groups[..index + 1][..index] == groups[..index];
      var step := PlanGroup(p, cls, index, groups[index]);
      if step.Err? {
        PlanGroupsStaysErr(p0, cls, groups, index + 1);
        return step;
      }
      p := step.value;
      index := index + 1;
    }
    assert groups[..index] == groups;
    return Ok(p);
  }

  method PlanLoop(classes: seq<Dict>) returns (r: Result<PreviewPlan>)
    ensures r == Plan(classes)
  {
    var p := PreviewPlan([], []);
    var i := 0;
    while i < |classes|
      invariant 0 <= i <= |classes|
      invariant Plan(classes[..i]) == Ok(p)
    {
      assert classes[..i + 1][..i] == classes[..i];
      var step: Result<PreviewPlan>;
      var cls := GetOr(classes[i], "name", VStr(""));
      if !Truthy(cls) {
        step := Ok(p.(errors := p.errors + [MissingName]));
      } else {
        var groups := Iter(Groups(classes[i]));
        if groups.None? {
          step := Err(NotIterable);
        } else {
          step := PlanGroupsLoop(p, cls, groups.value);
        }
      }
      if step.Err? {
        PlanStaysErr(classes, i + 1);
        return step;
      }
      p := step.value;
      i := i + 1;
    }
    assert classes[..i] == classes;
    return Ok(p);
  }

  /** One group of the preview: a group that is not a dict raises; an incomplete one adds one
      error; a complete one adds one planned operation at its index. */
  lemma PlanGroupOutcome(p: PreviewPlan, cls: Value, index: nat, g: Value)
    ensures var r := PlanGroup(p, cls, index, g);
      (r.Err? <==> !g.VDict?) &&
      (r.Ok? && !Complete(g.entries) ==> r.value == p.(errors := p.errors + [MissingGroup(index, cls)])) &&
      (r.Ok? && Complete(g.entries) ==>
         r.value.errors == p.errors && |r.value.planned| == |p.planned| + 1 && r.value.planned[..|p.planned|] == p.planned &&
         var x := r.value.planned[|p.planned|];
         x.cls == cls && x.index == index && x.address == Address(g.entries) && x.mask == Mask(g.entries))
  {
    if g.VDict? && Complete(g.entries) {
      assert PlanGroup(p, cls, index, g).value.planned[..|p.planned|] == p.planned;
    }
  }

  /** The groups a class plans come, in order, from its complete dict groups, each at its
      position in the class's list (so skipped groups leave gaps in the indices). */
  lemma {:induction false} PlanGroupsIndex(p: PreviewPlan, cls: Value, groups: seq<Value>)
    requires PlanGroups(p, cls, groups).Ok?
    ensures var q := PlanGroups(p, cls, groups).value;
      |p.planned| <= |q.planned| && q.planned[..|p.planned|] == p.planned &&
      (forall j :: |p.planned| <= j < |q.planned| ==>
         var k := q.planned[j].index;
         q.planned[j].cls == cls && k < |groups| && groups[k].VDict? && Complete(groups[k].entries) &&
         q.planned[j].address == Address(groups[k].entries) && q.planned[j].mask == Mask(groups[k].entries))
    decreases |groups|
  {
    if groups != [] {
      var init := groups[..|groups| - 1];
      var n := |groups| - 1;
      PlanGroupsIndex(p, cls, init);
      var q1 := PlanGroups(p, cls, init).value;
      PlanGroupOutcome(q1, cls, n, groups[n]);
      assert forall k :: 0 <= k < n ==> init[k] == groups[k];
    }
  }

  /** The planned indices of a class increase strictly, so each group is planned at most once. */
  lemma {:induction false} PlanGroupsOrdered(p: PreviewPlan, cls: Value, groups: seq<Value>)
    requires PlanGroups(p, cls, groups).Ok?
    ensures var q := PlanGroups(p, cls, groups).value;
      |p.planned| <= |q.planned| &&
      (forall j :: |p.planned| <= j < |q.planned| ==> q.planned[j].index < |groups|) &&
      (forall j, j' :: |p.planned| <= j < j' < |q.planned| ==> q.planned[j].index < q.planned[j'].index)
    decreases |groups|
  {
    if groups != [] {
      var init := groups[..|groups| - 1];
      var n := |groups| - 1;
      PlanGroupsOrdered(p, cls, init);
      var q1 := PlanGroups(p, cls, init).value;
      PlanGroupOutcome(q1, cls, n, groups[n]);
    }
  }

  /** Every complete dict group of a class is planned. */
  lemma {:induction false} PlanGroupsCovers(p: PreviewPlan, cls: Value, groups: seq<Value>)
    requires PlanGroups(p, cls, groups).Ok?
    ensures var q := PlanGroups(p, cls, groups).value;
      forall k :: 0 <= k < |groups| && groups[k].VDict? && Complete(groups[k].entries) ==>
        exists j :: |p.planned| <= j < |q.planned| && q.planned[j].index == k
    decreases |groups|
  {
    if groups != [] {
      var init := groups[..|groups| - 1];
      var n := |groups| - 1;
      PlanGroupsCovers(p, cls, init);
      PlanGroupsIndex(p, cls, init);
      var q1 := PlanGroups(p, cls, init).value;
      var q := PlanGroups(p, cls, groups).value;
      PlanGroupOutcome(q1, cls, n, groups[n]);
      forall k | 0 <= k < |groups| && groups[k].VDict? && Complete(groups[k].entries)
        ensures exists j :: |p.planned| <= j < |q.planned| && q.planned[j].index == k
      {
        if k < n {
          assert init[k] == groups[k];
          var j :| |p.planned| <= j < |q1.planned| && q1.planned[j].index == k;
          assert q.planned[j] == q1.planned[j];
        } else {
          assert q.planned[|q1.planned|].index == n;
        }
      }
    }
  }

  // ---------------------------------------------------------------------------------------------
  // Preview and execution agree
  // ---------------------------------------------------------------------------------------------

  function CountSucceeded(entries: seq<GroupEntry>): nat
  {
    if entries == [] then 0
    else CountSucceeded(entries[..|entries| - 1]) + if entries[|entries| - 1].status.Succeeded? then 1 else 0
  }

  function CountFailed(entries: seq<GroupEntry>): nat
  {
    if entries == [] then 0
    else CountFailed(entries[..|entries| - 1]) + if entries[|entries| - 1].status.FailedWith? then 1 else 0
  }

  /** Every entry is a success or a failure. */
  lemma {:induction false} CountSplit(entries: seq<GroupEntry>)
    ensures CountSucceeded(entries) + CountFailed(entries) == |entries|
    decreases |entries|
  {
    if entries != [] {
      CountSplit(entries[..|entries| - 1]);
    }
  }

  /** A batch and a preview plan that have walked the same items: one entry per POST, the POSTs
      are the planned operations in order, execution's errors are the preview's plus one per
      failed POST, and `changed` is set exactly when some POST succeeded. */
  predicate Agree(b: Batch, p: PreviewPlan, dp: string)
  {
    |b.groups| == |b.sent| == |p.planned| &&
    (forall i :: 0 <= i < |p.planned| ==>
       b.sent[i] == GroupRequest(dp, p.planned[i].cls, p.planned[i].index, p.planned[i].address, p.planned[i].mask)) &&
    |b.errors| == |p.errors| + CountFailed(b.groups) &&
    (b.changed <==> CountSucceeded(b.groups) != 0)
  }

  /** Agreement survives one POST: the batch gains the planned operation's request and one
      entry, and an error exactly when that entry is a failure. */
  lemma AgreeExtend(b: Batch, p: PreviewPlan, b1: Batch, p1: PreviewPlan, dp: string)
    requires Agree(b, p, dp)
    requires p1.errors == p.errors && |p1.planned| == |p.planned| + 1 && p1.planned[..|p.planned|] == p.planned
    requires var x := p1.planned[|p.planned|];
      b1.sent == b.sent + [GroupRequest(dp, x.cls, x.index, x.address, x.mask)]
    requires |b1.groups| == |b.groups| + 1 && b1.groups[..|b.groups|] == b.groups
    requires if b1.groups[|b.groups|].status.Succeeded? then b1.errors == b.errors && b1.changed
             else |b1.errors| == |b.errors| + 1 && b1.changed == b.changed
    ensures Agree(b1, p1, dp)
  {
    assert b1.groups == b.groups + [b1.groups[|b.groups|]];
    forall i | 0 <= i < |p1.planned|
      ensures b1.sent[i] == GroupRequest(dp, p1.planned[i].cls, p1.planned[i].index, p1.planned[i].address, p1.planned[i].mask)
    {
      if i < |p.planned| {
        assert p1.planned[i] == p.planned[i];
      }
    }
  }

  lemma GroupAgree(b: Batch, p: PreviewPlan, cls: Value, index: nat, g: Value, dp: string, net: Net)
    requires Agree(b, p, dp)
    ensures GroupStep(b, cls, index, g, dp, net).Ok? <==> PlanGroup(p, cls, index, g).Ok?
    ensures GroupStep(b, cls, index, g, dp, net).Ok? ==>
      Agree(GroupStep(b, cls, index, g, dp, net).value, PlanGroup(p, cls, index, g).value, dp)
  {
    GroupStepOutcome(b, cls, index, g, dp, net);
    PlanGroupOutcome(p, cls, index, g);
    if g.VDict? && Complete(g.entries) {
      AgreeExtend(b, p, GroupStep(b, cls, index, g, dp, net).value, PlanGroup(p, cls, index, g).value, dp);
    }
  }

  lemma {:induction false} GroupsAgree(b: Batch, p: PreviewPlan, cls: Value, groups: seq<Value>, dp: string, net: Net)
    requires Agree(b, p, dp)
    ensures ClassGroups(b, cls, groups, dp, net).Ok? <==> PlanGroups(p, cls, groups).Ok?
    ensures ClassGroups(b, cls, groups, dp, net).Ok? ==>
      Agree(ClassGroups(b, cls, groups, dp, net).value, PlanGroups(p, cls, groups).value, dp)
    decreases |groups|
  {
    if groups != [] {
      var init := groups[..|groups| - 1];
      GroupsAgree(b, p, cls, init, dp, net);
      if ClassGroups(b, cls, init, dp, net).Ok? {
        GroupAgree(ClassGroups(b, cls, init, dp, net).value, PlanGroups(p, cls, init).value, cls, |groups| - 1, groups[|groups| - 1], dp, net);
      }
    }
  }

  /** Preview and execution fail on the same inputs, and otherwise agree: the POSTs sent are the
      planned operations, in order, one entry each; the execution errors are the preview's plus
      one per failed POST; `changed` is set exactly when some POST succeeded. */
  lemma {:induction false} PlanMatchesSent(classes: seq<Dict>, dp: string, net: Net)
    ensures RunBatch(classes, dp, net).Ok? <==> Plan(classes).Ok?
    ensures RunBatch(classes, dp, net).Ok? ==> Agree(RunBatch(classes, dp, net).value, Plan(classes).value, dp)
    decreases |classes|
  {
    if classes != [] {
      var init := classes[..|classes| - 1];
      PlanMatchesSent(init, dp, net);
      if RunBatch(init, dp, net).Ok? {
        var b := RunBatch(init, dp, net).value;
        var p := Plan(init).value;
        var nc := classes[|classes| - 1];
        var cls := GetOr(nc, "name", VStr(""));
        if Truthy(cls) && Iter(Groups(nc)).Some? {
          GroupsAgree(b, p, cls, Iter(Groups(nc)).value, dp, net);
        }
      }
    }
  }

  // ---------------------------------------------------------------------------------------------
  // The module run
  // ---------------------------------------------------------------------------------------------

  datatype Summary = Summary(attempted: nat, successful: nat, failed: nat)

  datatype Response = PreviewResponse(plan: PreviewPlan) | CreateResponse(batch: Batch, summary: Summary)

  datatype RunResult =
    | Uncaught(msg: string)
    | Crashed(msg: string)
    | Finished(failed: bool, msg: string, changed: bool, warnings: seq<string>, response: Response)

  /** With errors, a run that changed nothing fails listing them all; one that changed something
      reports them as warnings. */
  function Conclude(changed: bool, errors: seq<string>, response: Response): RunResult
  {
    if errors != [] && !changed then Finished(true, "All operations failed. Errors: " + Join("; ", errors), changed, [], response)
    else Finished(false, "", changed, errors, response)
  }

  function Run(classes: seq<Dict>, checkMode: bool, dp: string, net: Net): RunResult
  {
    if !Counted(classes) then Uncaught(NoLen)
    else if checkMode then
      match Plan(classes)
      case Err(e) => Crashed(e)
      case Ok(p) => Conclude(p.planned != [], p.errors, PreviewResponse(p))
    else
      match RunBatch(classes, dp, net)
      case Err(e) => Crashed(e)
      case Ok(b) =>
        Conclude(b.changed, b.errors, CreateResponse(b, Summary(|b.groups|, CountSucceeded(b.groups), CountFailed(b.groups))))
  }

  method RunModule(classes: seq<Dict>, checkMode: bool, dp: string, net: Net) returns (r: RunResult)
    ensures r == Run(classes, checkMode, dp, net)
  {
    var i := 0;
    while i < |classes|
      invariant 0 <= i <= |classes|
      invariant forall j :: 0 <= j < i ==> Len(Groups(classes[j])).Some?
    {
      if Len(Groups(classes[i])).None? {
        return Uncaught(NoLen);
      }
      i := i + 1;
    }
    if checkMode {
      var p := PlanLoop(classes);
      if p.Err? {
        return Crashed(p.msg);
      }
      return Conclude(p.value.planned != [], p.value.errors, PreviewResponse(p.value));
    }
    var b := RunBatchLoop(classes, dp, net);
    if b.Err? {
      return Crashed(b.msg);
    }
    var entries := b.value.groups;
    r := Conclude(b.value.changed, b.value.errors, CreateResponse(b.value, Summary(|entries|, CountSucceeded(entries), CountFailed(entries))));
  }

  /** A run crashes before its `try` iff some class's groups have no length, and otherwise
      preview and execution stop with the same exception on the same inputs. A preview changes
      something iff it plans an operation; an applied run's attempted groups are its successes
      plus its failures, and it changes something iff one succeeded. A run fails iff it has
      errors and changed nothing, and otherwise reports its errors as warnings. */
  lemma RunOutcome(classes: seq<Dict>, checkMode: bool, dp: string, net: Net)
    ensures var r := Run(classes, checkMode, dp, net);
      (r.Uncaught? <==> !Counted(classes)) &&
      (r.Crashed? <==> Counted(classes) && Plan(classes).Err?) &&
      (r.Finished? && checkMode ==>
         var p := Plan(classes).value;
         r.response == PreviewResponse(p) && (r.changed <==> p.planned != []) &&
         (r.failed <==> p.errors != [] && p.planned == []) && (!r.failed ==> r.warnings == p.errors)) &&
      (r.Finished? && !checkMode ==>
         var b := RunBatch(classes, dp, net).value;
         r.response.CreateResponse? && r.response.batch == b &&
         r.response.summary.attempted == r.response.summary.successful + r.response.summary.failed &&
         (r.changed <==> r.response.summary.successful != 0) &&
         (r.failed <==> b.errors != [] && r.response.summary.successful == 0) && (!r.failed ==> r.warnings == b.errors))
  {
    PlanMatchesSent(classes, dp, net);
    if RunBatch(classes, dp, net).Ok? {
      CountSplit(RunBatch(classes, dp, net).value.groups);
    }
  }
}

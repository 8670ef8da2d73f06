/** Deleting security policies (plugins/modules/delete_security_policy.py): each named policy gets
    one DELETE, either of its `rsIDSNewRulesTable` row or, in `policy_and_profiles` mode, through
    `deletenetworktemplatelist` with the policy named in the body; a reply whose JSON status is
    "ok" confirms the deletion. */
module DeleteSecurityPolicy {
  import opened Py
  import opened Http

  const NameRequired := "Policy name is required for each deletion operation"

  /** The mode that also removes the policy's profiles; any other mode deletes the row only. */
  const WithProfiles := VStr("policy_and_profiles")

  /** `policy_delete.get('deletion_mode', 'policy_only')`. */
  function Mode(item: Dict): Value
  {
    GetOr(item, "deletion_mode", VStr("policy_only"))
  }

  function DeleteRequest(dp: string, name: Value, mode: Value): Request
  {
    if mode == WithProfiles then
      Request(DELETE, ConfigPath(dp, "deletenetworktemplatelist"), Some(VDict([("policiesToDelete", VList([name]))])))
    else Request(DELETE, ConfigPath(dp, "rsIDSNewRulesTable/" + Str(name)), None)
  }

  /** A policy whose mode is left out is deleted by its table row, with no body. */
  lemma DefaultMode(dp: string, item: Dict, name: Value)
    requires "deletion_mode" !in Keys(item)
    ensures DeleteRequest(dp, name, Mode(item)) == Request(DELETE, ConfigPath(dp, "rsIDSNewRulesTable/" + Str(name)), None)
  {
    GetSome(item, "deletion_mode");
  }

  // ---------------------------------------------------------------------------------------------
  // The batch loop
  // ---------------------------------------------------------------------------------------------

  /** An entry of `deleted_policies`. */
  datatype Deleted = Deleted(name: Value, mode: Value)

  datatype Batch = Batch(changed: bool, deleted: seq<Deleted>, errors: seq<string>, sent: seq<Request>)

  const NoBatch := Batch(false, [], [], [])

  function Failure(name: Value, e: string): string
  {
    "Error deleting security policy " + Str(name) + ": " + e
  }

  /** One item of the loop. Every exception inside the per-policy `try` (the request, a reply that
      is not JSON, JSON without `get`) becomes that policy's error. */
  function DeleteStep(b: Batch, item: Dict, dp: string, net: Net): Batch
  {
    var name := GetOr(item, "policy_name", VNone);
    var mode := Mode(item);
    if !Truthy(name) then b.(errors := b.errors + [NameRequired])
    else
      var b1 := b.(sent := b.sent + [DeleteRequest(dp, name, mode)]);
      match net(|b.sent|)
      case Raised(e) => b1.(errors := b1.errors + [Failure(name, e)])
      case Returned(r) =>
        match r.json
        case None => b1.(errors := b1.errors + [Failure(name, JsonDecodeError)])
        case Some(data) =>
          if !data.VDict? then b1.(errors := b1.errors + [Failure(name, NoGet)])
          else if Get(data.entries, "status") == Some(VStr("ok")) then
            b1.(changed := true, deleted := b1.deleted + [Deleted(name, mode)])
          else b1.(errors := b1.errors + ["Failed to delete security policy " + Str(name) + ": " + Str(data)])
  }

  function RunBatch(items: seq<Dict>, dp: string, net: Net): Batch
  {
    if items == [] then NoBatch
    else DeleteStep(RunBatch(items[..|items| - 1], dp, net), items[|items| - 1], dp, net)
  }

  method RunBatchLoop(items: seq<Dict>, dp: string, net: Net) returns (b: Batch)
    ensures b == RunBatch(items, dp, net)
  {
    b := NoBatch;
    var i := 0;
    while i < |items|
      invariant 0 <= i <= |items|
      invariant RunBatch(items[..i], dp, net) == b
    {
      assert items[..i + 1][..i] == items[..i];
      b := DeleteStep(b, items[i], dp, net);
      i := i + 1;
    }
    assert items[..i] == items;
  }

  /** A reply confirms a deletion exactly when its JSON is a dict whose status is "ok". */
  predicate Confirmed(o: Outcome)
  {
    o.Returned? && o.reply.json.Some? && o.reply.json.value.VDict? &&
    Get(o.reply.json.value.entries, "status") == Some(VStr("ok"))
  }

  /** One item: without a name it adds one error and sends nothing; otherwise it sends exactly
      the DELETE its mode selects and is recorded as deleted iff the reply confirms it, as one
      error otherwise. */
  lemma DeleteStepOutcome(b: Batch, item: Dict, dp: string, net: Net)
    ensures var s := DeleteStep(b, item, dp, net);
      var name := GetOr(item, "policy_name", VNone);
      if !Truthy(name) then s == b.(errors := b.errors + [NameRequired])
      else
        s.sent == b.sent + [DeleteRequest(dp, name, Mode(item))] &&
        (if Confirmed(net(|b.sent|)) then
           s.deleted == b.deleted + [Deleted(name, Mode(item))] && s.errors == b.errors && s.changed
         else s.deleted == b.deleted && |s.errors| == |b.errors| + 1 && s.changed == b.changed)
  {
  }

  /** The number of items without a truthy `policy_name`. */
  function Nameless(items: seq<Dict>): nat
  {
    if items == [] then 0
    else Nameless(items[..|items| - 1]) + if Truthy(GetOr(items[|items| - 1], "policy_name", VNone)) then 0 else 1
  }

  /** Every item ends as one deletion or one error; exactly the named items send a request;
      `changed` is set exactly when some policy was deleted. */
  lemma {:induction false} BatchAccounts(items: seq<Dict>, dp: string, net: Net)
    ensures var b := RunBatch(items, dp, net);
      |b.deleted| + |b.errors| == |items| && |b.sent| + Nameless(items) == |items| &&
      (b.changed <==> b.deleted != [])
    decreases |items|
  {
    if items != [] {
      var init := items[..|items| - 1];
      BatchAccounts(init, dp, net);
      DeleteStepOutcome(RunBatch(init, dp, net), items[|items| - 1], dp, net);
    }
  }

  // ---------------------------------------------------------------------------------------------
  // The preview
  // ---------------------------------------------------------------------------------------------

  datatype Planned = Planned(name: Value, mode: Value, description: string)

  datatype PreviewPlan = PreviewPlan(planned: seq<Planned>, errors: seq<string>)

  function Describe(name: Value, mode: Value): string
  {
    "Delete policy '" + Str(name) + "'" + if mode == WithProfiles then " and associated profiles" else ""
  }

  function PlanStep(p: PreviewPlan, item: Dict): PreviewPlan
  {
    var name := GetOr(item, "policy_name", VNone);
    if !Truthy(name) then p.(errors := p.errors + [NameRequired])
    else p.(planned := p.planned + [Planned(name, Mode(item), Describe(name, Mode(item)))])
  }

  function Plan(items: seq<Dict>): PreviewPlan
  {
    if items == [] then PreviewPlan([], [])
    else PlanStep(Plan(items[..|items| - 1]), items[|items| - 1])
  }

  method PlanLoop(items: seq<Dict>) returns (p: PreviewPlan)
    ensures p == Plan(items)
  {
    p := PreviewPlan([], []);
    var i := 0;
    while i < |items|
      invariant 0 <= i <= |items|
      invariant Plan(items[..i]) == p
    {
      assert items[..i + 1][..i] == items[..i];
      p := PlanStep(p, items[i]);
      i := i + 1;
    }
    assert items[..i] == items;
  }

  /** The preview rejects the same items as execution, and each planned operation is exactly the
      DELETE execution sends for it, in the same order. */
  lemma {:induction false} PlanMatchesSent(items: seq<Dict>, dp: string, net: Net)
    ensures var p := Plan(items);
      var b := RunBatch(items, dp, net);
      |p.errors| == Nameless(items) && |p.planned| == |b.sent| &&
      forall i :: 0 <= i < |p.planned| ==> b.sent[i] == DeleteRequest(dp, p.planned[i].name, p.planned[i].mode)
    decreases |items|
  {
    if items != [] {
      var init := items[..|items| - 1];
      PlanMatchesSent(init, dp, net);
      DeleteStepOutcome(RunBatch(init, dp, net), items[|items| - 1], dp, net);
    }
  }

  /** The description names the policy, and ends by mentioning the profiles exactly in the mode
      that deletes them. */
  lemma DescribeMode(name: Value, mode: Value)
    ensures IsPrefix("Delete policy '" + Str(name) + "'", Describe(name, mode))
    ensures IsSuffix(" and associated profiles", Describe(name, mode)) <==> mode == WithProfiles
  {
    var d := Describe(name, mode);
    var head := "Delete policy '" + Str(name) + "'";
    assert d[..|head|] == head;
    if mode != WithProfiles {
      assert d[|d| - 1] == '\'';
    }
  }

  // ---------------------------------------------------------------------------------------------
  // The module run
  // ---------------------------------------------------------------------------------------------

  datatype Summary = Summary(attempted: nat, successful: nat, failed: nat)

  datatype RunResult =
    | Previewed(failed: bool, msg: string, plan: PreviewPlan)
    | Applied(failed: bool, msg: string, changed: bool, batch: Batch, summary: Summary)

  /** `fail_json` when there are errors and no deletion, a message alone when some policies were
      deleted despite errors. */
  function Verdict(errors: nat, deleted: nat): (bool, string)
  {
    if errors != 0 && deleted == 0 then
      (true, "Security policy deletion failed with " + IntToString(errors) + " error(s). See response.errors for details.")
    else if errors != 0 then
      (false, "Security policy deletion completed with " + IntToString(errors) + " error(s). See response.errors for details.")
    else (false, "")
  }

  function Run(items: seq<Dict>, checkMode: bool, dp: string, net: Net): RunResult
  {
    if checkMode then
      var p := Plan(items);
      var v := Verdict(|p.errors|, 0);
      Previewed(v.0, v.1, p)
    else
      var b := RunBatch(items, dp, net);
      var v := Verdict(|b.errors|, |b.deleted|);
      Applied(v.0, v.1, b.changed, b, Summary(|items|, |b.deleted|, |b.errors|))
  }

  method RunModule(items: seq<Dict>, checkMode: bool, dp: string, net: Net) returns (r: RunResult)
    ensures r == Run(items, checkMode, dp, net)
  {
    if checkMode {
      var p := PlanLoop(items);
      var v := Verdict(|p.errors|, 0);
      return Previewed(v.0, v.1, p);
    }
    var b := RunBatchLoop(items, dp, net);
    var v := Verdict(|b.errors|, |b.deleted|);
    r := Applied(v.0, v.1, b.changed, b, Summary(|items|, |b.deleted|, |b.errors|));
  }

  /** Preview sends nothing, reports no change and fails iff some item lacks a name; an applied
      run fails iff it recorded errors and no deletion, reports a change iff some policy was
      deleted, and its successes and failures add up to the items attempted. */
  lemma RunOutcome(items: seq<Dict>, checkMode: bool, dp: string, net: Net)
    ensures var r := Run(items, checkMode, dp, net);
      (checkMode ==> r.Previewed? && (r.failed <==> Nameless(items) != 0) &&
                     |r.plan.planned| + Nameless(items) == |items|) &&
      (!checkMode ==> r.Applied? && (r.failed <==> r.batch.errors != [] && r.batch.deleted == []) &&
                      (r.changed <==> r.batch.deleted != []) &&
                      r.summary.successful + r.summary.failed == r.summary.attempted)
  {
    PlanMatchesSent(items, dp, net);
    BatchAccounts(items, dp, net);
  }
}

/** Creating security policies sparsely (plugins/modules/create_full_config.py): each listed
    policy gets one POST to `rsIDSNewRulesTable/{policy_name}` whose body always names the policy
    but otherwise carries only the settings the playbook gives a non-None value, the enumerated
    ones as the edit module's codes, followed by the profile bindings whose value is not blank. */
module CreateFullConfig {
  import opened Py
  import opened Http
  import opened Tables
  import Edit = EditSecurityPolicy
  import Create = CreateSecurityPolicy

  // ---------------------------------------------------------------------------------------------
  // The request body
  // ---------------------------------------------------------------------------------------------

  /** The insertions before the bindings: the name always, the rest when given. The mapper is
      the edit module's, with the same tables and defaults. */
  function Sparse(policy: Dict, api: Table, name: Value): seq<Slot>
  {
    [ Slot(Edit.Column("Name"), Some((name, ""))),
      Edit.Plain(policy, "src_network", Edit.Column("Source")),
      Edit.Plain(policy, "dst_network", Edit.Column("Destination")),
      Edit.Mapped(policy, api, "direction", Edit.Column("Direction")),
      Edit.Mapped(policy, api, "state", Edit.Column("State")),
      Edit.Mapped(policy, api, "action", Edit.Column("Action")),
      Edit.Mapped(policy, api, "packet_reporting_status", Edit.Column("PacketReportingStatus")),
      Edit.Priority(policy) ]
  }

  function Base(c: Edit.Codes, policy: Dict, name: Value): seq<Slot>
  {
    Sparse(policy, Edit.MapPolicy(c, policy), name)
  }

  /** The request body, or the exception a binding's `strip()` raises. */
  function BodyOf(c: Edit.Codes, policy: Dict, name: Value): Result<Dict>
  {
    if Create.BindingRaises(policy) then Err(NoStrip)
    else Ok(Fill(Base(c, policy, name) + Create.Attachments(policy)).body)
  }

  /** The body as the module builds it: the conditional insertions, then the binding loop. */
  method BuildBody(c: Edit.Codes, policy: Dict, name: Value) returns (r: Result<Dict>)
    ensures r == BodyOf(c, policy, name)
  {
    var api := Edit.MapSecurityPolicyParameters(c, policy);
    r := Create.AttachLoop(Sparse(policy, api, name), policy, Create.BindingKeys);
  }

  lemma SlotColumns(c: Edit.Codes, policy: Dict, name: Value)
    ensures |Base(c, policy, name) + Create.Attachments(policy)| == |Create.CreateSuffixes|
    ensures forall i :: 0 <= i < |Create.CreateSuffixes| ==>
      (Base(c, policy, name) + Create.Attachments(policy))[i].column == Edit.Column(Create.CreateSuffixes[i])
  {
    BaseColumns(c, policy, name);
    Create.BindingSuffixes();
    Create.AttachColumns(policy, Create.BindingKeys);
  }

  lemma BaseColumns(c: Edit.Codes, policy: Dict, name: Value)
    ensures |Base(c, policy, name)| == 8
    ensures forall i :: 0 <= i < 8 ==> Base(c, policy, name)[i].column == Edit.Column(Create.CreateSuffixes[i])
  {
  }

  /** The body always names the policy; the networks, the enumerated settings and the priority
      are in it exactly when the playbook gives them a non-None value, as given, as the mapper's
      code and as a string respectively. */
  lemma BodySettings(c: Edit.Codes, policy: Dict, name: Value)
    requires BodyOf(c, policy, name).Ok?
    ensures var body := BodyOf(c, policy, name).value;
      Get(body, Edit.Column("Name")) == Some(name) &&
      Get(body, Edit.Column("Source")) == Edit.Given(policy, "src_network") &&
      Get(body, Edit.Column("Destination")) == Edit.Given(policy, "dst_network") &&
      Get(body, Edit.Column("Direction")) == Edit.Sent(Edit.Coded(policy, "direction", c.direction, "1")) &&
      Get(body, Edit.Column("State")) == Edit.Sent(Edit.Coded(policy, "state", c.state, "1")) &&
      Get(body, Edit.Column("Action")) == Edit.Sent(Edit.Coded(policy, "action", c.action, "1")) &&
      Get(body, Edit.Column("PacketReportingStatus")) == Edit.Sent(Edit.Coded(policy, "packet_reporting_status", c.reporting, "2")) &&
      Get(body, Edit.Column("Priority")) == match Edit.Given(policy, "priority") case Some(v) => Some(VStr(Str(v))) case None => None
  {
    var slots := Base(c, policy, name) + Create.Attachments(policy);
    SlotColumns(c, policy, name);
    Create.CreateSlotsDistinct(slots);
    Edit.MapPolicyCodes(c, policy);
    FillGet(slots, 0);
    FillGet(slots, 1);
    FillGet(slots, 2);
    FillGet(slots, 3);
    FillGet(slots, 4);
    FillGet(slots, 5);
    FillGet(slots, 6);
    FillGet(slots, 7);
  }

  /** A profile column is present exactly when the playbook's value is a string that is not
      blank, and then holds that string unstripped. */
  lemma BodyBinding(c: Edit.Codes, policy: Dict, name: Value, i: nat)
    requires BodyOf(c, policy, name).Ok? && i < |Create.BindingKeys|
    ensures Get(BodyOf(c, policy, name).value, Edit.Column(Create.BindingKeys[i].0)) ==
      if Create.NotBlank(GetOr(policy, Create.BindingKeys[i].1, VStr(""))) then Some(GetOr(policy, Create.BindingKeys[i].1, VStr(""))) else None
  {
    var slots := Base(c, policy, name) + Create.Attachments(policy);
    SlotColumns(c, policy, name);
    Create.CreateSlotsDistinct(slots);
    FillGet(slots, 8 + i);
  }

  /** The body holds nothing but the rule-table columns, each once. */
  lemma BodyKeys(c: Edit.Codes, policy: Dict, name: Value)
    requires BodyOf(c, policy, name).Ok?
    ensures UniqueKeys(BodyOf(c, policy, name).value)
    ensures forall k :: k in Keys(BodyOf(c, policy, name).value) ==>
      exists i :: 0 <= i < |Create.CreateSuffixes| && k == Edit.Column(Create.CreateSuffixes[i])
  {
    SlotColumns(c, policy, name);
    FillShape(Base(c, policy, name) + Create.Attachments(policy));
  }

  // ---------------------------------------------------------------------------------------------
  // The batch loop
  // ---------------------------------------------------------------------------------------------

  /** The profile keys a created policy's report and the preview echo, with "" by default. */
  const Echoed: seq<string> := [
    "connection_limit_profile", "bdos_profile", "dns_flood_profile", "https_flood_profile",
    "signature_protection_profile", "ert_attackers_feed_profile", "geo_feed_profile", "out_of_state_profile"
  ]

  function EchoProfiles(policy: Dict): Dict
  {
    seq(|Echoed|, i requires 0 <= i < |Echoed| => (Echoed[i], GetOr(policy, Echoed[i], VStr(""))))
  }

  /** What `created_policies` records for a created policy; the priority only when given. */
  function Report(policy: Dict, name: Value): Dict
  {
    [ ("policy_name", name),
      ("src_network", GetOr(policy, "src_network", VStr("any"))),
      ("dst_network", GetOr(policy, "dst_network", VStr("any"))),
      ("direction", GetOr(policy, "direction", VStr("oneway"))) ] +
    EchoProfiles(policy) + [("status", VStr("success"))] +
    match Edit.Given(policy, "priority") case Some(p) => [("priority", p)] case None => []
  }

  /** The report names the priority exactly when the playbook gives one, and then as given. */
  lemma ReportPriority(policy: Dict, name: Value)
    ensures Get(Report(policy, name), "priority") == Edit.Given(policy, "priority")
  {
    var head := [ ("policy_name", name),
      ("src_network", GetOr(policy, "src_network", VStr("any"))),
      ("dst_network", GetOr(policy, "dst_network", VStr("any"))),
      ("direction", GetOr(policy, "direction", VStr("oneway"))) ] +
      EchoProfiles(policy) + [("status", VStr("success"))];
    var tail: Dict := match Edit.Given(policy, "priority") case Some(p) => [("priority", p)] case None => [];
    assert forall i :: 0 <= i < |head| ==> head[i].0 != "priority";
    GetSome(head, "priority");
    GetAppend(head, tail, "priority");
  }

  /** One policy of the loop; `Err` when a binding's `strip()` raises, which the module's outer
      handler catches. */
  function PolicyStep(c: Edit.Codes, b: Create.Batch, policy: Dict, dp: string, net: Net): Result<Create.Batch>
  {
    var name := GetOr(policy, "policy_name", VNone);
    if !Truthy(name) then Ok(b.(errors := b.errors + [Create.NameRequired]))
    else match BodyOf(c, policy, name)
      case Err(e) => Err(e)
      case Ok(body) => Ok(Create.Post(b, name, body, Report(policy, name), dp, net))
  }

  function RunBatch(c: Edit.Codes, policies: seq<Dict>, dp: string, net: Net): Result<Create.Batch>
  {
    if policies == [] then Ok(Create.NoBatch)
    else match RunBatch(c, policies[..|policies| - 1], dp, net)
      case Err(e) => Err(e)
      case Ok(b) => PolicyStep(c, b, policies[|policies| - 1], dp, net)
  }

  lemma {:induction false} RunBatchStaysErr(c: Edit.Codes, policies: seq<Dict>, dp: string, net: Net, i: nat)
    requires i <= |policies| && RunBatch(c, policies[..i], dp, net).Err?
    ensures RunBatch(c, policies, dp, net) == RunBatch(c, policies[..i], dp, net)
    decreases |policies| - i
  {
    if i < |policies| {
      assert policies[..i + 1][..i] == policies[..i];
      RunBatchStaysErr(c, policies, dp, net, i + 1);
    } else {
      assert policies[..i] == policies;
    }
  }

  method RunBatchLoop(c: Edit.Codes, policies: seq<Dict>, dp: string, net: Net) returns (r: Result<Create.Batch>)
    ensures r == RunBatch(c, policies, dp, net)
  {
    var b := Create.NoBatch;
    var i := 0;
    while i < |policies|
      invariant 0 <= i <= |policies|
      invariant RunBatch(c, policies[..i], dp, net) == Ok(b)
    {
      assert policies[..i + 1][..i] == policies[..i];
      var step := PolicyStep(c, b, policies[i], dp, net);
      if step.Err? {
        RunBatchStaysErr(c, policies, dp, net, i + 1);
        return step;
      }
      b := step.value;
      i := i + 1;
    }
    assert policies[..i] == policies;
    return Ok(b);
  }

  /** Every policy is either created or adds exactly one error; `changed` is set exactly when
      some policy was created; at most one request is sent per policy, and only named ones send. */
  lemma {:induction false} BatchAccounts(c: Edit.Codes, policies: seq<Dict>, dp: string, net: Net)
    requires RunBatch(c, policies, dp, net).Ok?
    ensures var b := RunBatch(c, policies, dp, net).value;
      |b.created| + |b.errors| == |policies| && (b.changed <==> b.created != []) && |b.sent| <= |policies|
    decreases |policies|
  {
    if policies != [] {
      var init := policies[..|policies| - 1];
      var policy := policies[|policies| - 1];
      BatchAccounts(c, init, dp, net);
      var b := RunBatch(c, init, dp, net).value;
      var name := GetOr(policy, "policy_name", VNone);
      if Truthy(name) {
        Create.PostOutcome(b, name, BodyOf(c, policy, name).value, Report(policy, name), dp, net);
      }
    }
  }

  /** A batch stops with an exception exactly at the first named policy with a binding whose
      `strip()` raises. */
  lemma {:induction false} RunBatchRaises(c: Edit.Codes, policies: seq<Dict>, dp: string, net: Net)
    ensures RunBatch(c, policies, dp, net).Err? <==>
      exists i :: 0 <= i < |policies| && Truthy(GetOr(policies[i], "policy_name", VNone)) && Create.BindingRaises(policies[i])
    ensures RunBatch(c, policies, dp, net).Err? ==> RunBatch(c, policies, dp, net).msg == NoStrip
    decreases |policies|
  {
    if policies != [] {
      var init := policies[..|policies| - 1];
      RunBatchRaises(c, init, dp, net);
      assert forall i :: 0 <= i < |init| ==> init[i] == policies[i];
    }
  }

  // ---------------------------------------------------------------------------------------------
  // The module run
  // ---------------------------------------------------------------------------------------------

  /** The preview's entry for a policy. */
  function Planned(policy: Dict): Dict
  {
    [ ("policy_name", GetOr(policy, "policy_name", VStr("unnamed_policy"))),
      ("src_network", GetOr(policy, "src_network", VStr("any"))),
      ("dst_network", GetOr(policy, "dst_network", VStr("any"))) ] +
    EchoProfiles(policy)
  }

  function Run(c: Edit.Codes, policies: seq<Dict>, checkMode: bool, dp: string, net: Net): Create.RunResult
  {
    if checkMode then Create.Preview(policies != [], seq(|policies|, i requires 0 <= i < |policies| => Planned(policies[i])))
    else match RunBatch(c, policies, dp, net)
      case Err(e) => Create.Crashed("Security policy creation failed: " + e)
      case Ok(b) => Create.Finish(b, |policies|)
  }

  method RunModule(policies: seq<Dict>, checkMode: bool, dp: string, net: Net) returns (r: Create.RunResult)
    ensures r == Run(Edit.PolicyCodes, policies, checkMode, dp, net)
  {
    if checkMode {
      return Create.Preview(policies != [], seq(|policies|, i requires 0 <= i < |policies| => Planned(policies[i])));
    }
    var b := RunBatchLoop(Edit.PolicyCodes, policies, dp, net);
    if b.Err? {
      return Create.Crashed("Security policy creation failed: " + b.msg);
    }
    r := Create.Finish(b.value, |policies|);
  }

  /** Preview sends nothing and reports a change iff policies are listed, one planned entry of
      eleven keys each; an applied run fails iff some error was recorded, reports a change iff
      some policy was created, and its successes and errors add up to the policies attempted. */
  lemma RunOutcome(c: Edit.Codes, policies: seq<Dict>, checkMode: bool, dp: string, net: Net)
    ensures var r := Run(c, policies, checkMode, dp, net);
      (checkMode ==> r.Preview? && (r.changed <==> policies != []) && |r.planned| == |policies| &&
                     forall i :: 0 <= i < |policies| ==> |r.planned[i]| == 11) &&
      (r.Applied? ==> (r.failed <==> r.batch.errors != []) && (r.changed <==> r.batch.created != []) &&
                      r.summary.successful + r.summary.errorsCount == r.summary.attempted == |policies| &&
                      |r.batch.sent| <= |policies|)
  {
    if !checkMode && RunBatch(c, policies, dp, net).Ok? {
      BatchAccounts(c, policies, dp, net);
    }
  }
}

/** Creating security policies (plugins/modules/create_security_policy.py): each listed policy gets
    one POST to `rsIDSNewRulesTable/{policy_name}` whose body always carries the name, both
    networks, the four enumerated settings and the priority, with defaults for what the playbook
    leaves out, followed by the profile bindings whose value is not blank. */
module CreateSecurityPolicy {
  import opened Py
  import opened Http
  import opened Tables
  import Edit = EditSecurityPolicy

  /** The create module's action words; the other three tables are the edit module's. */
  const CreateActionCodes: Table := [
    ("report_only", "0"), ("report", "0"), ("block", "1"), ("deny", "1"), ("drop", "1"), ("protect", "1")
  ]

  const CreateCodes := Edit.Codes(Edit.DirectionCodes, Edit.StateCodes, CreateActionCodes, Edit.PacketReportingCodes)

  // ---------------------------------------------------------------------------------------------
  // The mapper
  // ---------------------------------------------------------------------------------------------

  /** `codes.get(str(policy.get(key, word)).lower(), default)`. */
  function CodeOr(policy: Dict, key: string, word: string, codes: Table, default: string): string
  {
    GetOr(codes, Lower(Str(GetOr(policy, key, VStr(word)))), default)
  }

  /** `map_security_policy_parameters`: always the four codes, with the playbook's word or the
      default word `oneway`, `enable`, `block` or `disable`. */
  function MapAll(c: Edit.Codes, policy: Dict): Table
  {
    [ ("direction", CodeOr(policy, "direction", "oneway", c.direction, "1")),
      ("state", CodeOr(policy, "state", "enable", c.state, "1")),
      ("action", CodeOr(policy, "action", "block", c.action, "1")),
      ("packet_reporting_status", CodeOr(policy, "packet_reporting_status", "disable", c.reporting, "2")) ]
  }

  /** A policy that names none of the settings gets one-way, enabled, blocking, no packet
      reporting. */
  lemma MapDefaults(policy: Dict)
    requires "direction" !in Keys(policy) && "state" !in Keys(policy)
    requires "action" !in Keys(policy) && "packet_reporting_status" !in Keys(policy)
    ensures MapAll(CreateCodes, policy) == [("direction", "1"), ("state", "1"), ("action", "1"), ("packet_reporting_status", "2")]
  {
    GetSome(policy, "direction");
    GetSome(policy, "state");
    GetSome(policy, "action");
    GetSome(policy, "packet_reporting_status");
    DefaultWords();
  }

  /** The default words are lowercase and select codes 1, 1, 1 and 2. */
  lemma DefaultWords()
    ensures GetOr(Edit.DirectionCodes, Lower("oneway"), "1") == "1"
    ensures GetOr(Edit.StateCodes, Lower("enable"), "1") == "1"
    ensures GetOr(CreateActionCodes, Lower("block"), "1") == "1"
    ensures GetOr(Edit.PacketReportingCodes, Lower("disable"), "2") == "2"
  {
    DefaultWordsLower();
    GetAt(Edit.DirectionCodes, 0, "oneway");
    GetAt(Edit.StateCodes, 0, "enable");
    GetAt(CreateActionCodes, 2, "block");
    GetAt(Edit.PacketReportingCodes, 3, "disable");
  }

  lemma DefaultWordsLower()
    ensures Lower("oneway") == "oneway" && Lower("enable") == "enable"
    ensures Lower("block") == "block" && Lower("disable") == "disable"
  {
    LowerPlain("oneway");
    LowerPlain("enable");
    LowerPlain("block");
    LowerPlain("disable");
  }

  /** Action words: the reporting words give "0"; the blocking words and every unknown word
      give "1". */
  lemma CreateActionWords(w: string)
    ensures GetOr(CreateActionCodes, w, "1") == if w in ["report_only", "report"] then "0" else "1"
  {
  }

  // ---------------------------------------------------------------------------------------------
  // The request body
  // ---------------------------------------------------------------------------------------------

  /** The profile bindings of the create modules: column suffix and playbook key. */
  const BindingKeys: Table := [
    ("ProfileAppsec", "signature_protection_profile"),
    ("ProfileConlmt", "connection_limit_profile"),
    ("ProfileNetflood", "bdos_profile"),
    ("ProfileSynprotection", "syn_protection_profile"),
    ("ProfileDNS", "dns_flood_profile"),
    ("ProfileHttpsflood", "https_flood_profile"),
    ("ProfileErtAttackersFeed", "ert_attackers_feed_profile"),
    ("ProfileTrafficFilters", "traffic_filters_profile"),
    ("ProfileGeoFeed", "geo_feed_profile"),
    ("ProfileStateful", "out_of_state_profile")
  ]

  /** `if value and value.strip()`: a string that is not blank. */
  predicate NotBlank(v: Value)
  {
    v.VStr? && Strip(v.s) != []
  }

  /** `value.strip()` raises for a truthy value that is not a string. */
  predicate StripRaises(v: Value)
  {
    Truthy(v) && !v.VStr?
  }

  /** A binding is sent, unstripped, when the playbook's value is not blank. */
  function Attach(policy: Dict, suffix: string, key: string): Slot
  {
    var v := GetOr(policy, key, VStr(""));
    Slot(Edit.Column(suffix), if NotBlank(v) then Some((v, "")) else None)
  }

  function Attachments(policy: Dict, keys: Table := BindingKeys): seq<Slot>
  {
    seq(|keys|, i requires 0 <= i < |keys| => Attach(policy, keys[i].0, keys[i].1))
  }

  /** Whether some binding value makes `strip()` raise. */
  predicate BindingRaises(policy: Dict, keys: Table := BindingKeys)
  {
    exists i :: 0 <= i < |keys| && StripRaises(GetOr(policy, keys[i].1, VStr("")))
  }

  /** The fixed part of the body. */
  function Base(c: Edit.Codes, policy: Dict, name: Value): seq<Slot>
  {
    var api := MapAll(c, policy);
    [ Slot(Edit.Column("Name"), Some((name, ""))),
      Slot(Edit.Column("Source"), Some((GetOr(policy, "src_network", VStr("any")), ""))),
      Slot(Edit.Column("Destination"), Some((GetOr(policy, "dst_network", VStr("any")), ""))),
      Slot(Edit.Column("Direction"), Some((VStr(api[0].1), ""))),
      Slot(Edit.Column("State"), Some((VStr(api[1].1), ""))),
      Slot(Edit.Column("Action"), Some((VStr(api[2].1), ""))),
      Slot(Edit.Column("PacketReportingStatus"), Some((VStr(api[3].1), ""))),
      Slot(Edit.Column("Priority"), Some((VStr(Str(GetOr(policy, "priority", VStr("100")))), ""))) ]
  }

  /** The request body, or the exception a binding raises. */
  function BodyOf(c: Edit.Codes, policy: Dict, name: Value): Result<Dict>
  {
    if BindingRaises(policy) then Err(NoStrip) else Ok(Fill(Base(c, policy, name) + Attachments(policy)).body)
  }

  /** The body as the module builds it: the fixed part, then a loop over the bindings. */
  method BuildBody(c: Edit.Codes, policy: Dict, name: Value) returns (r: Result<Dict>)
    ensures r == BodyOf(c, policy, name)
  {
    r := AttachLoop(Base(c, policy, name), policy, BindingKeys);
  }

  /** The loop over the bindings `keys`, after the fixed insertions `base`. */
  method AttachLoop(base: seq<Slot>, policy: Dict, keys: Table) returns (r: Result<Dict>)
    ensures r == if BindingRaises(policy, keys) then Err(NoStrip) else Ok(Fill(base + Attachments(policy, keys)).body)
  {
    var slots := base + Attachments(policy, keys);
    var body, _ := FillLoop(base);
    assert slots[..|base|] == base;
    var i := 0;
    while i < |keys|
      invariant 0 <= i <= |keys|
      invariant body == Fill(slots[..|base| + i]).body
      invariant forall j :: 0 <= j < i ==> !StripRaises(GetOr(policy, keys[j].1, VStr("")))
    {
      var v := GetOr(policy, keys[i].1, VStr(""));
      if StripRaises(v) {
        return Err(NoStrip);
      }
      AttachStep(base, policy, keys, i);
      if NotBlank(v) {
        body := Put(body, Edit.Column(keys[i].0), v);
      }
      i := i + 1;
    }
    assert slots[..|base| + i] == slots;
    return Ok(body);
  }

  /** One turn of the binding loop. */
  lemma AttachStep(base: seq<Slot>, policy: Dict, keys: Table, i: nat)
    requires i < |keys|
    ensures var slots := base + Attachments(policy, keys);
      var v := GetOr(policy, keys[i].1, VStr(""));
      Fill(slots[..|base| + (i + 1)]).body ==
        if NotBlank(v) then Put(Fill(slots[..|base| + i]).body, Edit.Column(keys[i].0), v) else Fill(slots[..|base| + i]).body
  {
    var slots := base + Attachments(policy, keys);
    FillNext(slots, |base| + i);
    assert slots[|base| + i] == Attach(policy, keys[i].0, keys[i].1);
  }

  lemma AttachmentAt(c: Edit.Codes, policy: Dict, name: Value, i: nat)
    requires i < |BindingKeys|
    ensures |Base(c, policy, name) + Attachments(policy)| == 8 + |BindingKeys|
    ensures (Base(c, policy, name) + Attachments(policy))[8 + i] == Attach(policy, BindingKeys[i].0, BindingKeys[i].1)
  {
  }

  const CreateSuffixes: seq<string> := [
    "Name", "Source", "Destination", "Direction", "State", "Action", "PacketReportingStatus", "Priority",
    "ProfileAppsec", "ProfileConlmt", "ProfileNetflood", "ProfileSynprotection", "ProfileDNS",
    "ProfileHttpsflood", "ProfileErtAttackersFeed", "ProfileTrafficFilters", "ProfileGeoFeed", "ProfileStateful"
  ]

  lemma CreateSuffixesDistinct()
    ensures forall i, j :: 0 <= i < j < |CreateSuffixes| ==> CreateSuffixes[i] != CreateSuffixes[j]
  {
  }

  lemma CreateSlotColumns(c: Edit.Codes, policy: Dict, name: Value)
    ensures |Base(c, policy, name) + Attachments(policy)| == |CreateSuffixes|
    ensures forall i :: 0 <= i < |CreateSuffixes| ==> (Base(c, policy, name) + Attachments(policy))[i].column == Edit.Column(CreateSuffixes[i])
  {
    BindingSuffixes();
    AttachColumns(policy, BindingKeys);
  }

  /** The binding columns follow the eight fixed ones. */
  lemma BindingSuffixes()
    ensures |CreateSuffixes| == 8 + |BindingKeys|
    ensures forall i :: 0 <= i < |BindingKeys| ==> BindingKeys[i].0 == CreateSuffixes[8 + i]
  {
  }

  lemma AttachColumns(policy: Dict, keys: Table)
    ensures |Attachments(policy, keys)| == |keys|
    ensures forall i :: 0 <= i < |keys| ==> Attachments(policy, keys)[i].column == Edit.Column(keys[i].0)
  {
  }

  /** The columns of a create body are distinct. */
  lemma CreateSlotsDistinct(slots: seq<Slot>)
    requires |slots| == |CreateSuffixes| && forall i :: 0 <= i < |CreateSuffixes| ==> slots[i].column == Edit.Column(CreateSuffixes[i])
    ensures ColumnsDistinct(slots)
  {
    CreateSuffixesDistinct();
    forall i, j | 0 <= i < j < |slots| ensures slots[i].column != slots[j].column {
      Edit.ColumnInjective(CreateSuffixes[i], CreateSuffixes[j]);
    }
  }

  /** The body always names the policy, carries both networks (`any` when not given), the four
      codes and the priority's string ("100" when not given). */
  lemma BodyFixed(c: Edit.Codes, policy: Dict, name: Value)
    requires BodyOf(c, policy, name).Ok?
    ensures var body := BodyOf(c, policy, name).value;
      Get(body, Edit.Column("Name")) == Some(name) &&
      Get(body, Edit.Column("Source")) == Some(GetOr(policy, "src_network", VStr("any"))) &&
      Get(body, Edit.Column("Destination")) == Some(GetOr(policy, "dst_network", VStr("any"))) &&
      Get(body, Edit.Column("Direction")) == Some(VStr(CodeOr(policy, "direction", "oneway", c.direction, "1"))) &&
      Get(body, Edit.Column("State")) == Some(VStr(CodeOr(policy, "state", "enable", c.state, "1"))) &&
      Get(body, Edit.Column("Action")) == Some(VStr(CodeOr(policy, "action", "block", c.action, "1"))) &&
      Get(body, Edit.Column("PacketReportingStatus")) == Some(VStr(CodeOr(policy, "packet_reporting_status", "disable", c.reporting, "2"))) &&
      Get(body, Edit.Column("Priority")) == Some(VStr(Str(GetOr(policy, "priority", VStr("100")))))
  {
    var slots := Base(c, policy, name) + Attachments(policy);
    CreateSlotColumns(c, policy, name);
    CreateSlotsDistinct(slots);
    FillGet(slots, 0);
    FillGet(slots, 1);
    FillGet(slots, 2);
    FillGet(slots, 3);
    FillGet(slots, 4);
    FillGet(slots, 5);
    FillGet(slots, 6);
    FillGet(slots, 7);
  }

  /** A profile column is in the body exactly when the playbook's value for it is a string that
      is not blank, and then holds that string unstripped. */
  lemma BodyBinding(c: Edit.Codes, policy: Dict, name: Value, i: nat)
    requires BodyOf(c, policy, name).Ok? && i < |BindingKeys|
    ensures Get(BodyOf(c, policy, name).value, Edit.Column(BindingKeys[i].0)) ==
      if NotBlank(GetOr(policy, BindingKeys[i].1, VStr(""))) then Some(GetOr(policy, BindingKeys[i].1, VStr(""))) else None
  {
    var slots := Base(c, policy, name) + Attachments(policy);
    CreateSlotColumns(c, policy, name);
    CreateSlotsDistinct(slots);
    FillGet(slots, 8 + i);
  }

  /** The body holds nothing but these columns, each once. */
  lemma BodyKeys(c: Edit.Codes, policy: Dict, name: Value)
    requires BodyOf(c, policy, name).Ok?
    ensures UniqueKeys(BodyOf(c, policy, name).value)
    ensures forall k :: k in Keys(BodyOf(c, policy, name).value) ==> exists i :: 0 <= i < |CreateSuffixes| && k == Edit.Column(CreateSuffixes[i])
  {
    CreateSlotColumns(c, policy, name);
    FillShape(Base(c, policy, name) + Attachments(policy));
  }

  // ---------------------------------------------------------------------------------------------
  // The batch loop
  // ---------------------------------------------------------------------------------------------

  const NameRequired := "Policy name is required (use 'policy_name' field)"

  /** An entry of `created_policies`. */
  datatype Created = Created(name: Value, report: Dict)

  datatype Batch = Batch(changed: bool, created: seq<Created>, errors: seq<string>, sent: seq<Request>)

  const NoBatch := Batch(false, [], [], [])

  function CreateRequest(dp: string, name: Value, body: Dict): Request
  {
    Request(POST, ConfigPath(dp, Edit.RulesTable + "/" + Str(name)), Some(VDict(body)))
  }

  /** What `created_policies` records for a created policy. */
  function Report(policy: Dict, name: Value): Dict
  {
    [ ("policy_name", name),
      ("src_network", GetOr(policy, "src_network", VStr("any"))),
      ("dst_network", GetOr(policy, "dst_network", VStr("any"))),
      ("direction", GetOr(policy, "direction", VStr("oneway"))),
      ("priority", GetOr(policy, "priority", VStr("100"))),
      ("connection_limit_profile", GetOr(policy, "connection_limit_profile", VStr(""))),
      ("status", VStr("success")) ]
  }

  /** The POST of one policy and its outcome; exceptions of the request are that policy's
      error. */
  function Post(b: Batch, name: Value, body: Dict, report: Dict, dp: string, net: Net): Batch
  {
    var b1 := b.(sent := b.sent + [CreateRequest(dp, name, body)]);
    match net(|b.sent|)
    case Raised(e) => b1.(errors := b1.errors + ["Error creating security policy " + Str(name) + ": " + e])
    case Returned(r) =>
      if r.status == 200 then b1.(changed := true, created := b1.created + [Created(name, report)])
      else b1.(errors := b1.errors + ["Failed to create security policy " + Str(name) + ": HTTP " + IntToString(r.status) + " - " + r.text])
  }

  /** One policy of the loop; `Err` when a binding's `strip()` raises, which the module's outer
      handler catches. */
  function PolicyStep(c: Edit.Codes, b: Batch, policy: Dict, dp: string, net: Net): Result<Batch>
  {
    var name := GetOr(policy, "policy_name", VNone);
    if !Truthy(name) then Ok(b.(errors := b.errors + [NameRequired]))
    else match BodyOf(c, policy, name)
      case Err(e) => Err(e)
      case Ok(body) => Ok(Post(b, name, body, Report(policy, name), dp, net))
  }

  function RunBatch(c: Edit.Codes, policies: seq<Dict>, dp: string, net: Net): Result<Batch>
  {
    if policies == [] then Ok(NoBatch)
    else match RunBatch(c, policies[..|policies| - 1], dp, net)
      case Err(e) => Err(e)
      case Ok(b) => PolicyStep(c, b, policies[|policies| - 1], dp, net)
  }

  lemma {:induction false} RunBatchStaysErr(c: Edit.Codes, policies: seq<Dict>, dp: string, net: Net, i: nat)
    requires i <= |policies| && RunBatch(c, policies[..i], dp, net).Err?
    ensures RunBatch(c, policies, dp, net) == RunBatch(c, policies[..i], dp, net)
    decreases |policies| - i
  {
    if i < |policies| {
      assert policies[..i + 1][..i] == policies[..i];
      RunBatchStaysErr(c, policies, dp, net, i + 1);
    } else {
      assert policies[..i] == policies;
    }
  }

  method RunBatchLoop(c: Edit.Codes, policies: seq<Dict>, dp: string, net: Net) returns (r: Result<Batch>)
    ensures r == RunBatch(c, policies, dp, net)
  {
    var b := NoBatch;
    var i := 0;
    while i < |policies|
      invariant 0 <= i <= |policies|
      invariant RunBatch(c, policies[..i], dp, net) == Ok(b)
    {
      assert policies[..i + 1][..i] == policies[..i];
      var step := PolicyStep(c, b, policies[i], dp, net);
      if step.Err? {
        RunBatchStaysErr(c, policies, dp, net, i + 1);
        return step;
      }
      b := step.value;
      i := i + 1;
    }
    assert policies[..i] == policies;
    return Ok(b);
  }

  /** A policy is created exactly when its POST is answered with status 200; any other answer
      or an exception adds one error. */
  lemma PostOutcome(b: Batch, name: Value, body: Dict, report: Dict, dp: string, net: Net)
    ensures var s := Post(b, name, body, report, dp, net);
      s.sent == b.sent + [CreateRequest(dp, name, body)] &&
      (if net(|b.sent|).Returned? && net(|b.sent|).reply.status == 200 then
         s.created == b.created + [Created(name, report)] && s.errors == b.errors && s.changed
       else s.created == b.created && |s.errors| == |b.errors| + 1 && s.changed == b.changed)
  {
  }

  /** Every policy is either created or adds exactly one error; `changed` is set exactly when
      some policy was created; at most one request is sent per policy. */
  lemma {:induction false} BatchAccounts(c: Edit.Codes, policies: seq<Dict>, dp: string, net: Net)
    requires RunBatch(c, policies, dp, net).Ok?
    ensures var b := RunBatch(c, policies, dp, net).value;
      |b.created| + |b.errors| == |policies| && (b.changed <==> b.created != []) && |b.sent| <= |policies|
    decreases |policies|
  {
    if policies != [] {
      var init := policies[..|policies| - 1];
      var policy := policies[|policies| - 1];
      BatchAccounts(c, init, dp, net);
      var b := RunBatch(c, init, dp, net).value;
      var name := GetOr(policy, "policy_name", VNone);
      if Truthy(name) {
        PostOutcome(b, name, BodyOf(c, policy, name).value, Report(policy, name), dp, net);
      }
    }
  }

  /** A batch stops with an exception exactly at the first named policy with a binding whose
      `strip()` raises. */
  lemma {:induction false} RunBatchRaises(c: Edit.Codes, policies: seq<Dict>, dp: string, net: Net)
    ensures RunBatch(c, policies, dp, net).Err? <==>
      exists i :: 0 <= i < |policies| && Truthy(GetOr(policies[i], "policy_name", VNone)) && BindingRaises(policies[i])
    ensures RunBatch(c, policies, dp, net).Err? ==> RunBatch(c, policies, dp, net).msg == NoStrip
    decreases |policies|
  {
    if policies != [] {
      var init := policies[..|policies| - 1];
      RunBatchRaises(c, init, dp, net);
      assert forall i :: 0 <= i < |init| ==> init[i] == policies[i];
    }
  }

  // ---------------------------------------------------------------------------------------------
  // The module run
  // ---------------------------------------------------------------------------------------------

  datatype Summary = Summary(successful: nat, attempted: nat, errorsCount: nat)

  datatype RunResult =
    | Preview(changed: bool, planned: seq<Dict>)
    | Applied(failed: bool, msg: string, changed: bool, batch: Batch, summary: Summary)
    | Crashed(msg: string)

  /** The preview's entry for a policy. */
  function Planned(policy: Dict): Dict
  {
    [ ("policy_name", GetOr(policy, "policy_name", VStr("unnamed_policy"))),
      ("src_network", GetOr(policy, "src_network", VStr("any"))),
      ("dst_network", GetOr(policy, "dst_network", VStr("any"))),
      ("connection_limit_profile", GetOr(policy, "connection_limit_profile", VStr(""))) ]
  }

  function Finish(b: Batch, attempted: nat): RunResult
  {
    var n := |b.errors|;
    Applied(n != 0, if n != 0 then "Security policy creation completed with " + IntToString(n) + " error(s). See response.errors for details." else "",
            b.changed, b, Summary(|b.created|, attempted, n))
  }

  function Run(c: Edit.Codes, policies: seq<Dict>, checkMode: bool, dp: string, net: Net): RunResult
  {
    if checkMode then Preview(policies != [], seq(|policies|, i requires 0 <= i < |policies| => Planned(policies[i])))
    else match RunBatch(c, policies, dp, net)
      case Err(e) => Crashed("Security policy creation failed: " + e)
      case Ok(b) => Finish(b, |policies|)
  }

  method RunModule(policies: seq<Dict>, checkMode: bool, dp: string, net: Net) returns (r: RunResult)
    ensures r == Run(CreateCodes, policies, checkMode, dp, net)
  {
    if checkMode {
      return Preview(policies != [], seq(|policies|, i requires 0 <= i < |policies| => Planned(policies[i])));
    }
    var b := RunBatchLoop(CreateCodes, policies, dp, net);
    if b.Err? {
      return Crashed("Security policy creation failed: " + b.msg);
    }
    r := Finish(b.value, |policies|);
  }

  /** Preview sends nothing and reports a change iff policies are listed, one planned entry
      each; an applied run fails iff some error was recorded, reports a change iff some policy
      was created, and its successes and errors add up to the policies attempted. */
  lemma RunOutcome(c: Edit.Codes, policies: seq<Dict>, checkMode: bool, dp: string, net: Net)
    ensures var r := Run(c, policies, checkMode, dp, net);
      (checkMode ==> r.Preview? && (r.changed <==> policies != []) && |r.planned| == |policies|) &&
      (r.Applied? ==> (r.failed <==> r.batch.errors != []) && (r.changed <==> r.batch.created != []) &&
                      r.summary.successful + r.summary.errorsCount == r.summary.attempted == |policies| &&
                      |r.batch.sent| <= |policies|)
  {
    if !checkMode && RunBatch(c, policies, dp, net).Ok? {
      BatchAccounts(c, policies, dp, net);
    }
  }
}

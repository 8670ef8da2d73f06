/** The display formatter (plugins/modules/format_display.py): it turns the playbook's data into
    lines of text for three views (the orchestration plan, the security-policy summary and the
    creation results) and shows them as warnings or debug messages.  It never changes anything. */
module FormatDisplay {
  import opened Py

  // ---------------------------------------------------------------------------------------------
  // format_orchestration_plan
  // ---------------------------------------------------------------------------------------------

  const PlanTitle := "DefensePro Security Policy Creation Plan:"

  function Config(data: Dict): Value
  {
    GetOr(data, "config", VDict([]))
  }

  function Policies(data: Dict): Value
  {
    GetOr(data, "policies", VList([]))
  }

  /** The flag under which policies are counted and summarised. */
  function CreatePolicies(config: Value): bool
  {
    Truthy(FieldOr(config, "create_security_policies", VBool(false)))
  }

  /** The eight-line plan: title, rule, devices, the three control flags and the policy count. */
  function OrchestrationPlan(data: Dict): Result<seq<string>>
  {
    var devices := GetOr(data, "devices", VList([]));
    var config := Config(data);
    var policies := Policies(data);
    if !config.VDict? then Err(NoGet)
    else
      var count := if CreatePolicies(config) then Len(policies) else Some(0);
      if count.None? then Err(NoLen)
      else match JoinValues(", ", devices)
        case Err(m) => Err(m)
        case Ok(targets) =>
          Ok([PlanTitle,
              seq(42, _ => '='),
              "Target Device(s): " + targets,
              "Control Flags:",
              "  - Create Network Classes: " + Str(FieldOr(config, "create_network_classes", VBool(false))),
              "  - Create CL Profiles: " + Str(FieldOr(config, "create_cl_profiles", VBool(false))),
              "  - Create Security Policies: " + Str(FieldOr(config, "create_security_policies", VBool(false))),
              "Security Policies to Create: " + IntToString(count.value)])
  }

  /** The plan is always eight lines; it counts the policies only when their creation is enabled,
      and it raises only for a config that is not a dict, an unsized policy list that is counted,
      or devices that cannot be joined. */
  lemma OrchestrationPlanShape(data: Dict)
    ensures var config := Config(data);
      var policies := Policies(data);
      var r := OrchestrationPlan(data);
      (r.Ok? <==>
         config.VDict? && (CreatePolicies(config) ==> Len(policies).Some?) &&
         JoinValues(", ", GetOr(data, "devices", VList([]))).Ok?) &&
      (r.Ok? ==>
         |r.value| == 8 && |r.value[1]| == 42 &&
         r.value[7] == "Security Policies to Create: " + IntToString(if CreatePolicies(config) then Len(policies).value else 0))
  {
  }

  // ---------------------------------------------------------------------------------------------
  // format_policy_summary
  // ---------------------------------------------------------------------------------------------

  const Disabled := "Security policy creation is disabled. No policies will be configured."
  const NoPolicies := "No security policies configured for creation"

  /** The profile bindings listed for every policy: (label, policy key). */
  const Bindings: seq<(string, string)> := [
    ("Connection Limit Profile", "connection_limit_profile"),
    ("BDOS Profile", "bdos_profile"),
    ("SYN Protection Profile", "syn_protection_profile"),
    ("DNS Flood Profile", "dns_flood_profile"),
    ("HTTPS Flood Profile", "https_flood_profile"),
    ("Traffic Filters Profile", "traffic_filters_profile"),
    ("Signature Protection Profile", "signature_protection_profile"),
    ("ERT Attackers Feed Profile", "ert_attackers_feed_profile"),
    ("Geo Feed Profile", "geo_feed_profile"),
    ("Out of State Profile", "out_of_state_profile")]

  function BindingLine(policy: Value, b: (string, string)): string
  {
    "  " + b.0 + ": " + Str(FieldOr(policy, b.1, VStr("")))
  }

  /** The lines of the first `n` bindings. */
  function BindingLines(policy: Value, table: seq<(string, string)>, n: nat): seq<string>
    requires n <= |table|
  {
    if n == 0 then [] else BindingLines(policy, table, n - 1) + [BindingLine(policy, table[n - 1])]
  }

  /** The heading line of one policy: name and source -> destination. */
  function PolicyHeading(policy: Value): string
  {
    "- " + Str(FieldOr(policy, "policy_name", VStr("unnamed"))) +
    " (" + Str(FieldOr(policy, "src_network", VStr("any"))) + " -> " + Str(FieldOr(policy, "dst_network", VStr("any"))) + ")"
  }

  function PriorityLine(policy: Value): string
  {
    "  Priority: " + Str(FieldOr(policy, "priority", VStr("100")))
  }

  /** The lines of one policy with the bindings of `table` (the model always passes
      `Bindings`), or the exception `.get` raises on an entry that is not a dict. */
  function PolicyBlock(policy: Value, table: seq<(string, string)>): Result<seq<string>>
  {
    if !policy.VDict? then Err(NoGet)
    else Ok([PolicyHeading(policy), PriorityLine(policy)] + BindingLines(policy, table, |table|))
  }

  /** The lines of all policies, in order; the first entry that raises aborts. */
  function Blocks(policies: seq<Value>, table: seq<(string, string)>): Result<seq<string>>
    decreases |policies|
  {
    if policies == [] then Ok([])
    else match Blocks(policies[..|policies| - 1], table)
      case Err(m) => Err(m)
      case Ok(ls) =>
        match PolicyBlock(policies[|policies| - 1], table)
        case Err(m) => Err(m)
        case Ok(b) => Ok(ls + b)
  }

  lemma {:induction false} BlocksStaysErr(policies: seq<Value>, table: seq<(string, string)>, i: nat)
    requires i <= |policies| && Blocks(policies[..i], table).Err?
    ensures Blocks(policies, table) == Blocks(policies[..i], table)
    decreases |policies| - i
  {
    if i < |policies| {
      assert policies[..i + 1][..i] == policies[..i];
      BlocksStaysErr(policies, table, i + 1);
    } else {
      assert policies[..i] == policies;
    }
  }

  function SummaryHeader(policyCount: nat, deviceCount: nat): string
  {
    "Creating " + IntToString(policyCount) + " security policies on " + IntToString(deviceCount) + " device(s):"
  }

  function PolicySummary(data: Dict): Result<seq<string>>
  {
    var devices := GetOr(data, "devices", VList([]));
    var policies := Policies(data);
    var config := Config(data);
    if !config.VDict? then Err(NoGet)
    else if !CreatePolicies(config) then Ok([Disabled])
    else if !Truthy(policies) then Ok([NoPolicies])
    else if Len(policies).None? || Len(devices).None? then Err(NoLen)
    else match Iter(policies)
      case None => Err(NotIterable)
      case Some(items) =>
        match Blocks(items, Bindings)
        case Err(m) => Err(m)
        case Ok(ls) => Ok([SummaryHeader(Len(policies).value, Len(devices).value)] + ls)
  }

  method FormatPolicySummary(data: Dict) returns (r: Result<seq<string>>)
    ensures r == PolicySummary(data)
  {
    var devices := GetOr(data, "devices", VList([]));
    var policies := Policies(data);
    var config := Config(data);
    if !config.VDict? { return Err(NoGet); }
    if !CreatePolicies(config) { return Ok([Disabled]); }
    if !Truthy(policies) { return Ok([NoPolicies]); }
    if Len(policies).None? || Len(devices).None? { return Err(NoLen); }
    var header := SummaryHeader(Len(policies).value, Len(devices).value);
    r := AppendBlocks([header], Iter(policies).value, Bindings);
  }

  /** The loop over the policies: each policy's lines are appended, or the first entry that is
      not a dict raises. */
  method AppendBlocks(start: seq<string>, items: seq<Value>, table: seq<(string, string)>) returns (r: Result<seq<string>>)
    ensures Blocks(items, table).Ok? ==> r == Ok(start + Blocks(items, table).value)
    ensures Blocks(items, table).Err? ==> r == Err(Blocks(items, table).msg)
  {
    var lines := start;
    var i := 0;
    while i < |items|
      invariant 0 <= i <= |items|
      invariant Blocks(items[..i], table).Ok? && lines == start + Blocks(items[..i], table).value
    {
      var policy := items[i];
      if !policy.VDict? {
        assert items[..i + 1][..i] == items[..i];
        BlocksStaysErr(items, table, i + 1);
        return Err(NoGet);
      }
      ghost var prev := Blocks(items[..i], table).value;
      lines := lines + [PolicyHeading(policy), PriorityLine(policy)];
      lines := AppendBindings(lines, policy, table);
      BlocksAppend(items, table, i);
      assert lines == start + (prev + [PolicyHeading(policy), PriorityLine(policy)] + BindingLines(policy, table, |table|));
      i := i + 1;
    }
    assert items[..i] == items;
    return Ok(lines);
  }

  /** The inner loop: one line per profile binding of the policy. */
  method AppendBindings(start: seq<string>, policy: Value, table: seq<(string, string)>) returns (lines: seq<string>)
    ensures lines == start + BindingLines(policy, table, |table|)
  {
    lines := start;
    var j := 0;
    while j < |table|
      invariant 0 <= j <= |table|
      invariant lines == start + BindingLines(policy, table, j)
    {
      lines := lines + [BindingLine(policy, table[j])];
      j := j + 1;
    }
  }

  lemma {:induction false} BindingLinesLength(policy: Value, table: seq<(string, string)>, n: nat)
    requires n <= |table|
    ensures |BindingLines(policy, table, n)| == n
  {
    if n > 0 { BindingLinesLength(policy, table, n - 1); }
  }

  lemma PolicyBlockLength(policy: Value, table: seq<(string, string)>)
    requires policy.VDict?
    ensures |PolicyBlock(policy, table).value| == 2 + |table|
  {
    BindingLinesLength(policy, table, |table|);
  }

  /** One more dict entry appends its block. */
  lemma BlocksAppend(items: seq<Value>, table: seq<(string, string)>, i: nat)
    requires i < |items| && Blocks(items[..i], table).Ok? && items[i].VDict?
    ensures Blocks(items[..i + 1], table) ==
      Ok(Blocks(items[..i], table).value + [PolicyHeading(items[i]), PriorityLine(items[i])] + BindingLines(items[i], table, |table|))
  {
    assert items[..i + 1][..i] == items[..i];
    var ls := Blocks(items[..i], table).value;
    var head := [PolicyHeading(items[i]), PriorityLine(items[i])];
    assert ls + (head + BindingLines(items[i], table, |table|)) == ls + head + BindingLines(items[i], table, |table|);
  }

  /** The policy lines raise iff some entry is not a dict. */
  lemma {:induction false} BlocksRaise(policies: seq<Value>, table: seq<(string, string)>)
    ensures Blocks(policies, table).Ok? <==> forall i :: 0 <= i < |policies| ==> policies[i].VDict?
    decreases |policies|
  {
    if policies != [] {
      var init := policies[..|policies| - 1];
      BlocksRaise(init, table);
      forall i | 0 <= i < |init| ensures init[i] == policies[i] { }
    }
  }

  /** Entry by entry, the policy lines hold twelve lines per policy, in input order. */
  lemma {:induction false} BlocksLayout(policies: seq<Value>, table: seq<(string, string)>)
    requires |table| == 10 && Blocks(policies, table).Ok?
    ensures |Blocks(policies, table).value| == 12 * |policies|
    ensures forall i :: 0 <= i < |policies| ==>
      PolicyBlock(policies[i], table).Ok? && Blocks(policies, table).value[12 * i..12 * i + 12] == PolicyBlock(policies[i], table).value
    decreases |policies|
  {
    if policies != [] {
      var init := policies[..|policies| - 1];
      var n := |init|;
      assert Blocks(init, table).Ok?;
      BlocksLayout(init, table);
      var ls := Blocks(init, table).value;
      PolicyBlockLength(policies[n], table);
      var b := PolicyBlock(policies[n], table).value;
      var all := Blocks(policies, table).value;
      assert all == ls + b;
      forall i | 0 <= i < |policies|
        ensures PolicyBlock(policies[i], table).Ok? && all[12 * i..12 * i + 12] == PolicyBlock(policies[i], table).value
      {
        if i < n {
          assert init[i] == policies[i];
          assert all[12 * i..12 * i + 12] == ls[12 * i..12 * i + 12];
        } else {
          assert all[12 * i..12 * i + 12] == b;
        }
      }
    }
  }

  /** With creation enabled and a non-empty policy list, the summary is a header plus twelve
      lines per policy, in input order. */
  lemma PolicySummaryShape(data: Dict)
    requires Config(data).VDict? && CreatePolicies(Config(data)) && Truthy(Policies(data))
    requires PolicySummary(data).Ok?
    ensures Policies(data).VList?
    ensures var items := Policies(data).items;
      var r := PolicySummary(data).value;
      |r| == 1 + 12 * |items| &&
      forall i :: 0 <= i < |items| ==>
        PolicyBlock(items[i], Bindings).Ok? && r[1 + 12 * i..13 + 12 * i] == PolicyBlock(items[i], Bindings).value
  {
    PolicySummaryValue(data);
    var items := Policies(data).items;
    BlocksLayout(items, Bindings);
    var r := PolicySummary(data).value;
    var ls := Blocks(items, Bindings).value;
    assert r[1..] == ls;
    SlicesOfTail(r, |items|);
  }

  lemma SlicesOfTail(r: seq<string>, n: nat)
    requires |r| == 1 + 12 * n
    ensures forall i :: 0 <= i < n ==> r[1 + 12 * i..13 + 12 * i] == r[1..][12 * i..12 * i + 12]
  {
  }

  /** An enabled, non-empty summary that does not raise came from a list of policies. */
  lemma PolicySummaryValue(data: Dict)
    requires Config(data).VDict? && CreatePolicies(Config(data)) && Truthy(Policies(data))
    requires PolicySummary(data).Ok?
    ensures Policies(data).VList? && Blocks(Policies(data).items, Bindings).Ok?
    ensures PolicySummary(data).value == [PolicySummary(data).value[0]] + Blocks(Policies(data).items, Bindings).value
  {
    BlocksRaise(Iter(Policies(data)).value, Bindings);
  }

  /** A disabled flag or an empty policy list gives a single line; the summary raises iff the
      config is not a dict, or creation is enabled for a non-empty policy list and a length is
      missing or some policy is not a dict. */
  lemma PolicySummaryCases(data: Dict)
    ensures var config := Config(data);
      var policies := Policies(data);
      var r := PolicySummary(data);
      (config.VDict? && !CreatePolicies(config) ==> r == Ok([Disabled])) &&
      (config.VDict? && CreatePolicies(config) && !Truthy(policies) ==> r == Ok([NoPolicies])) &&
      (r.Err? <==>
         !config.VDict? ||
         (CreatePolicies(config) && Truthy(policies) &&
          (Len(GetOr(data, "devices", VList([]))).None? || Len(policies).None? ||
           exists i :: 0 <= i < |Iter(policies).value| && !Iter(policies).value[i].VDict?)))
  {
    var policies := Policies(data);
    if Len(policies).Some? {
      BlocksRaise(Iter(policies).value, Bindings);
    }
  }

  // ---------------------------------------------------------------------------------------------
  // format_creation_results
  // ---------------------------------------------------------------------------------------------

  const PreviewLine := "PREVIEW MODE - No actual changes made"

  /** One line per item, in order; the first item whose line raises aborts. */
  function ItemLines(items: seq<Value>, line: Value -> Result<string>): Result<seq<string>>
    decreases |items|
  {
    if items == [] then Ok([])
    else match ItemLines(items[..|items| - 1], line)
      case Err(m) => Err(m)
      case Ok(ls) =>
        match line(items[|items| - 1])
        case Err(m) => Err(m)
        case Ok(l) => Ok(ls + [l])
  }

  lemma {:induction false} ItemLinesStaysErr(items: seq<Value>, line: Value -> Result<string>, i: nat)
    requires i <= |items| && ItemLines(items[..i], line).Err?
    ensures ItemLines(items, line) == ItemLines(items[..i], line)
    decreases |items| - i
  {
    if i < |items| {
      assert items[..i + 1][..i] == items[..i];
      ItemLinesStaysErr(items, line, i + 1);
    } else {
      assert items[..i] == items;
    }
  }

  /** `lines.append(...)` for every item: the lines extended by the items' lines, or the first
      exception. */
  method AppendItemLines(lines: seq<string>, items: seq<Value>, line: Value -> Result<string>) returns (r: Result<seq<string>>)
    ensures ItemLines(items, line).Ok? ==> r == Ok(lines + ItemLines(items, line).value)
    ensures ItemLines(items, line).Err? ==> r == Err(ItemLines(items, line).msg)
  {
    var out := lines;
    var i := 0;
    while i < |items|
      invariant 0 <= i <= |items|
      invariant ItemLines(items[..i], line).Ok? && out == lines + ItemLines(items[..i], line).value
    {
      assert items[..i + 1][..i] == items[..i];
      var l := line(items[i]);
      if l.Err? {
        ItemLinesStaysErr(items, line, i + 1);
        return Err(l.msg);
      }
      out := out + [l.value];
      i := i + 1;
    }
    assert items[..i] == items;
    return Ok(out);
  }

  /** Items turn into lines independently: the lines exist iff every item's line does, and then
      there is one line per item, in order. */
  lemma {:induction false} ItemLinesShape(items: seq<Value>, line: Value -> Result<string>)
    ensures ItemLines(items, line).Ok? <==> forall i :: 0 <= i < |items| ==> line(items[i]).Ok?
    ensures ItemLines(items, line).Ok? ==>
      |ItemLines(items, line).value| == |items| &&
      forall i :: 0 <= i < |items| ==> ItemLines(items, line).value[i] == line(items[i]).value
    decreases |items|
  {
    if items != [] {
      var init := items[..|items| - 1];
      ItemLinesShape(init, line);
      forall i | 0 <= i < |init| ensures init[i] == items[i] { }
    }
  }

  function OperationLine(op: Value): Result<string>
  {
    if op.VDict? then Ok("- " + Str(FieldOr(op, "description", VStr("Unknown operation")))) else Err(NoGet)
  }

  function CreatedLine(policy: Value): Result<string>
  {
    if policy.VDict? then
      Ok("- " + Str(FieldOr(policy, "policy_name", VNone)) +
         " (" + Str(FieldOr(policy, "src_network", VStr("any"))) + " -> " + Str(FieldOr(policy, "dst_network", VStr("any"))) + ")")
    else Err(NoGet)
  }

  function ErrorLine(error: Value): Result<string>
  {
    Ok("- " + Str(error))
  }

  /** An optional section: nothing for a falsy list, else a blank line, the title and one line
      per item. */
  function Section(title: string, v: Value, line: Value -> Result<string>): Result<seq<string>>
  {
    if !Truthy(v) then Ok([])
    else match Iter(v)
      case None => Err(NotIterable)
      case Some(items) =>
        match ItemLines(items, line)
        case Err(m) => Err(m)
        case Ok(ls) => Ok(["", title] + ls)
  }

  function ResultLines(response: Value): Result<seq<string>>
    requires response.VDict?
  {
    var summary := FieldOr(response, "summary", VDict([]));
    if !summary.VDict? then Err(NoGet)
    else
      var fixed := [
        "Security Policy Creation Results:",
        "Total Attempted: " + Str(FieldOr(summary, "total_policies_attempted", VInt(0))),
        "Successfully Created: " + Str(FieldOr(summary, "successful_policies", VInt(0))),
        "Errors: " + Str(FieldOr(summary, "errors_count", VInt(0)))];
      match Section("Successfully Created Policies:", FieldOr(response, "created_policies", VList([])), CreatedLine)
      case Err(m) => Err(m)
      case Ok(created) =>
        match Section("Errors:", FieldOr(response, "errors", VList([])), ErrorLine)
        case Err(m) => Err(m)
        case Ok(errors) => Ok(fixed + created + errors)
  }

  function CreationResults(data: Dict): Result<seq<string>>
  {
    var device := GetOr(data, "device", VStr("unknown"));
    var response := GetOr(data, "response", VDict([]));
    if !response.VDict? then Err(NoGet)
    else
      var head := ["Device: " + Str(device)];
      if Truthy(FieldOr(response, "preview_mode", VNone)) then
        var planned := FieldOr(response, "planned_operations", VList([]));
        match Len(planned)
        case None => Err(NoLen)
        case Some(n) =>
          match Iter(planned)
          case None => Err(NotIterable)
          case Some(items) =>
            match ItemLines(items, OperationLine)
            case Err(m) => Err(m)
            case Ok(ls) => Ok(head + [PreviewLine, "Planned Operations: " + IntToString(n)] + ls)
      else
        match ResultLines(response)
        case Err(m) => Err(m)
        case Ok(ls) => Ok(head + ls)
  }

  method AppendSection(lines: seq<string>, title: string, v: Value, line: Value -> Result<string>) returns (r: Result<seq<string>>)
    ensures Section(title, v, line).Ok? ==> r == Ok(lines + Section(title, v, line).value)
    ensures Section(title, v, line).Err? ==> r == Err(Section(title, v, line).msg)
  {
    if !Truthy(v) {
      assert lines + [] == lines;
      return Ok(lines);
    }
    if Iter(v).None? { return Err(NotIterable); }
    r := AppendItemLines(lines + ["", title], Iter(v).value, line);
    if ItemLines(Iter(v).value, line).Ok? {
      assert lines + ["", title] + ItemLines(Iter(v).value, line).value == lines + (["", title] + ItemLines(Iter(v).value, line).value);
    }
  }

  method FormatCreationResults(data: Dict) returns (r: Result<seq<string>>)
    ensures r == CreationResults(data)
  {
    var device := GetOr(data, "device", VStr("unknown"));
    var response := GetOr(data, "response", VDict([]));
    if !response.VDict? { return Err(NoGet); }
    var lines := ["Device: " + Str(device)];
    if Truthy(FieldOr(response, "preview_mode", VNone)) {
      lines := lines + [PreviewLine];
      var planned := FieldOr(response, "planned_operations", VList([]));
      if Len(planned).None? { return Err(NoLen); }
      lines := lines + ["Planned Operations: " + IntToString(Len(planned).value)];
      assert lines == ["Device: " + Str(device)] + [PreviewLine, "Planned Operations: " + IntToString(Len(planned).value)];
      r := AppendItemLines(lines, Iter(planned).value, OperationLine);
    } else {
      var summary := FieldOr(response, "summary", VDict([]));
      if !summary.VDict? { return Err(NoGet); }
      lines := lines + [
        "Security Policy Creation Results:",
        "Total Attempted: " + Str(FieldOr(summary, "total_policies_attempted", VInt(0))),
        "Successfully Created: " + Str(FieldOr(summary, "successful_policies", VInt(0))),
        "Errors: " + Str(FieldOr(summary, "errors_count", VInt(0)))];
      ghost var fixed := lines[1..];
      assert lines == ["Device: " + Str(device)] + fixed;
      r := AppendSection(lines, "Successfully Created Policies:", FieldOr(response, "created_policies", VList([])), CreatedLine);
      if r.Ok? {
        ghost var created := Section("Successfully Created Policies:", FieldOr(response, "created_policies", VList([])), CreatedLine).value;
        r := AppendSection(r.value, "Errors:", FieldOr(response, "errors", VList([])), ErrorLine);
        if r.Ok? {
          ghost var errors := Section("Errors:", FieldOr(response, "errors", VList([])), ErrorLine).value;
          assert r.value == ["Device: " + Str(device)] + (fixed + created + errors);
        }
      }
    }
  }

  /** The number of lines an optional section adds. */
  function SectionSize(v: Value): nat
  {
    if Truthy(v) && Iter(v).Some? then 2 + |Iter(v).value| else 0
  }

  /** Preview shows the device line, two fixed lines and one line per planned operation.
      Otherwise there are five fixed lines, and the created and error sections appear only when
      their lists are non-empty, each with two lines plus one per item. */
  lemma CreationResultsShape(data: Dict)
    ensures var response := GetOr(data, "response", VDict([]));
      var r := CreationResults(data);
      r.Ok? ==>
        response.VDict? &&
        (Truthy(FieldOr(response, "preview_mode", VNone)) ==>
           |r.value| == 3 + Len(FieldOr(response, "planned_operations", VList([]))).value &&
           r.value[1] == PreviewLine) &&
        (!Truthy(FieldOr(response, "preview_mode", VNone)) ==>
           |r.value| == 5 + SectionSize(FieldOr(response, "created_policies", VList([]))) +
                            SectionSize(FieldOr(response, "errors", VList([]))))
  {
    var response := GetOr(data, "response", VDict([]));
    if response.VDict? {
      var planned := FieldOr(response, "planned_operations", VList([]));
      if Iter(planned).Some? { ItemLinesShape(Iter(planned).value, OperationLine); }
      ResultLinesShape(response);
    }
  }

  /** A section is empty for a falsy list and otherwise two lines plus one per item. */
  lemma SectionShape(title: string, v: Value, line: Value -> Result<string>)
    requires Section(title, v, line).Ok?
    ensures |Section(title, v, line).value| == SectionSize(v)
  {
    if Truthy(v) { ItemLinesShape(Iter(v).value, line); }
  }

  lemma ResultLinesShape(response: Value)
    requires response.VDict?
    ensures ResultLines(response).Ok? ==>
      |ResultLines(response).value| == 4 + SectionSize(FieldOr(response, "created_policies", VList([]))) +
                                           SectionSize(FieldOr(response, "errors", VList([])))
  {
    var created := Section("Successfully Created Policies:", FieldOr(response, "created_policies", VList([])), CreatedLine);
    var errors := Section("Errors:", FieldOr(response, "errors", VList([])), ErrorLine);
    if created.Ok? { SectionShape("Successfully Created Policies:", FieldOr(response, "created_policies", VList([])), CreatedLine); }
    if errors.Ok? { SectionShape("Errors:", FieldOr(response, "errors", VList([])), ErrorLine); }
  }

  /** Every error is listed, one line each, whenever the error list is a non-empty list. */
  lemma ErrorsListed(response: Value)
    requires response.VDict? && ResultLines(response).Ok?
    requires FieldOr(response, "errors", VList([])).VList? && FieldOr(response, "errors", VList([])).items != []
    ensures var errors := FieldOr(response, "errors", VList([])).items;
      var ls := ResultLines(response).value;
      |ls| >= |errors| + 1 && ls[|ls| - |errors| - 1] == "Errors:" &&
      forall i :: 0 <= i < |errors| ==> ls[|ls| - |errors| + i] == "- " + Str(errors[i])
  {
    var errors := FieldOr(response, "errors", VList([])).items;
    ItemLinesShape(errors, ErrorLine);
  }

  // ---------------------------------------------------------------------------------------------
  // The module
  // ---------------------------------------------------------------------------------------------

  /** `exit_json(changed=False)` with the lines shown as warnings, `fail_json`, or an uncaught
      exception raised while formatting. */
  datatype RunResult = Exited(changed: bool, warnings: seq<string>) | Failed(msg: string) | Crashed(msg: string)

  predicate KnownFormat(formatType: string)
  {
    formatType == "orchestration_plan" || formatType == "policy_summary" || formatType == "creation_results"
  }

  function Format(formatType: string, data: Dict): Result<seq<string>>
    requires KnownFormat(formatType)
  {
    if formatType == "orchestration_plan" then OrchestrationPlan(data)
    else if formatType == "policy_summary" then PolicySummary(data)
    else CreationResults(data)
  }

  /** The run shows the formatter's lines as warnings with `output_method` "warn" (as debug
      messages otherwise); it fails exactly on an unknown format type and never reports a
      change. */
  function Run(formatType: string, data: Dict, outputMethod: string): (r: RunResult)
    ensures r.Failed? <==> !KnownFormat(formatType)
    ensures r.Exited? ==> !r.changed
    ensures r.Exited? && outputMethod == "warn" ==> Format(formatType, data) == Ok(r.warnings)
    ensures r.Exited? && outputMethod != "warn" ==> r.warnings == []
  {
    if !KnownFormat(formatType) then Failed("Unknown format_type: " + formatType)
    else match Format(formatType, data)
      case Err(m) => Crashed(m)
      case Ok(lines) => Exited(false, if outputMethod == "warn" then lines else [])
  }

  /** `formatters[format_type](data)`. */
  method FormatLines(formatType: string, data: Dict) returns (lines: Result<seq<string>>)
    requires KnownFormat(formatType)
    ensures lines == Format(formatType, data)
  {
    if formatType == "orchestration_plan" {
      lines := OrchestrationPlan(data);
    } else if formatType == "policy_summary" {
      lines := FormatPolicySummary(data);
    } else {
      lines := FormatCreationResults(data);
    }
  }

  method RunModule(formatType: string, data: Dict, outputMethod: string) returns (res: RunResult)
    ensures res == Run(formatType, data, outputMethod)
  {
    if !KnownFormat(formatType) {
      return Failed("Unknown format_type: " + formatType);
    }
    var lines := FormatLines(formatType, data);
    if lines.Err? {
      return Crashed(lines.msg);
    }
    var warnings := Show(lines.value, outputMethod);
    return Exited(false, warnings);
  }

  /** `module.warn(line)` for every line with `output_method` "warn"; `module.debug(line)`
      otherwise, which leaves no trace in the result. */
  method Show(lines: seq<string>, outputMethod: string) returns (warnings: seq<string>)
    ensures warnings == if outputMethod == "warn" then lines else []
  {
    warnings := [];
    if outputMethod == "warn" {
      var i := 0;
      while i < |lines|
        invariant 0 <= i <= |lines|
        invariant warnings == lines[..i]
      {
        warnings := warnings + [lines[i]];
        i := i + 1;
      }
      assert lines[..i] == lines;
    }
  }
}

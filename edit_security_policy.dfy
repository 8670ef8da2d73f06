/** Editing security policies (plugins/modules/edit_security_policy.py): each listed policy gets
    one PUT to `rsIDSNewRulesTable/{policy_name}` whose body holds only the settings the playbook
    gives, the enumerated ones turned into device codes; profile bindings the playbook names are
    attached, or detached when given as None or "". */
module EditSecurityPolicy {
  import opened Py
  import opened Http
  import opened Tables

  const RulesTable := "rsIDSNewRulesTable"

  /** A column of the security-policy table. */
  function Column(suffix: string): string
  {
    "rsIDSNewRules" + suffix
  }

  lemma ColumnInjective(a: string, b: string)
    ensures Column(a) == Column(b) ==> a == b
  {
    if Column(a) == Column(b) {
      assert a == Column(a)[13..];
    }
  }

  // ---------------------------------------------------------------------------------------------
  // The mapper
  // ---------------------------------------------------------------------------------------------

  const DirectionCodes: Table := [
    ("oneway", "1"), ("one_way", "1"), ("one-way", "1"),
    ("twoway", "2"), ("two_way", "2"), ("two-way", "2"), ("bidirectional", "2"), ("both", "2")
  ]
  const StateCodes: Table := [
    ("enable", "1"), ("enabled", "1"), ("active", "1"), ("on", "1"),
    ("disable", "2"), ("disabled", "2"), ("inactive", "2"), ("off", "2")
  ]
  const ActionCodes: Table := [("report_only", "0"), ("report", "0"), ("block_and_report", "1"), ("block", "1")]
  const PacketReportingCodes: Table := [
    ("enable", "1"), ("enabled", "1"), ("on", "1"),
    ("disable", "2"), ("disabled", "2"), ("off", "2")
  ]

  /** The four code tables of the mapper. */
  datatype Codes = Codes(direction: Table, state: Table, action: Table, reporting: Table)

  const PolicyCodes := Codes(DirectionCodes, StateCodes, ActionCodes, PacketReportingCodes)

  /** `key in policy and policy[key] is not None`: the value the playbook gives `key`. */
  function Given(policy: Dict, key: string): Option<Value>
  {
    match Get(policy, key)
    case Some(v) => if v.VNone? then None else Some(v)
    case None => None
  }

  /** `codes.get(str(policy[key]).lower(), default)` when the key is given. */
  function Coded(policy: Dict, key: string, codes: Table, default: string): Option<string>
  {
    match Given(policy, key)
    case Some(v) => Some(GetOr(codes, Lower(Str(v)), default))
    case None => None
  }

  function Entry(key: string, code: Option<string>): Table
  {
    if code.Some? then [(key, code.value)] else []
  }

  /** `map_security_policy_parameters`: the codes of the enumerated settings that are given. */
  function MapPolicy(c: Codes, policy: Dict): Table
  {
    Entry("direction", Coded(policy, "direction", c.direction, "1")) +
    Entry("state", Coded(policy, "state", c.state, "1")) +
    Entry("action", Coded(policy, "action", c.action, "1")) +
    Entry("packet_reporting_status", Coded(policy, "packet_reporting_status", c.reporting, "2"))
  }

  method MapSecurityPolicyParameters(c: Codes, policy: Dict) returns (result: Table)
    ensures result == MapPolicy(c, policy)
  {
    result := [];
    var direction := Coded(policy, "direction", c.direction, "1");
    if direction.Some? {
      result := result + [("direction", direction.value)];
    }
    var state := Coded(policy, "state", c.state, "1");
    if state.Some? {
      result := result + [("state", state.value)];
    }
    var action := Coded(policy, "action", c.action, "1");
    if action.Some? {
      result := result + [("action", action.value)];
    }
    var reporting := Coded(policy, "packet_reporting_status", c.reporting, "2");
    if reporting.Some? {
      result := result + [("packet_reporting_status", reporting.value)];
    }
  }

  const SettingKeys: seq<string> := ["direction", "state", "action", "packet_reporting_status"]

  /** The mapper emits a key exactly for the enumerated settings the playbook gives a non-None
      value. */
  lemma MapPolicyKeys(c: Codes, policy: Dict)
    ensures forall k :: k in Keys(MapPolicy(c, policy)) <==> k in SettingKeys && Given(policy, k).Some?
  {
    var d := Entry("direction", Coded(policy, "direction", c.direction, "1"));
    var s := Entry("state", Coded(policy, "state", c.state, "1"));
    var a := Entry("action", Coded(policy, "action", c.action, "1"));
    var p := Entry("packet_reporting_status", Coded(policy, "packet_reporting_status", c.reporting, "2"));
    KeysAppend(d, s);
    KeysAppend(d + s, a);
    KeysAppend(d + s + a, p);
    assert Keys(MapPolicy(c, policy)) == Keys(d) + Keys(s) + Keys(a) + Keys(p);
  }

  /** Each given enumerated setting is sent as the code its lowercased word selects. */
  lemma MapPolicyCodes(c: Codes, policy: Dict)
    ensures Get(MapPolicy(c, policy), "direction") == Coded(policy, "direction", c.direction, "1")
    ensures Get(MapPolicy(c, policy), "state") == Coded(policy, "state", c.state, "1")
    ensures Get(MapPolicy(c, policy), "action") == Coded(policy, "action", c.action, "1")
    ensures Get(MapPolicy(c, policy), "packet_reporting_status") == Coded(policy, "packet_reporting_status", c.reporting, "2")
  {
    var d := Entry("direction", Coded(policy, "direction", c.direction, "1"));
    var s := Entry("state", Coded(policy, "state", c.state, "1"));
    var a := Entry("action", Coded(policy, "action", c.action, "1"));
    var p := Entry("packet_reporting_status", Coded(policy, "packet_reporting_status", c.reporting, "2"));
    forall k ensures Get(d, k) == if k == "direction" then Coded(policy, "direction", c.direction, "1") else None
                 ensures Get(s, k) == if k == "state" then Coded(policy, "state", c.state, "1") else None
                 ensures Get(a, k) == if k == "action" then Coded(policy, "action", c.action, "1") else None
                 ensures Get(p, k) == if k == "packet_reporting_status" then Coded(policy, "packet_reporting_status", c.reporting, "2") else None
    {
    }
    assert "direction" != "state" && "direction" != "action" && "direction" != "packet_reporting_status";
    assert "state" != "action" && "state" != "packet_reporting_status" && "action" != "packet_reporting_status";
    GetAppend(d, s, "direction");
    GetAppend(d + s, a, "direction");
    GetAppend(d + s + a, p, "direction");
    GetAppend(d, s, "state");
    GetAppend(d + s, a, "state");
    GetAppend(d + s + a, p, "state");
    GetAppend(d, s, "action");
    GetAppend(d + s, a, "action");
    GetAppend(d + s + a, p, "action");
    GetAppend(d, s, "packet_reporting_status");
    GetAppend(d + s, a, "packet_reporting_status");
    GetAppend(d + s + a, p, "packet_reporting_status");
  }

  /** Direction words: the two-way words give "2"; every other word, known or not, gives "1". */
  lemma DirectionWords(w: string)
    ensures GetOr(DirectionCodes, w, "1") == if w in ["twoway", "two_way", "two-way", "bidirectional", "both"] then "2" else "1"
  {
  }

  /** State words: the disabling words give "2"; every other word gives "1". */
  lemma StateWords(w: string)
    ensures GetOr(StateCodes, w, "1") == if w in ["disable", "disabled", "inactive", "off"] then "2" else "1"
  {
  }

  /** Action words: the reporting words give "0"; every other word gives "1". */
  lemma ActionWords(w: string)
    ensures GetOr(ActionCodes, w, "1") == if w in ["report_only", "report"] then "0" else "1"
  {
  }

  /** Packet-reporting words: the enabling words give "1"; every other word gives "2". */
  lemma PacketReportingWords(w: string)
    ensures GetOr(PacketReportingCodes, w, "2") == if w in ["enable", "enabled", "on"] then "1" else "2"
  {
  }

  // ---------------------------------------------------------------------------------------------
  // The request body
  // ---------------------------------------------------------------------------------------------

  /** The profile bindings: column suffix and playbook key. */
  const ProfileKeys: Table := [
    ("ProfileAppsec", "signature_protection_profile"),
    ("ProfileConlmt", "connection_limit_profile"),
    ("ProfileNetflood", "bdos_profile"),
    ("ProfileSyn", "syn_protection_profile"),
    ("ProfileDns", "dns_flood_profile"),
    ("ProfileHttps", "https_flood_profile"),
    ("ProfileTraffic", "traffic_filters_profile"),
    ("ProfileErt", "ert_attackers_feed_profile"),
    ("ProfileGeo", "geo_feed_profile"),
    ("ProfileOut", "out_of_state_profile")
  ]

  /** A setting sent as given. */
  function Plain(policy: Dict, key: string, column: string): Slot
  {
    Slot(column, match Given(policy, key) case Some(v) => Some((v, key + ": " + Str(v))) case None => None)
  }

  /** An enumerated setting, sent as the mapper's code and described by the playbook's word. */
  function Mapped(policy: Dict, api: Table, key: string, column: string): Slot
  {
    Slot(column, match Get(api, key)
                 case Some(c) => Some((VStr(c), key + ": " + Str(GetOr(policy, key, VNone))))
                 case None => None)
  }

  /** The priority, sent as its string. */
  function Priority(policy: Dict): Slot
  {
    Slot(Column("Priority"), match Given(policy, "priority")
                             case Some(v) => Some((VStr(Str(v)), "priority: " + Str(v)))
                             case None => None)
  }

  /** The value a named profile binding stands for: None means detach (""). */
  function Binding(v: Value): Value
  {
    if v.VNone? then VStr("") else v
  }

  /** A profile binding, present iff the playbook names its key; the value is sent stripped. */
  function Bind(policy: Dict, column: string, key: string): Slot
  {
    Slot(column, match Get(policy, key)
                 case Some(v) =>
                   var b := Binding(v);
                   Some((VStr(Strip(Str(b))), key + ": " + (if Truthy(b) then "attached" else "detached") + " (" + Str(b) + ")"))
                 case None => None)
  }

  /** The insertions into `request_body`, in the order the module makes them. */
  function Slots(c: Codes, policy: Dict): seq<Slot>
  {
    SettingInserts(c, policy) + BindingInserts(policy)
  }

  /** The insertions of the networks, the enumerated settings and the priority. */
  function SettingInserts(c: Codes, policy: Dict): seq<Slot>
  {
    var api := MapPolicy(c, policy);
    [ Plain(policy, "src_network", Column("Source")),
      Plain(policy, "dst_network", Column("Destination")),
      Mapped(policy, api, "direction", Column("Direction")),
      Mapped(policy, api, "state", Column("State")),
      Mapped(policy, api, "action", Column("Action")),
      Mapped(policy, api, "packet_reporting_status", Column("PacketReportingStatus")),
      Priority(policy) ]
  }

  /** The insertions of the profile bindings, in table order. */
  function BindingInserts(policy: Dict): seq<Slot>
  {
    seq(|ProfileKeys|, i requires 0 <= i < |ProfileKeys| => Bind(policy, Column(ProfileKeys[i].0), ProfileKeys[i].1))
  }

  /** The body and `changes_applied` of one policy edit. */
  function EditOf(c: Codes, policy: Dict): Built
  {
    Fill(Slots(c, policy))
  }

  method BuildRequest(c: Codes, policy: Dict) returns (body: Dict, changes: seq<string>)
    ensures Built(body, changes) == EditOf(c, policy)
  {
    body, changes := FillLoop(Slots(c, policy));
  }

  /** The suffixes of every column the body can hold, in insertion order. */
  const BodySuffixes: seq<string> := [
    "Source", "Destination", "Direction", "State", "Action", "PacketReportingStatus", "Priority",
    "ProfileAppsec", "ProfileConlmt", "ProfileNetflood", "ProfileSyn", "ProfileDns", "ProfileHttps",
    "ProfileTraffic", "ProfileErt", "ProfileGeo", "ProfileOut"
  ]

  lemma SuffixesDistinct()
    ensures forall i, j :: 0 <= i < j < |BodySuffixes| ==> BodySuffixes[i] != BodySuffixes[j]
  {
  }

  lemma SlotColumns(c: Codes, policy: Dict)
    ensures |Slots(c, policy)| == |BodySuffixes|
    ensures forall i :: 0 <= i < |BodySuffixes| ==> Slots(c, policy)[i].column == Column(BodySuffixes[i])
  {
    var s := Slots(c, policy);
    var a := SettingInserts(c, policy);
    var b := BindingInserts(policy);
    SettingColumns(c, policy);
    BindingColumns(policy);
    forall i | 0 <= i < |BodySuffixes| ensures s[i].column == Column(BodySuffixes[i]) {
      if i < 7 {
        assert s[i] == a[i];
      } else {
        assert s[i] == b[i - 7];
      }
    }
  }

  lemma SettingColumns(c: Codes, policy: Dict)
    ensures |SettingInserts(c, policy)| == 7
    ensures forall i :: 0 <= i < 7 ==> SettingInserts(c, policy)[i].column == Column(BodySuffixes[i])
  {
  }

  lemma BindingColumns(policy: Dict)
    ensures |BindingInserts(policy)| == |ProfileKeys| == 10
    ensures forall i :: 0 <= i < 10 ==> BindingInserts(policy)[i].column == Column(BodySuffixes[7 + i])
  {
    forall i | 0 <= i < 10 ensures ProfileKeys[i].0 == BodySuffixes[7 + i] {
    }
  }

  lemma SlotsDistinct(c: Codes, policy: Dict)
    ensures ColumnsDistinct(Slots(c, policy))
  {
    var slots := Slots(c, policy);
    SlotColumns(c, policy);
    SuffixesDistinct();
    forall i, j | 0 <= i < j < |slots| ensures slots[i].column != slots[j].column {
      ColumnInjective(BodySuffixes[i], BodySuffixes[j]);
    }
  }

  function Sent(code: Option<string>): Option<Value>
  {
    match code case Some(c) => Some(VStr(c)) case None => None
  }

  /** The body holds the networks as given, the enumerated settings as the mapper's codes and
      the priority as its string, each exactly when the playbook gives it a non-None value. */
  lemma BodySettings(c: Codes, policy: Dict)
    ensures var body := EditOf(c, policy).body;
      Get(body, Column("Source")) == Given(policy, "src_network") &&
      Get(body, Column("Destination")) == Given(policy, "dst_network") &&
      Get(body, Column("Direction")) == Sent(Coded(policy, "direction", c.direction, "1")) &&
      Get(body, Column("State")) == Sent(Coded(policy, "state", c.state, "1")) &&
      Get(body, Column("Action")) == Sent(Coded(policy, "action", c.action, "1")) &&
      Get(body, Column("PacketReportingStatus")) == Sent(Coded(policy, "packet_reporting_status", c.reporting, "2")) &&
      Get(body, Column("Priority")) == match Given(policy, "priority") case Some(v) => Some(VStr(Str(v))) case None => None
  {
    var slots := Slots(c, policy);
    SlotColumns(c, policy);
    SlotsDistinct(c, policy);
    MapPolicyCodes(c, policy);
    FillGet(slots, 0);
    FillGet(slots, 1);
    FillGet(slots, 2);
    FillGet(slots, 3);
    FillGet(slots, 4);
    FillGet(slots, 5);
    FillGet(slots, 6);
  }

  /** A profile column is in the body exactly when the playbook names its key, and then holds
      the stripped value, or "" when the value is None. */
  lemma BodyBinding(c: Codes, policy: Dict, i: nat)
    requires i < |ProfileKeys|
    ensures Get(EditOf(c, policy).body, Column(ProfileKeys[i].0)).Some? <==> ProfileKeys[i].1 in Keys(policy)
    ensures forall v :: Get(policy, ProfileKeys[i].1) == Some(v) ==>
      Get(EditOf(c, policy).body, Column(ProfileKeys[i].0)) == Some(VStr(Strip(Str(Binding(v)))))
  {
    SlotColumns(c, policy);
    SlotsDistinct(c, policy);
    FillGet(Slots(c, policy), 7 + i);
    GetSome(policy, ProfileKeys[i].1);
  }

  const SettingsGiven: seq<string> := ["src_network", "dst_network", "direction", "state", "action", "packet_reporting_status", "priority"]

  /** The body holds nothing but these columns, each once, with one change description per
      column. */
  lemma BodyKeys(c: Codes, policy: Dict)
    ensures UniqueKeys(EditOf(c, policy).body)
    ensures forall k :: k in Keys(EditOf(c, policy).body) ==> exists i :: 0 <= i < |BodySuffixes| && k == Column(BodySuffixes[i])
    ensures |EditOf(c, policy).changes| == |EditOf(c, policy).body|
  {
    SlotColumns(c, policy);
    SlotsDistinct(c, policy);
    FillShape(Slots(c, policy));
  }

  /** The body is empty exactly when the playbook gives none of the settings a non-None value
      and names none of the profiles. */
  lemma BodyEmpty(c: Codes, policy: Dict)
    ensures EditOf(c, policy).body == [] <==>
      (forall i :: 0 <= i < |SettingsGiven| ==> Given(policy, SettingsGiven[i]).None?) &&
      (forall i :: 0 <= i < |ProfileKeys| ==> ProfileKeys[i].1 !in Keys(policy))
  {
    var slots := Slots(c, policy);
    FillShape(slots);
    SettingSlots(c, policy);
    ProfileSlots(c, policy);
    if forall i :: 0 <= i < |slots| ==> slots[i].entry.None? {
      forall i | 0 <= i < |SettingsGiven| ensures Given(policy, SettingsGiven[i]).None? {
        assert slots[i].entry.None?;
      }
      forall i | 0 <= i < |ProfileKeys| ensures ProfileKeys[i].1 !in Keys(policy) {
        assert slots[7 + i].entry.None?;
      }
    } else {
      var i :| 0 <= i < |slots| && slots[i].entry.Some?;
      if i < 7 {
        assert Given(policy, SettingsGiven[i]).Some?;
      } else {
        assert ProfileKeys[i - 7].1 in Keys(policy);
      }
    }
  }

  /** The profile insertions happen exactly for the profile keys the playbook names. */
  lemma ProfileSlots(c: Codes, policy: Dict)
    ensures |Slots(c, policy)| == 7 + |ProfileKeys|
    ensures forall i :: 0 <= i < |ProfileKeys| ==> (Slots(c, policy)[7 + i].entry.None? <==> ProfileKeys[i].1 !in Keys(policy))
  {
    forall i | 0 <= i < |ProfileKeys|
      ensures Slots(c, policy)[7 + i].entry.None? <==> ProfileKeys[i].1 !in Keys(policy)
    {
      GetSome(policy, ProfileKeys[i].1);
    }
  }

  /** The first seven insertions happen exactly for the settings given. */
  lemma SettingSlots(c: Codes, policy: Dict)
    ensures forall i :: 0 <= i < |SettingsGiven| ==> (Slots(c, policy)[i].entry.None? <==> Given(policy, SettingsGiven[i]).None?)
  {
    MapPolicyCodes(c, policy);
    var api := MapPolicy(c, policy);
    GetSome(api, "direction");
    GetSome(api, "state");
    GetSome(api, "action");
    GetSome(api, "packet_reporting_status");
  }

  // ---------------------------------------------------------------------------------------------
  // The batch loop
  // ---------------------------------------------------------------------------------------------

  const NameRequired := "Policy name is required for each edit operation"

  /** An entry of `edited_policies`. */
  datatype Edited = Edited(name: Value, changes: seq<string>)

  datatype Batch = Batch(changed: bool, edited: seq<Edited>, errors: seq<string>, sent: seq<Request>)

  const NoBatch := Batch(false, [], [], [])

  function EditRequest(dp: string, name: Value, body: Dict): Request
  {
    Request(PUT, ConfigPath(dp, RulesTable + "/" + Str(name)), Some(VDict(body)))
  }

  function Failure(name: Value, e: string): string
  {
    "Error editing security policy " + Str(name) + ": " + e
  }

  /** One policy of the loop.  Every exception inside the per-policy `try` (the request, a reply
      that is not JSON, JSON without `get`) becomes that policy's error. */
  function EditStep(c: Codes, b: Batch, policy: Dict, dp: string, net: Net): Batch
  {
    StepWith(b, policy, EditOf(c, policy), dp, net)
  }

  /** One policy of the loop, given the body and changes built for it. */
  function StepWith(b: Batch, policy: Dict, built: Built, dp: string, net: Net): Batch
  {
    var name := GetOr(policy, "policy_name", VNone);
    if !Truthy(name) then b.(errors := b.errors + [NameRequired])
    else
      if built.body == [] then b
      else
        var b1 := b.(sent := b.sent + [EditRequest(dp, name, built.body)]);
        match net(|b.sent|)
        case Raised(e) => b1.(errors := b1.errors + [Failure(name, e)])
        case Returned(r) =>
          match r.json
          case None => b1.(errors := b1.errors + [Failure(name, JsonDecodeError)])
          case Some(data) =>
            if !data.VDict? then b1.(errors := b1.errors + [Failure(name, NoGet)])
            else if Get(data.entries, "status") == Some(VStr("ok")) then
              b1.(changed := true, edited := b1.edited + [Edited(name, built.changes)])
            else b1.(errors := b1.errors + ["Failed to edit security policy " + Str(name) + ": " + Str(data)])
  }

  function RunBatch(c: Codes, policies: seq<Dict>, dp: string, net: Net): Batch
  {
    if policies == [] then NoBatch
    else EditStep(c, RunBatch(c, policies[..|policies| - 1], dp, net), policies[|policies| - 1], dp, net)
  }

  method RunBatchLoop(c: Codes, policies: seq<Dict>, dp: string, net: Net) returns (b: Batch)
    ensures b == RunBatch(c, policies, dp, net)
  {
    b := NoBatch;
    var i := 0;
    while i < |policies|
      invariant 0 <= i <= |policies|
      invariant RunBatch(c, policies[..i], dp, net) == b
    {
      assert policies[..i + 1][..i] == policies[..i];
      b := EditStep(c, b, policies[i], dp, net);
      i := i + 1;
    }
    assert policies[..i] == policies;
  }

  /** A reply confirms an edit exactly when its JSON is a dict whose status is "ok". */
  predicate Confirmed(o: Outcome)
  {
    o.Returned? && o.reply.json.Some? && o.reply.json.value.VDict? &&
    Get(o.reply.json.value.entries, "status") == Some(VStr("ok"))
  }

  /** One policy: without a name it adds one error and sends nothing; with an empty body it is
      skipped without error or request; otherwise it sends exactly its PUT and is recorded as
      edited iff the reply confirms it, as one error otherwise. */
  lemma EditStepOutcome(c: Codes, b: Batch, policy: Dict, dp: string, net: Net)
    ensures var s := EditStep(c, b, policy, dp, net);
      var name := GetOr(policy, "policy_name", VNone);
      if !Truthy(name) then s == b.(errors := b.errors + [NameRequired])
      else if EditOf(c, policy).body == [] then s == b
      else
        s.sent == b.sent + [EditRequest(dp, name, EditOf(c, policy).body)] &&
        (if Confirmed(net(|b.sent|)) then
           s.edited == b.edited + [Edited(name, EditOf(c, policy).changes)] && s.errors == b.errors && s.changed
         else s.edited == b.edited && |s.errors| == |b.errors| + 1 && s.changed == b.changed)
  {
    StepWithOutcome(b, policy, EditOf(c, policy), dp, net);
  }

  lemma StepWithOutcome(b: Batch, policy: Dict, built: Built, dp: string, net: Net)
    ensures var s := StepWith(b, policy, built, dp, net);
      var name := GetOr(policy, "policy_name", VNone);
      if !Truthy(name) then s == b.(errors := b.errors + [NameRequired])
      else if built.body == [] then s == b
      else
        s.sent == b.sent + [EditRequest(dp, name, built.body)] &&
        (if Confirmed(net(|b.sent|)) then
           s.edited == b.edited + [Edited(name, built.changes)] && s.errors == b.errors && s.changed
         else s.edited == b.edited && |s.errors| == |b.errors| + 1 && s.changed == b.changed)
  {
  }

  /** `sum(1 for p in policies if not p.get('policy_name'))`. */
  function Nameless(policies: seq<Dict>): nat
  {
    if policies == [] then 0
    else Nameless(policies[..|policies| - 1]) + if Truthy(GetOr(policies[|policies| - 1], "policy_name", VNone)) then 0 else 1
  }

  /** Every request sent ends as one edit or one error, and the other errors are the nameless
      policies; `changed` is set exactly when some policy was edited. */
  lemma {:induction false} BatchAccounts(c: Codes, policies: seq<Dict>, dp: string, net: Net)
    ensures var b := RunBatch(c, policies, dp, net);
      |b.edited| + |b.errors| == |b.sent| + Nameless(policies) && |b.sent| + Nameless(policies) <= |policies| &&
      (b.changed <==> b.edited != [])
    decreases |policies|
  {
    if policies != [] {
      var init := policies[..|policies| - 1];
      BatchAccounts(c, init, dp, net);
      EditStepOutcome(c, RunBatch(c, init, dp, net), policies[|policies| - 1], dp, net);
    }
  }

  // ---------------------------------------------------------------------------------------------
  // The preview and the module run
  // ---------------------------------------------------------------------------------------------

  /** The preview's description of an edit: `key: value` for every key but the name whose value
      is not None. */
  function Changes(policy: Dict): seq<string>
  {
    if policy == [] then []
    else
      var (k, v) := policy[|policy| - 1];
      Changes(policy[..|policy| - 1]) + if k != "policy_name" && !v.VNone? then [k + ": " + Str(v)] else []
  }

  /** The preview lists each key other than the name with a non-None value, and nothing else. */
  lemma {:induction false} ChangesListed(policy: Dict)
    ensures |Changes(policy)| <= |policy|
    ensures forall i :: 0 <= i < |policy| && policy[i].0 != "policy_name" && !policy[i].1.VNone? ==>
      policy[i].0 + ": " + Str(policy[i].1) in Changes(policy)
    ensures forall t :: t in Changes(policy) ==>
      exists i :: 0 <= i < |policy| && policy[i].0 != "policy_name" && !policy[i].1.VNone? && t == policy[i].0 + ": " + Str(policy[i].1)
    decreases |policy|
  {
    if policy != [] {
      var init := policy[..|policy| - 1];
      ChangesListed(init);
      assert forall i :: 0 <= i < |init| ==> init[i] == policy[i];
    }
  }

  datatype Planned = Planned(name: Value, changes: seq<string>)

  datatype PreviewPlan = PreviewPlan(planned: seq<Planned>, errors: seq<string>)

  function Plan(policies: seq<Dict>): PreviewPlan
  {
    if policies == [] then PreviewPlan([], [])
    else
      var p := Plan(policies[..|policies| - 1]);
      var policy := policies[|policies| - 1];
      var name := GetOr(policy, "policy_name", VNone);
      if !Truthy(name) then p.(errors := p.errors + [NameRequired])
      else p.(planned := p.planned + [Planned(name, Changes(policy))])
  }

  /** Preview and execution agree on which policies are rejected for lacking a name. */
  lemma {:induction false} PlanAccounts(policies: seq<Dict>)
    ensures |Plan(policies).errors| == Nameless(policies)
    ensures |Plan(policies).planned| + Nameless(policies) == |policies|
    decreases |policies|
  {
    if policies != [] {
      PlanAccounts(policies[..|policies| - 1]);
    }
  }

  datatype Summary = Summary(attempted: nat, successful: nat, failedEdits: nat)

  datatype RunResult =
    | Previewed(failed: bool, msg: string, plan: PreviewPlan)
    | Applied(failed: bool, msg: string, changed: bool, batch: Batch, summary: Summary)

  /** `fail_json` when there are errors and no edit, a warning message when some edits were
      made despite errors. */
  function Verdict(errors: nat, edited: nat): (bool, string)
  {
    if errors != 0 && edited == 0 then
      (true, "Security policy editing failed with " + IntToString(errors) + " error(s). See response.errors for details.")
    else if errors != 0 then
      (false, "Security policy editing completed with " + IntToString(errors) + " error(s). See response.errors for details.")
    else (false, "")
  }

  function Run(c: Codes, policies: seq<Dict>, checkMode: bool, dp: string, net: Net): RunResult
  {
    if checkMode then
      var p := Plan(policies);
      var v := Verdict(|p.errors|, 0);
      Previewed(v.0, v.1, p)
    else
      var b := RunBatch(c, policies, dp, net);
      var v := Verdict(|b.errors|, |b.edited|);
      Applied(v.0, v.1, b.changed, b, Summary(|policies|, |b.edited|, |b.errors|))
  }

  method RunModule(policies: seq<Dict>, checkMode: bool, dp: string, net: Net) returns (r: RunResult)
    ensures r == Run(PolicyCodes, policies, checkMode, dp, net)
  {
    if checkMode {
      var p := Plan(policies);
      var v := Verdict(|p.errors|, 0);
      return Previewed(v.0, v.1, p);
    }
    var b := RunBatchLoop(PolicyCodes, policies, dp, net);
    var v := Verdict(|b.errors|, |b.edited|);
    r := Applied(v.0, v.1, b.changed, b, Summary(|policies|, |b.edited|, |b.errors|));
  }

  /** Preview sends nothing, plans every named policy and fails iff some policy lacks a name;
      an applied run fails iff it recorded errors and no edit, and reports a change iff some
      policy was edited. */
  lemma RunOutcome(c: Codes, policies: seq<Dict>, checkMode: bool, dp: string, net: Net)
    ensures var r := Run(c, policies, checkMode, dp, net);
      (checkMode ==> r.Previewed? && (r.failed <==> Nameless(policies) != 0) &&
                     |r.plan.planned| + Nameless(policies) == |policies|) &&
      (!checkMode ==> r.Applied? && (r.failed <==> r.batch.errors != [] && r.batch.edited == []) &&
                      (r.changed <==> r.batch.edited != []) &&
                      r.summary.successful + r.summary.failedEdits == |r.batch.sent| + Nameless(policies) <= r.summary.attempted)
  {
    PlanAccounts(policies);
    BatchAccounts(c, policies, dp, net);
  }
}

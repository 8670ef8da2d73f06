/** Deletion of connection-limit protections and of their profile memberships
    (plugins/modules/delete_cl_configuration.py).  Protection names are resolved to table indexes
    with at most one fetch of the protection table; one operation list is planned and then either
    shown (check mode) or executed with one DELETE per operation that is not marked as an error. */
module DeleteClConfiguration {
  import opened Py
  import opened Http

  const AttackTable := "rsIDSConnectionLimitAttackTable"
  const ProfileTable := "rsIDSConnectionLimitProfileTable"
  const WarningSign := "\U{26A0}\U{FE0F}"
  /** The exception of a table row that is not a dict or whose name cannot be a dict key. */
  const RowUnreadable := "table row is not a dict or its name is unhashable"

  // ---------------------------------------------------------------------------------------------
  // Step 1: is the protection table needed?
  // ---------------------------------------------------------------------------------------------

  /** How `isinstance` sorts an entry of `protections_to_delete`; a `bool` is an `int`. */
  datatype Ident = ByName(name: string) | ByIndex(n: int) | Invalid

  function Classify(item: Value): Ident
  {
    match item
    case VStr(s) => ByName(s)
    case VInt(i) => ByIndex(i)
    case VBool(b) => ByIndex(if b then 1 else 0)
    case _ => Invalid
  }

  /** An entry that needs the table: a name, or an index while previewing. */
  predicate NeedsTable(item: Value, checkMode: bool)
  {
    Classify(item).ByName? || (Classify(item).ByIndex? && checkMode)
  }

  function ToDelete(d: Dict): Value
  {
    GetOr(d, "protections_to_delete", VList([]))
  }

  /** Whether the protection table must be fetched; `None` when some `protections_to_delete`
      examined before the answer is known cannot be iterated. */
  function NeedsFetch(dels: seq<Dict>, checkMode: bool): Option<bool>
  {
    if dels == [] then Some(false)
    else match Iter(ToDelete(dels[0]))
      case None => None
      case Some(items) =>
        if exists k :: 0 <= k < |items| && NeedsTable(items[k], checkMode) then Some(true)
        else NeedsFetch(dels[1..], checkMode)
  }

  method ComputeNeedsFetch(dels: seq<Dict>, checkMode: bool) returns (r: Option<bool>)
    ensures r == NeedsFetch(dels, checkMode)
  {
    var i := 0;
    while i < |dels|
      invariant 0 <= i <= |dels|
      invariant NeedsFetch(dels, checkMode) == NeedsFetch(dels[i..], checkMode)
    {
      assert dels[i..][0] == dels[i] && dels[i..][1..] == dels[i + 1..];
      var it := Iter(ToDelete(dels[i]));
      if it.None? {
        return None;
      }
      var items := it.value;
      var j := 0;
      while j < |items|
        invariant 0 <= j <= |items|
        invariant forall k :: 0 <= k < j ==> !NeedsTable(items[k], checkMode)
      {
        if NeedsTable(items[j], checkMode) {
          return Some(true);
        }
        j := j + 1;
      }
      i := i + 1;
    }
    return Some(false);
  }

  // ---------------------------------------------------------------------------------------------
  // Step 2: the name -> index map and the set of valid indexes
  // ---------------------------------------------------------------------------------------------

  datatype Lookup = Lookup(nameToIndex: seq<(Value, Value)>, valid: set<int>)

  /** The (name, id) pair a table row contributes: both present and truthy. */
  function RowEntry(row: Value): Option<(Value, Value)>
  {
    var name := FieldOr(row, "rsIDSConnectionLimitAttackName", VStr(""));
    var id := FieldOr(row, "rsIDSConnectionLimitAttackId", VStr(""));
    if row.VDict? && Truthy(name) && Truthy(id) then Some((name, id)) else None
  }

  /** The index a row adds to `valid_indexes`: its id when `int(id)` succeeds. */
  function RowIndex(row: Value): Option<int>
  {
    match RowEntry(row)
    case Some(e) => if ToInt(e.1).IntOk? then Some(ToInt(e.1).n) else None
    case None => None
  }

  /** A row raises when it is not a dict (`.get`) or its name cannot be a dict key. */
  predicate RowRaises(row: Value)
  {
    !row.VDict? || (RowEntry(row).Some? && !Hashable(RowEntry(row).value.0))
  }

  function AddRow(l: Lookup, row: Value): Lookup
  {
    match RowEntry(row)
    case None => l
    case Some(e) =>
      Lookup(Put(l.nameToIndex, e.0, e.1), if RowIndex(row).Some? then l.valid + {RowIndex(row).value} else l.valid)
  }

  /** The lookup built from the rows before the first row that raises, and whether one raised. */
  function BuildLookup(rows: seq<Value>): (Lookup, bool)
    decreases |rows|
  {
    if rows == [] then (Lookup([], {}), false)
    else
      var prev := BuildLookup(rows[..|rows| - 1]);
      var row := rows[|rows| - 1];
      if prev.1 || RowRaises(row) then (prev.0, true) else (AddRow(prev.0, row), false)
  }

  method BuildLookupLoop(rows: seq<Value>) returns (l: Lookup, raised: bool)
    ensures (l, raised) == BuildLookup(rows)
  {
    l, raised := Lookup([], {}), false;
    var i := 0;
    while i < |rows| && !raised
      invariant 0 <= i <= |rows|
      invariant BuildLookup(rows[..i]) == (l, raised)
      invariant raised ==> BuildLookup(rows) == (l, raised)
    {
      assert rows[..i + 1][..i] == rows[..i];
      if RowRaises(rows[i]) {
        raised := true;
      } else {
        l := AddRow(l, rows[i]);
      }
      i := i + 1;
      if raised { BuildLookupStaysRaised(rows, i); }
    }
    assert rows[..|rows|] == rows;
  }

  lemma {:induction false} BuildLookupStaysRaised(rows: seq<Value>, i: nat)
    requires i <= |rows| && BuildLookup(rows[..i]).1
    ensures BuildLookup(rows) == BuildLookup(rows[..i])
    decreases |rows| - i
  {
    if i < |rows| {
      assert rows[..i + 1][..i] == rows[..i];
      BuildLookupStaysRaised(rows, i + 1);
    } else {
      assert rows[..i] == rows;
    }
  }

  /** Every name in the map comes from a row with a truthy name and a truthy id, and an index
      is valid exactly when some row before the first raising one gives it. */
  lemma {:induction false} BuildLookupSound(rows: seq<Value>)
    ensures var (l, raised) := BuildLookup(rows);
      (forall e :: e in l.nameToIndex ==> Truthy(e.0) && Truthy(e.1)) &&
      (!raised ==> forall n :: n in l.valid <==> exists k :: 0 <= k < |rows| && RowIndex(rows[k]) == Some(n)) &&
      (!raised ==> forall nm :: Get(l.nameToIndex, nm).Some? <==>
                      exists k :: 0 <= k < |rows| && RowEntry(rows[k]).Some? && RowEntry(rows[k]).value.0 == nm)
    decreases |rows|
  {
    if rows != [] {
      var init := rows[..|rows| - 1];
      var row := rows[|rows| - 1];
      BuildLookupSound(init);
      var (l0, r0) := BuildLookup(init);
      if !r0 && !RowRaises(row) {
        var l := AddRow(l0, row);
        forall e | e in l.nameToIndex ensures Truthy(e.0) && Truthy(e.1) {
          if RowEntry(row).Some? { PutMembers(l0.nameToIndex, RowEntry(row).value.0, RowEntry(row).value.1, e); }
        }
        forall n ensures n in l.valid <==> exists k :: 0 <= k < |rows| && RowIndex(rows[k]) == Some(n) {
          if n in l.valid && !(n in l0.valid) {
            assert RowIndex(rows[|rows| - 1]) == Some(n);
          }
          if exists k :: 0 <= k < |rows| && RowIndex(rows[k]) == Some(n) {
            var k :| 0 <= k < |rows| && RowIndex(rows[k]) == Some(n);
            if k < |rows| - 1 { assert init[k] == rows[k]; }
          }
          if n in l0.valid {
            var k :| 0 <= k < |init| && RowIndex(init[k]) == Some(n);
            assert rows[k] == init[k];
          }
        }
        forall nm ensures Get(l.nameToIndex, nm).Some? <==>
                          exists k :: 0 <= k < |rows| && RowEntry(rows[k]).Some? && RowEntry(rows[k]).value.0 == nm {
          if RowEntry(row).Some? { GetPut(l0.nameToIndex, RowEntry(row).value.0, RowEntry(row).value.1, nm); }
          if exists k :: 0 <= k < |rows| && RowEntry(rows[k]).Some? && RowEntry(rows[k]).value.0 == nm {
            var k :| 0 <= k < |rows| && RowEntry(rows[k]).Some? && RowEntry(rows[k]).value.0 == nm;
            if k < |rows| - 1 { assert init[k] == rows[k]; }
          }
          if Get(l0.nameToIndex, nm).Some? {
            var k :| 0 <= k < |init| && RowEntry(init[k]).Some? && RowEntry(init[k]).value.0 == nm;
            assert rows[k] == init[k];
          }
        }
      }
    }
  }

  /** The lookup and the fetch error (if any) that the single GET of the protection table yields. */
  function FetchLookup(o: Outcome): (Lookup, Option<string>)
  {
    match o
    case Raised(m) => (Lookup([], {}), Some(m))
    case Returned(r) =>
      match r.json
      case None => (Lookup([], {}), Some(JsonDecodeError))
      case Some(j) =>
        match Field(j, AttackTable)
        case None => (Lookup([], {}), None)
        case Some(table) =>
          match Iter(table)
          case None => (Lookup([], {}), Some(NotIterable))
          case Some(rows) =>
            var (l, raised) := BuildLookup(rows);
            (l, if raised then Some(RowUnreadable) else None)
  }

  // ---------------------------------------------------------------------------------------------
  // Step 3: planning
  // ---------------------------------------------------------------------------------------------

  datatype Operation =
    | RemoveFromProfile(profileName: Value, protectionName: Value, removePath: string, description: string)
    | DeleteProtection(protectionName: Value, index: Value, deletePath: Option<string>, description: string, error: bool)

  /** `operation.get('error')`. */
  predicate IsError(op: Operation)
  {
    op.DeleteProtection? && op.error
  }

  /** An operation carries a `url_path` exactly when it is not marked as an error. */
  predicate WellFormed(op: Operation)
  {
    op.DeleteProtection? ==> (op.deletePath.None? <==> op.error)
  }

  function RemoveOp(dp: string, profile: Value, protection: Value): Operation
  {
    RemoveFromProfile(profile, protection,
      ConfigPath(dp, ProfileTable + "/" + Str(profile) + "/" + Str(protection)),
      "Remove '" + Str(protection) + "' from profile '" + Str(profile) + "'")
  }

  function RemoveOps(dp: string, profile: Value, ps: seq<Value>): seq<Operation>
  {
    seq(|ps|, k requires 0 <= k < |ps| => RemoveOp(dp, profile, ps[k]))
  }

  function ProfileName(d: Dict): Value
  {
    GetOr(d, "profile_name", VStr(""))
  }

  function ProtectionsOf(d: Dict): Value
  {
    GetOr(d, "protections", VList([]))
  }

  /** The remove-from-profile operations of the profile deletions, one per listed protection;
      `None` when some `protections` value cannot be iterated. */
  function ProfileOps(dels: seq<Dict>, dp: string): Option<seq<Operation>>
    decreases |dels|
  {
    if dels == [] then Some([])
    else match ProfileOps(dels[..|dels| - 1], dp)
      case None => None
      case Some(ops) =>
        var d := dels[|dels| - 1];
        match Iter(ProtectionsOf(d))
        case None => None
        case Some(ps) => Some(ops + RemoveOps(dp, ProfileName(d), ps))
  }

  function AttackPath(dp: string, index: Value): string
  {
    ConfigPath(dp, AttackTable + "/" + Str(index))
  }

  /** The first name whose id converts to `n`. */
  function NameForIndex(m: seq<(Value, Value)>, n: int): Option<Value>
  {
    if m == [] then None else if ToInt(m[0].1) == IntOk(n) then Some(m[0].0) else NameForIndex(m[1..], n)
  }

  datatype Plan = Plan(ops: seq<Operation>, errors: seq<string>)

  /** One entry of `protections_to_delete`. */
  function PlanItem(p: Plan, item: Value, l: Lookup, checkMode: bool, dp: string): Plan
  {
    match Classify(item)
    case ByName(name) =>
      (match Get(l.nameToIndex, item)
       case Some(index) =>
         Plan(p.ops + [DeleteProtection(item, index, Some(AttackPath(dp, index)),
                         "Delete protection '" + name + "' at index " + Str(index), false)], p.errors)
       case None =>
         Plan(p.ops + [DeleteProtection(item, VStr("NOT_FOUND"), None,
                         "Delete protection '" + name + "' (" + WarningSign + "  NOT FOUND on device)", true)],
              p.errors + ["Protection '" + name + "' not found on device " + dp]))
    case ByIndex(n) =>
      var found := NameForIndex(l.nameToIndex, n);
      var shown := if found.Some? then found.value else VStr("index_" + Str(item));
      if checkMode && l.valid != {} && n !in l.valid then
        Plan(p.ops + [DeleteProtection(shown, item, None,
                        "Delete protection at index " + Str(item) + " (" + WarningSign + "  NOT FOUND on device)", true)],
             p.errors + ["Protection index " + Str(item) + " not found on device " + dp])
      else
        Plan(p.ops + [DeleteProtection(shown, item, Some(AttackPath(dp, item)),
                        if found.Some? then "Delete protection '" + Str(found.value) + "' at index " + Str(item)
                        else "Delete protection at index " + Str(item), false)], p.errors)
    case Invalid =>
      Plan(p.ops, p.errors + ["Invalid protection identifier: " + Str(item) + " (must be string name or integer index)"])
  }

  function ItemsPlan(p: Plan, items: seq<Value>, l: Lookup, checkMode: bool, dp: string): Plan
    decreases |items|
  {
    if items == [] then p
    else PlanItem(ItemsPlan(p, items[..|items| - 1], l, checkMode, dp), items[|items| - 1], l, checkMode, dp)
  }

  function ProtectionPlan(dels: seq<Dict>, init: Plan, l: Lookup, checkMode: bool, dp: string): Option<Plan>
    decreases |dels|
  {
    if dels == [] then Some(init)
    else match ProtectionPlan(dels[..|dels| - 1], init, l, checkMode, dp)
      case None => None
      case Some(p) =>
        match Iter(ToDelete(dels[|dels| - 1]))
        case None => None
        case Some(items) => Some(ItemsPlan(p, items, l, checkMode, dp))
  }

  /** The whole plan: profile operations first, then protection operations. */
  function PlanAll(profileDels: seq<Dict>, protectionDels: seq<Dict>, l: Lookup, checkMode: bool, dp: string): Option<Plan>
  {
    match ProfileOps(profileDels, dp)
    case None => None
    case Some(ops) => ProtectionPlan(protectionDels, Plan(ops, []), l, checkMode, dp)
  }

  method PlanProfiles(dels: seq<Dict>, dp: string) returns (r: Option<seq<Operation>>)
    ensures r == ProfileOps(dels, dp)
  {
    var ops: seq<Operation> := [];
    var i := 0;
    while i < |dels|
      invariant 0 <= i <= |dels|
      invariant ProfileOps(dels[..i], dp) == Some(ops)
    {
      assert dels[..i + 1][..i] == dels[..i];
      var it := Iter(ProtectionsOf(dels[i]));
      if it.None? {
        ProfileOpsStaysNone(dels, i + 1, dp);
        return None;
      }
      var ps := it.value;
      var profile := ProfileName(dels[i]);
      var j := 0;
      ghost var base := ops;
      while j < |ps|
        invariant 0 <= j <= |ps|
        invariant ops == base + RemoveOps(dp, profile, ps[..j])
      {
        assert RemoveOps(dp, profile, ps[..j + 1]) == RemoveOps(dp, profile, ps[..j]) + [RemoveOp(dp, profile, ps[j])];
        ops := ops + [RemoveOp(dp, profile, ps[j])];
        j := j + 1;
      }
      assert ps[..j] == ps;
      i := i + 1;
    }
    assert dels[..i] == dels;
    return Some(ops);
  }

  lemma {:induction false} ProfileOpsStaysNone(dels: seq<Dict>, i: nat, dp: string)
    requires i <= |dels| && ProfileOps(dels[..i], dp).None?
    ensures ProfileOps(dels, dp).None?
    decreases |dels| - i
  {
    if i < |dels| {
      assert dels[..i + 1][..i] == dels[..i];
      ProfileOpsStaysNone(dels, i + 1, dp);
    } else {
      assert dels[..i] == dels;
    }
  }

  lemma {:induction false} ProtectionPlanStaysNone(dels: seq<Dict>, i: nat, init: Plan, l: Lookup, checkMode: bool, dp: string)
    requires i <= |dels| && ProtectionPlan(dels[..i], init, l, checkMode, dp).None?
    ensures ProtectionPlan(dels, init, l, checkMode, dp).None?
    decreases |dels| - i
  {
    if i < |dels| {
      assert dels[..i + 1][..i] == dels[..i];
      ProtectionPlanStaysNone(dels, i + 1, init, l, checkMode, dp);
    } else {
      assert dels[..i] == dels;
    }
  }

  method PlanProtections(dels: seq<Dict>, init: Plan, l: Lookup, checkMode: bool, dp: string) returns (r: Option<Plan>)
    ensures r == ProtectionPlan(dels, init, l, checkMode, dp)
  {
    var p := init;
    var i := 0;
    while i < |dels|
      invariant 0 <= i <= |dels|
      invariant ProtectionPlan(dels[..i], init, l, checkMode, dp) == Some(p)
    {
      assert dels[..i + 1][..i] == dels[..i];
      var it := Iter(ToDelete(dels[i]));
      if it.None? {
        ProtectionPlanStaysNone(dels, i + 1, init, l, checkMode, dp);
        return None;
      }
      var items := it.value;
      ghost var base := p;
      var j := 0;
      while j < |items|
        invariant 0 <= j <= |items|
        invariant p == ItemsPlan(base, items[..j], l, checkMode, dp)
      {
        assert items[..j + 1][..j] == items[..j];
        p := PlanItem(p, items[j], l, checkMode, dp);
        j := j + 1;
      }
      assert items[..j] == items;
      i := i + 1;
    }
    assert dels[..i] == dels;
    return Some(p);
  }

  // ---------------------------------------------------------------------------------------------
  // Step 4: execution
  // ---------------------------------------------------------------------------------------------

  datatype Exec = Exec(fromProfiles: seq<(Value, Value)>, deleted: seq<(Value, Value)>,
                       errors: seq<string>, changed: bool, sent: seq<Request>)

  function OpPath(op: Operation): string
    requires WellFormed(op) && !IsError(op)
  {
    if op.RemoveFromProfile? then op.removePath else op.deletePath.value
  }

  /** One DELETE for an operation without an error mark; the reply's status is not inspected. */
  function ExecStep(e: Exec, op: Operation, net: Net): Exec
    requires WellFormed(op)
  {
    if IsError(op) then e
    else
      var e1 := e.(sent := e.sent + [Request(DELETE, OpPath(op), None)]);
      match net(|e.sent|)
      case Raised(m) => e1.(errors := e1.errors + ["Failed to execute " + op.description + ": " + m])
      case Returned(_) =>
        if op.RemoveFromProfile? then e1.(fromProfiles := e1.fromProfiles + [(op.profileName, op.protectionName)], changed := true)
        else e1.(deleted := e1.deleted + [(op.protectionName, op.index)], changed := true)
  }

  function Execute(ops: seq<Operation>, start: Exec, net: Net): Exec
    requires forall op :: op in ops ==> WellFormed(op)
    decreases |ops|
  {
    if ops == [] then start
    else ExecStep(Execute(ops[..|ops| - 1], start, net), ops[|ops| - 1], net)
  }

  method ExecuteLoop(ops: seq<Operation>, start: Exec, net: Net) returns (e: Exec)
    requires forall op :: op in ops ==> WellFormed(op)
    ensures e == Execute(ops, start, net)
  {
    e := start;
    var i := 0;
    while i < |ops|
      invariant 0 <= i <= |ops|
      invariant e == Execute(ops[..i], start, net)
    {
      assert ops[..i + 1][..i] == ops[..i];
      e := ExecStep(e, ops[i], net);
      i := i + 1;
    }
    assert ops[..i] == ops;
  }

  // ---------------------------------------------------------------------------------------------
  // The module run
  // ---------------------------------------------------------------------------------------------

  datatype RunResult = RunResult(
    failed: bool, msg: string, changed: bool, preview: bool,
    operations: seq<Operation>,
    deletedFromProfiles: seq<(Value, Value)>, deletedProtections: seq<(Value, Value)>,
    errors: seq<string>, warnings: seq<string>, sent: seq<Request>)

  function Crash(msg: string, sent: seq<Request>): RunResult
  {
    RunResult(true, msg, false, false, [], [], [], [], [], sent)
  }

  function FetchRequest(dp: string): Request
  {
    Request(GET, ConfigPath(dp, AttackTable), None)
  }

  function Finish(plan: Plan, checkMode: bool, sent0: seq<Request>, net: Net): RunResult
    requires forall op :: op in plan.ops ==> WellFormed(op)
  {
    if checkMode then
      RunResult(false, "", plan.ops != [], true, plan.ops, [], [], plan.errors, [], sent0)
    else
      var e := Execute(plan.ops, Exec([], [], plan.errors, false, sent0), net);
      var failed := e.errors != [] && !e.changed;
      RunResult(failed, if failed then "All operations failed. Errors: " + Join("; ", e.errors) else "",
                e.changed, false, plan.ops, e.fromProfiles, e.deleted, e.errors,
                if e.errors != [] && e.changed then e.errors else [], e.sent)
  }

  function Run(profileDels: seq<Dict>, protectionDels: seq<Dict>, checkMode: bool, dp: string, net: Net): RunResult
  {
    match NeedsFetch(protectionDels, checkMode)
    case None => Crash(NotIterable, [])
    case Some(needs) =>
      var sent0 := if needs then [FetchRequest(dp)] else [];
      var fetched := if needs then FetchLookup(net(0)) else (Lookup([], {}), None);
      if fetched.1.Some? && !checkMode then
        Crash("Failed to fetch current protections: " + fetched.1.value, sent0)
      else
        match PlanAll(profileDels, protectionDels, fetched.0, checkMode, dp)
        case None => Crash(NotIterable, sent0)
        case Some(plan) =>
          PlanWellFormed(profileDels, protectionDels, fetched.0, checkMode, dp);
          Finish(plan, checkMode, sent0, net)
  }

  method RunModule(profileDels: seq<Dict>, protectionDels: seq<Dict>, checkMode: bool, dp: string, net: Net)
    returns (res: RunResult)
    ensures res == Run(profileDels, protectionDels, checkMode, dp, net)
  {
    var needs := ComputeNeedsFetch(protectionDels, checkMode);
    if needs.None? {
      return Crash(NotIterable, []);
    }
    var sent0: seq<Request> := [];
    var l := Lookup([], {});
    var fetchError: Option<string> := None;
    if needs.value {
      sent0 := [FetchRequest(dp)];
      var o := net(0);
      match o {
        case Raised(m) => fetchError := Some(m);
        case Returned(r) =>
          if r.json.None? {
            fetchError := Some(JsonDecodeError);
          } else if Field(r.json.value, AttackTable).Some? {
            var rows := Iter(Field(r.json.value, AttackTable).value);
            if rows.None? {
              fetchError := Some(NotIterable);
            } else {
              var raised;
              l, raised := BuildLookupLoop(rows.value);
              if raised { fetchError := Some(RowUnreadable); }
            }
          }
      }
      assert (l, fetchError) == FetchLookup(net(0));
      if fetchError.Some? && !checkMode {
        return Crash("Failed to fetch current protections: " + fetchError.value, sent0);
      }
    }
    var profileOps := PlanProfiles(profileDels, dp);
    if profileOps.None? {
      return Crash(NotIterable, sent0);
    }
    var plan := PlanProtections(protectionDels, Plan(profileOps.value, []), l, checkMode, dp);
    if plan.None? {
      return Crash(NotIterable, sent0);
    }
    PlanWellFormed(profileDels, protectionDels, l, checkMode, dp);
    if checkMode {
      return RunResult(false, "", plan.value.ops != [], true, plan.value.ops, [], [], plan.value.errors, [], sent0);
    }
    var e := ExecuteLoop(plan.value.ops, Exec([], [], plan.value.errors, false, sent0), net);
    var failed := e.errors != [] && !e.changed;
    res := RunResult(failed, if failed then "All operations failed. Errors: " + Join("; ", e.errors) else "",
                     e.changed, false, plan.value.ops, e.fromProfiles, e.deleted, e.errors,
                     if e.errors != [] && e.changed then e.errors else [], e.sent);
  }

  // ---------------------------------------------------------------------------------------------
  // Properties
  // ---------------------------------------------------------------------------------------------

  function CountRemove(ops: seq<Operation>): nat
  {
    if ops == [] then 0 else CountRemove(ops[..|ops| - 1]) + (if ops[|ops| - 1].RemoveFromProfile? then 1 else 0)
  }

  function PairCount(dels: seq<Dict>): nat
  {
    if dels == [] then 0
    else PairCount(dels[..|dels| - 1]) +
         (match Iter(ProtectionsOf(dels[|dels| - 1])) case Some(ps) => |ps| case None => 0)
  }

  lemma {:induction false} CountRemoveAppend(a: seq<Operation>, b: seq<Operation>)
    ensures CountRemove(a + b) == CountRemove(a) + CountRemove(b)
    decreases |b|
  {
    if b == [] {
      assert a + b == a;
    } else {
      assert (a + b)[..|a + b| - 1] == a + b[..|b| - 1];
      CountRemoveAppend(a, b[..|b| - 1]);
    }
  }

  lemma {:induction false} CountRemoveAll(ops: seq<Operation>)
    requires forall k :: 0 <= k < |ops| ==> ops[k].RemoveFromProfile?
    ensures CountRemove(ops) == |ops|
    decreases |ops|
  {
    if ops != [] { CountRemoveAll(ops[..|ops| - 1]); }
  }

  lemma {:induction false} CountRemoveNone(ops: seq<Operation>)
    requires forall k :: 0 <= k < |ops| ==> ops[k].DeleteProtection?
    ensures CountRemove(ops) == 0
    decreases |ops|
  {
    if ops != [] { CountRemoveNone(ops[..|ops| - 1]); }
  }

  /** The profile deletions yield exactly one remove-from-profile operation per listed
      (profile, protection) pair, and nothing else. */
  lemma {:induction false} ProfileOpsCount(dels: seq<Dict>, dp: string)
    requires ProfileOps(dels, dp).Some?
    ensures var ops := ProfileOps(dels, dp).value;
      (forall k :: 0 <= k < |ops| ==> ops[k].RemoveFromProfile?) && |ops| == PairCount(dels)
    decreases |dels|
  {
    if dels != [] {
      ProfileOpsCount(dels[..|dels| - 1], dp);
    }
  }

  /** Entries of `protections_to_delete` add only delete-protection operations, each well formed. */
  lemma {:induction false} ItemsPlanShape(p: Plan, items: seq<Value>, l: Lookup, checkMode: bool, dp: string)
    ensures var q := ItemsPlan(p, items, l, checkMode, dp);
      |p.ops| <= |q.ops| && q.ops[..|p.ops|] == p.ops &&
      (forall k :: |p.ops| <= k < |q.ops| ==> q.ops[k].DeleteProtection? && WellFormed(q.ops[k]))
    decreases |items|
  {
    if items != [] {
      ItemsPlanShape(p, items[..|items| - 1], l, checkMode, dp);
    }
  }

  lemma {:induction false} ProtectionPlanShape(dels: seq<Dict>, init: Plan, l: Lookup, checkMode: bool, dp: string)
    requires ProtectionPlan(dels, init, l, checkMode, dp).Some?
    ensures var q := ProtectionPlan(dels, init, l, checkMode, dp).value;
      |init.ops| <= |q.ops| && q.ops[..|init.ops|] == init.ops &&
      (forall k :: |init.ops| <= k < |q.ops| ==> q.ops[k].DeleteProtection? && WellFormed(q.ops[k]))
    decreases |dels|
  {
    if dels != [] {
      ProtectionPlanShape(dels[..|dels| - 1], init, l, checkMode, dp);
      var p := ProtectionPlan(dels[..|dels| - 1], init, l, checkMode, dp).value;
      var items := Iter(ToDelete(dels[|dels| - 1])).value;
      ItemsPlanShape(p, items, l, checkMode, dp);
    }
  }

  /** Every remove-from-profile operation precedes every delete-protection operation, the
      former are one per listed (profile, protection) pair, and every operation is well formed. */
  lemma PlanOrdered(profileDels: seq<Dict>, protectionDels: seq<Dict>, l: Lookup, checkMode: bool, dp: string)
    requires PlanAll(profileDels, protectionDels, l, checkMode, dp).Some?
    ensures var ops := PlanAll(profileDels, protectionDels, l, checkMode, dp).value.ops;
      (forall i, j :: 0 <= i < j < |ops| && ops[i].DeleteProtection? ==> ops[j].DeleteProtection?) &&
      CountRemove(ops) == PairCount(profileDels)
  {
    var pre := ProfileOps(profileDels, dp).value;
    ProfileOpsCount(profileDels, dp);
    ProtectionPlanShape(protectionDels, Plan(pre, []), l, checkMode, dp);
    var ops := PlanAll(profileDels, protectionDels, l, checkMode, dp).value.ops;
    assert ops == pre + ops[|pre|..];
    CountRemoveAppend(pre, ops[|pre|..]);
    CountRemoveAll(pre);
    CountRemoveNone(ops[|pre|..]);
  }

  lemma PlanWellFormed(profileDels: seq<Dict>, protectionDels: seq<Dict>, l: Lookup, checkMode: bool, dp: string)
    requires PlanAll(profileDels, protectionDels, l, checkMode, dp).Some?
    ensures forall op :: op in PlanAll(profileDels, protectionDels, l, checkMode, dp).value.ops ==> WellFormed(op)
  {
    ProfileOpsCount(profileDels, dp);
    ProtectionPlanShape(protectionDels, Plan(ProfileOps(profileDels, dp).value, []), l, checkMode, dp);
  }

  function CountError(ops: seq<Operation>): nat
  {
    if ops == [] then 0 else CountError(ops[..|ops| - 1]) + (if IsError(ops[|ops| - 1]) then 1 else 0)
  }

  function CountInvalid(items: seq<Value>): nat
  {
    if items == [] then 0 else CountInvalid(items[..|items| - 1]) + (if Classify(items[|items| - 1]).Invalid? then 1 else 0)
  }

  /** Each entry adds one operation unless it is neither a name nor an index, and the errors it
      adds are exactly one per error-marked operation plus one per invalid entry.  Outside check
      mode only unresolved names are marked (index `NOT_FOUND`); indexes are never rejected. */
  lemma {:induction false} ItemsPlanErrors(p: Plan, items: seq<Value>, l: Lookup, checkMode: bool, dp: string)
    ensures var q := ItemsPlan(p, items, l, checkMode, dp);
      |p.ops| <= |q.ops| == |p.ops| + |items| - CountInvalid(items) &&
      q.ops[..|p.ops|] == p.ops &&
      |q.errors| == |p.errors| + CountError(q.ops[|p.ops|..]) + CountInvalid(items) &&
      (!checkMode ==> forall k :: |p.ops| <= k < |q.ops| && IsError(q.ops[k]) ==> q.ops[k].index == VStr("NOT_FOUND"))
    decreases |items|
  {
    if items != [] {
      var prev := ItemsPlan(p, items[..|items| - 1], l, checkMode, dp);
      ItemsPlanErrors(p, items[..|items| - 1], l, checkMode, dp);
      PlanItemErrors(prev, items[|items| - 1], l, checkMode, dp);
      var q := ItemsPlan(p, items, l, checkMode, dp);
      var tail := q.ops[|p.ops|..];
      if |q.ops| > |prev.ops| {
        assert tail[..|tail| - 1] == prev.ops[|p.ops|..];
      } else {
        assert tail == prev.ops[|p.ops|..];
      }
    }
  }

  /** One entry: an invalid one adds only an error; any other adds one operation, and an error
      exactly when that operation is marked as one. */
  lemma PlanItemErrors(p: Plan, item: Value, l: Lookup, checkMode: bool, dp: string)
    ensures var q := PlanItem(p, item, l, checkMode, dp);
      q.ops[..|p.ops|] == p.ops &&
      (Classify(item).Invalid? ==> q.ops == p.ops && |q.errors| == |p.errors| + 1) &&
      (!Classify(item).Invalid? ==>
         |q.ops| == |p.ops| + 1 && |q.errors| == |p.errors| + (if IsError(q.ops[|p.ops|]) then 1 else 0) &&
         (!checkMode && IsError(q.ops[|p.ops|]) ==> q.ops[|p.ops|].index == VStr("NOT_FOUND")))
  {
  }

  /** Execution sends one DELETE per operation not marked as an error, in plan order, at that
      operation's path, and never one for a marked operation. */
  function DeleteRequests(ops: seq<Operation>): seq<Request>
    requires forall op :: op in ops ==> WellFormed(op)
  {
    if ops == [] then []
    else DeleteRequests(ops[..|ops| - 1]) +
         (if IsError(ops[|ops| - 1]) then [] else [Request(DELETE, OpPath(ops[|ops| - 1]), None)])
  }

  lemma {:induction false} ExecuteSends(ops: seq<Operation>, start: Exec, net: Net)
    requires forall op :: op in ops ==> WellFormed(op)
    ensures Execute(ops, start, net).sent == start.sent + DeleteRequests(ops)
    decreases |ops|
  {
    if ops != [] {
      ExecuteSends(ops[..|ops| - 1], start, net);
    }
  }

  /** `changed` becomes true exactly when some DELETE returned, each failed DELETE adds exactly
      one error, and every sent DELETE ends up either among the deletions or among the errors. */
  lemma {:induction false} ExecuteAccounts(ops: seq<Operation>, start: Exec, net: Net)
    requires forall op :: op in ops ==> WellFormed(op)
    ensures var e := Execute(ops, start, net);
      var n := |e.sent| - |start.sent|;
      n >= 0 &&
      (e.changed <==> start.changed || exists k :: |start.sent| <= k < |e.sent| && net(k).Returned?) &&
      (|e.fromProfiles| - |start.fromProfiles|) + (|e.deleted| - |start.deleted|) + (|e.errors| - |start.errors|) == n &&
      |e.errors| - |start.errors| == |set k | |start.sent| <= k < |e.sent| && net(k).Raised?|
    decreases |ops|
  {
    if ops != [] {
      var prev := Execute(ops[..|ops| - 1], start, net);
      ExecuteAccounts(ops[..|ops| - 1], start, net);
      var e := Execute(ops, start, net);
      if !IsError(ops[|ops| - 1]) {
        var m := |prev.sent|;
        assert (set k | |start.sent| <= k < |e.sent| && net(k).Raised?) ==
               (set k | |start.sent| <= k < m && net(k).Raised?) + (if net(m).Raised? then {m} else {});
      }
    }
  }

  /** Preview sends at most the table fetch and reports a change iff some operation is planned;
      its two operation lists partition the plan, in order. */
  lemma PreviewSendsNoDelete(profileDels: seq<Dict>, protectionDels: seq<Dict>, dp: string, net: Net)
    ensures var r := Run(profileDels, protectionDels, true, dp, net);
      |r.sent| <= 1 && (forall k :: 0 <= k < |r.sent| ==> r.sent[k] == FetchRequest(dp)) &&
      (!r.failed ==> (r.changed == (r.operations != []) &&
                      Removals(r.operations) + Deletions(r.operations) == r.operations))
  {
    var r := Run(profileDels, protectionDels, true, dp, net);
    if !r.failed {
      var needs := NeedsFetch(protectionDels, true).value;
      var l := if needs then FetchLookup(net(0)).0 else Lookup([], {});
      PlanOrdered(profileDels, protectionDels, l, true, dp);
      RemovalsThenDeletions(r.operations);
    }
  }

  /** `profile_operations` of the preview. */
  function Removals(ops: seq<Operation>): seq<Operation>
  {
    if ops == [] then [] else Removals(ops[..|ops| - 1]) + (if ops[|ops| - 1].RemoveFromProfile? then [ops[|ops| - 1]] else [])
  }

  /** `protection_operations` of the preview. */
  function Deletions(ops: seq<Operation>): seq<Operation>
  {
    if ops == [] then [] else Deletions(ops[..|ops| - 1]) + (if ops[|ops| - 1].DeleteProtection? then [ops[|ops| - 1]] else [])
  }

  lemma {:induction false} RemovalsThenDeletions(ops: seq<Operation>)
    requires forall i, j :: 0 <= i < j < |ops| && ops[i].DeleteProtection? ==> ops[j].DeleteProtection?
    ensures Removals(ops) + Deletions(ops) == ops
    decreases |ops|
  {
    if ops != [] {
      var init, last := ops[..|ops| - 1], ops[|ops| - 1];
      assert ops == init + [last];
      if last.RemoveFromProfile? {
        forall k | 0 <= k < |init| ensures init[k].RemoveFromProfile? {
          assert ops[k] == init[k];
        }
        RemovalsAll(init);
        DeletionsNone(init);
        assert Removals(ops) == init + [last];
      } else {
        forall i, j | 0 <= i < j < |init| && init[i].DeleteProtection? ensures init[j].DeleteProtection? {
          assert ops[i] == init[i] && ops[j] == init[j];
        }
        RemovalsThenDeletions(init);
        assert Removals(ops) + Deletions(ops) == (Removals(init) + Deletions(init)) + [last];
      }
    }
  }

  lemma {:induction false} RemovalsAll(ops: seq<Operation>)
    requires forall k :: 0 <= k < |ops| ==> ops[k].RemoveFromProfile?
    ensures Removals(ops) == ops
    decreases |ops|
  {
    if ops != [] { RemovalsAll(ops[..|ops| - 1]); }
  }

  lemma {:induction false} DeletionsNone(ops: seq<Operation>)
    requires forall k :: 0 <= k < |ops| ==> ops[k].RemoveFromProfile?
    ensures Deletions(ops) == []
    decreases |ops|
  {
    if ops != [] { DeletionsNone(ops[..|ops| - 1]); }
  }

  /** The protection table is fetched at most once, as the first request, and exactly when some
      entry examined is a name (or an index while previewing); every later request is a DELETE. */
  lemma FetchAtMostOnce(profileDels: seq<Dict>, protectionDels: seq<Dict>, checkMode: bool, dp: string, net: Net)
    ensures var r := Run(profileDels, protectionDels, checkMode, dp, net);
      (forall k :: 1 <= k < |r.sent| ==> r.sent[k].verb == DELETE) &&
      (|r.sent| > 0 && r.sent[0].verb == GET <==> NeedsFetch(protectionDels, checkMode) == Some(true))
  {
    var r := Run(profileDels, protectionDels, checkMode, dp, net);
    match NeedsFetch(protectionDels, checkMode)
    case None =>
    case Some(needs) =>
      var sent0 := if needs then [FetchRequest(dp)] else [];
      var fetched := if needs then FetchLookup(net(0)) else (Lookup([], {}), None);
      var l := fetched.0;
      if !(fetched.1.Some? && !checkMode) && PlanAll(profileDels, protectionDels, l, checkMode, dp).Some? && !checkMode {
        var plan := PlanAll(profileDels, protectionDels, l, checkMode, dp).value;
        PlanWellFormed(profileDels, protectionDels, l, checkMode, dp);
        var start := Exec([], [], plan.errors, false, sent0);
        ExecuteSends(plan.ops, start, net);
        DeleteRequestsAreDeletes(plan.ops);
        assert r.sent == sent0 + DeleteRequests(plan.ops);
        assert forall k :: |sent0| <= k < |r.sent| ==> r.sent[k] == DeleteRequests(plan.ops)[k - |sent0|];
      }
  }

  lemma {:induction false} DeleteRequestsAreDeletes(ops: seq<Operation>)
    requires forall op :: op in ops ==> WellFormed(op)
    ensures forall k :: 0 <= k < |DeleteRequests(ops)| ==> DeleteRequests(ops)[k].verb == DELETE
    decreases |ops|
  {
    if ops != [] { DeleteRequestsAreDeletes(ops[..|ops| - 1]); }
  }
}

/** Deletion of SYN protections and of their profile memberships
    (plugins/modules/delete_syn_configuration.py).  The SYN protection table is fetched once to map
    protection names to ids; one operation list is planned (all removals from profiles, then all
    protection deletions) and then executed, or only counted in check mode.  An operation whose
    protection is unknown fails without a request. */
module DeleteSynConfiguration {
  import opened Py
  import opened Http

  const AttackTable := "rsIDSSYNAttackTable"
  const ProfilesTable := "rsIDSSynProfilesTable"

  // ---------------------------------------------------------------------------------------------
  // Step 1: the name-to-id map
  // ---------------------------------------------------------------------------------------------

  /** `protection_name_to_id`, keyed by protection name. */
  type IdMap = seq<(Value, Value)>

  /** The (name, id) a table row contributes: both must be truthy. */
  function RowPair(row: Value): Option<(Value, Value)>
  {
    var name := FieldOr(row, "rsIDSSYNAttackName", VNone);
    var id := FieldOr(row, "rsIDSSYNAttackId", VNone);
    if Truthy(name) && Truthy(id) then Some((name, id)) else None
  }

  /** A row raises when it is not a dict (`.get`) or its pair's name cannot be a dict key. */
  predicate RowRaises(row: Value)
  {
    !row.VDict? || (RowPair(row).Some? && !Hashable(RowPair(row).value.0))
  }

  function AddRow(m: IdMap, row: Value): Result<IdMap>
  {
    if !row.VDict? then Err(NoGet)
    else match RowPair(row)
      case None => Ok(m)
      case Some(p) => if Hashable(p.0) then Ok(Put(m, p.0, p.1)) else Err(Unhashable)
  }

  /** The map built from the table rows, in order; the first row that raises aborts. */
  function BuildIdMap(rows: seq<Value>): Result<IdMap>
    decreases |rows|
  {
    if rows == [] then Ok([])
    else match BuildIdMap(rows[..|rows| - 1])
      case Err(e) => Err(e)
      case Ok(m) => AddRow(m, rows[|rows| - 1])
  }

  method BuildIdMapLoop(rows: seq<Value>) returns (r: Result<IdMap>)
    ensures r == BuildIdMap(rows)
  {
    var m: IdMap := [];
    var i := 0;
    while i < |rows|
      invariant 0 <= i <= |rows|
      invariant BuildIdMap(rows[..i]) == Ok(m)
    {
      assert rows[..i + 1][..i] == rows[..i];
      var step := AddRow(m, rows[i]);
      if step.Err? {
        BuildIdMapStaysErr(rows, i + 1);
        return step;
      }
      m := step.value;
      i := i + 1;
    }
    assert rows[..i] == rows;
    return Ok(m);
  }

  lemma {:induction false} BuildIdMapStaysErr(rows: seq<Value>, i: nat)
    requires i <= |rows| && BuildIdMap(rows[..i]).Err?
    ensures BuildIdMap(rows) == BuildIdMap(rows[..i])
    decreases |rows| - i
  {
    if i < |rows| {
      assert rows[..i + 1][..i] == rows[..i];
      BuildIdMapStaysErr(rows, i + 1);
    } else {
      assert rows[..i] == rows;
    }
  }

  /** Reference lookup without a dict: the id of the last row that pairs `name` with an id. */
  function LastId(rows: seq<Value>, name: Value): Option<Value>
    decreases |rows|
  {
    if rows == [] then None
    else match RowPair(rows[|rows| - 1])
      case Some(p) => if p.0 == name then Some(p.1) else LastId(rows[..|rows| - 1], name)
      case None => LastId(rows[..|rows| - 1], name)
  }

  /** The map raises exactly when some row does; otherwise it holds only truthy names and ids,
      and each name gives the id of its last row (later rows overwrite earlier ones). */
  lemma {:induction false} BuildIdMapSound(rows: seq<Value>)
    ensures BuildIdMap(rows).Err? <==> exists k :: 0 <= k < |rows| && RowRaises(rows[k])
    ensures BuildIdMap(rows).Ok? ==>
      (forall e :: e in BuildIdMap(rows).value ==> Truthy(e.0) && Truthy(e.1)) &&
      (forall name :: Get(BuildIdMap(rows).value, name) == LastId(rows, name))
    decreases |rows|
  {
    if rows != [] {
      var init, row := rows[..|rows| - 1], rows[|rows| - 1];
      BuildIdMapSound(init);
      forall k | 0 <= k < |init| ensures init[k] == rows[k] { }
      if BuildIdMap(init).Ok? {
        var m := BuildIdMap(init).value;
        if !RowRaises(row) && RowPair(row).Some? {
          var p := RowPair(row).value;
          forall e | e in Put(m, p.0, p.1) ensures Truthy(e.0) && Truthy(e.1) {
            PutMembers(m, p.0, p.1, e);
          }
          forall name ensures Get(Put(m, p.0, p.1), name) == LastId(rows, name) {
            GetPut(m, p.0, p.1, name);
          }
        }
        if RowRaises(row) {
          assert RowRaises(rows[|rows| - 1]);
        }
      }
    }
  }

  /** The single GET of the protection table; any failure (exception, error status, a body that
      is not JSON or not a dict, rows that raise) is an error. */
  function FetchIdMap(o: Outcome): Result<IdMap>
  {
    match o
    case Raised(e) => Err(e)
    case Returned(r) =>
      if StatusError(r).Some? then Err(StatusError(r).value)
      else match r.json
        case None => Err(JsonDecodeError)
        case Some(j) =>
          if !j.VDict? then Err(NoGet)
          else match Iter(FieldOr(j, AttackTable, VList([])))
            case None => Err(NotIterable)
            case Some(rows) => BuildIdMap(rows)
  }

  // ---------------------------------------------------------------------------------------------
  // Step 2: planning
  // ---------------------------------------------------------------------------------------------

  datatype Operation =
    | RemoveFromProfile(profileName: Value, protectionName: Value, url: string, description: string, found: bool)
    | DeleteProtection(protectionName: Value, protectionId: Option<Value>, url: string, description: string, found: bool)

  /** `protection_name_to_id.get(name)`, which raises for a name that cannot be a key. */
  function Resolve(m: IdMap, name: Value): Result<Option<Value>>
  {
    if Hashable(name) then Ok(Get(m, name)) else Err(Unhashable)
  }

  function RemoveOp(dp: string, profileName: Value, name: Value, id: Option<Value>): Operation
  {
    RemoveFromProfile(profileName, name,
      ConfigPath(dp, ProfilesTable + "/" + Str(profileName) + "/" + Str(name)),
      "Remove '" + Str(name) + "' from profile '" + Str(profileName) + "'", id.Some?)
  }

  function DeleteOp(dp: string, name: Value, id: Option<Value>): Operation
  {
    DeleteProtection(name, id,
      ConfigPath(dp, AttackTable + "/" + (if id.Some? && Truthy(id.value) then Str(id.value) else "NA")),
      "Delete protection '" + Str(name) + "' (ID " + (if id.Some? then Str(id.value) else "None") + ")", id.Some?)
  }

  function ProtName(prot: Value): Value
  {
    FieldOr(prot, "protection_name", VNone)
  }

  /** One entry of a profile's `protections`: it must be a dict with a usable name. */
  function RemoveStep(ops: seq<Operation>, m: IdMap, dp: string, profileName: Value, prot: Value): Result<seq<Operation>>
  {
    if !prot.VDict? then Err(NoGet)
    else match Resolve(m, ProtName(prot))
      case Err(e) => Err(e)
      case Ok(id) => Ok(ops + [RemoveOp(dp, profileName, ProtName(prot), id)])
  }

  function RemoveOpsOf(ops: seq<Operation>, m: IdMap, dp: string, profileName: Value, prots: seq<Value>): Result<seq<Operation>>
    decreases |prots|
  {
    if prots == [] then Ok(ops)
    else match RemoveOpsOf(ops, m, dp, profileName, prots[..|prots| - 1])
      case Err(e) => Err(e)
      case Ok(o) => RemoveStep(o, m, dp, profileName, prots[|prots| - 1])
  }

  function ProfileNameOf(d: Dict): Value { GetOr(d, "profile_name", VNone) }

  function ProtectionsOf(d: Dict): Value { GetOr(d, "protections", VList([])) }

  function ToDeleteOf(d: Dict): Value { GetOr(d, "protections_to_delete", VList([])) }

  /** The remove-from-profile operations of `syn_profile_deletions`, appended to `ops`. */
  function ProfileOps(ops: seq<Operation>, dels: seq<Dict>, m: IdMap, dp: string): Result<seq<Operation>>
    decreases |dels|
  {
    if dels == [] then Ok(ops)
    else match ProfileOps(ops, dels[..|dels| - 1], m, dp)
      case Err(e) => Err(e)
      case Ok(o) =>
        var d := dels[|dels| - 1];
        match Iter(ProtectionsOf(d))
        case None => Err(NotIterable)
        case Some(prots) => RemoveOpsOf(o, m, dp, ProfileNameOf(d), prots)
  }

  function DeleteStep(ops: seq<Operation>, m: IdMap, dp: string, name: Value): Result<seq<Operation>>
  {
    match Resolve(m, name)
    case Err(e) => Err(e)
    case Ok(id) => Ok(ops + [DeleteOp(dp, name, id)])
  }

  function DeleteOpsOf(ops: seq<Operation>, m: IdMap, dp: string, names: seq<Value>): Result<seq<Operation>>
    decreases |names|
  {
    if names == [] then Ok(ops)
    else match DeleteOpsOf(ops, m, dp, names[..|names| - 1])
      case Err(e) => Err(e)
      case Ok(o) => DeleteStep(o, m, dp, names[|names| - 1])
  }

  /** The delete-protection operations of `syn_protection_deletions`, appended to `ops`. */
  function ProtectionOps(ops: seq<Operation>, dels: seq<Dict>, m: IdMap, dp: string): Result<seq<Operation>>
    decreases |dels|
  {
    if dels == [] then Ok(ops)
    else match ProtectionOps(ops, dels[..|dels| - 1], m, dp)
      case Err(e) => Err(e)
      case Ok(o) =>
        match Iter(ToDeleteOf(dels[|dels| - 1]))
        case None => Err(NotIterable)
        case Some(names) => DeleteOpsOf(o, m, dp, names)
  }

  /** The whole operation list; an error is an exception that ends the module. */
  function PlanAll(profileDels: seq<Dict>, protectionDels: seq<Dict>, m: IdMap, dp: string): Result<seq<Operation>>
  {
    match ProfileOps([], profileDels, m, dp)
    case Err(e) => Err(e)
    case Ok(ops) => ProtectionOps(ops, protectionDels, m, dp)
  }

  /** The remove-from-profile operations of one profile's protections, appended to `ops0`. */
  method RemoveLoop(ops0: seq<Operation>, m: IdMap, dp: string, profileName: Value, prots: seq<Value>)
    returns (r: Result<seq<Operation>>)
    ensures r == RemoveOpsOf(ops0, m, dp, profileName, prots)
  {
    var ops := ops0;
    var j := 0;
    while j < |prots|
      invariant 0 <= j <= |prots|
      invariant RemoveOpsOf(ops0, m, dp, profileName, prots[..j]) == Ok(ops)
    {
      assert prots[..j + 1][..j] == prots[..j];
      var step := RemoveStep(ops, m, dp, profileName, prots[j]);
      if step.Err? {
        RemoveOpsOfStaysErr(ops0, m, dp, profileName, prots, j + 1);
        return step;
      }
      ops := step.value;
      j := j + 1;
    }
    assert prots[..j] == prots;
    return Ok(ops);
  }

  /** The delete-protection operations of one entry's names, appended to `ops0`. */
  method DeleteLoop(ops0: seq<Operation>, m: IdMap, dp: string, names: seq<Value>)
    returns (r: Result<seq<Operation>>)
    ensures r == DeleteOpsOf(ops0, m, dp, names)
  {
    var ops := ops0;
    var j := 0;
    while j < |names|
      invariant 0 <= j <= |names|
      invariant DeleteOpsOf(ops0, m, dp, names[..j]) == Ok(ops)
    {
      assert names[..j + 1][..j] == names[..j];
      var step := DeleteStep(ops, m, dp, names[j]);
      if step.Err? {
        DeleteOpsOfStaysErr(ops0, m, dp, names, j + 1);
        return step;
      }
      ops := step.value;
      j := j + 1;
    }
    assert names[..j] == names;
    return Ok(ops);
  }

  /** The loop over `syn_profile_deletions`. */
  method ProfileLoop(profileDels: seq<Dict>, m: IdMap, dp: string) returns (r: Result<seq<Operation>>)
    ensures r == ProfileOps([], profileDels, m, dp)
  {
    var ops: seq<Operation> := [];
    var i := 0;
    while i < |profileDels|
      invariant 0 <= i <= |profileDels|
      invariant ProfileOps([], profileDels[..i], m, dp) == Ok(ops)
    {
      assert profileDels[..i + 1][..i] == profileDels[..i];
      var d := profileDels[i];
      var it := Iter(ProtectionsOf(d));
      if it.None? {
        ProfileOpsStaysErr(profileDels, i + 1, m, dp);
        return Err(NotIterable);
      }
      var step := RemoveLoop(ops, m, dp, ProfileNameOf(d), it.value);
      if step.Err? {
        ProfileOpsStaysErr(profileDels, i + 1, m, dp);
        return step;
      }
      ops := step.value;
      i := i + 1;
    }
    assert profileDels[..i] == profileDels;
    return Ok(ops);
  }

  /** The loop over `syn_protection_deletions`, after the operations `ops0`. */
  method ProtectionLoop(ops0: seq<Operation>, protectionDels: seq<Dict>, m: IdMap, dp: string)
    returns (r: Result<seq<Operation>>)
    ensures r == ProtectionOps(ops0, protectionDels, m, dp)
  {
    var ops := ops0;
    var i := 0;
    while i < |protectionDels|
      invariant 0 <= i <= |protectionDels|
      invariant ProtectionOps(ops0, protectionDels[..i], m, dp) == Ok(ops)
    {
      assert protectionDels[..i + 1][..i] == protectionDels[..i];
      var it := Iter(ToDeleteOf(protectionDels[i]));
      if it.None? {
        ProtectionOpsStaysErr(ops0, protectionDels, i + 1, m, dp);
        return Err(NotIterable);
      }
      var step := DeleteLoop(ops, m, dp, it.value);
      if step.Err? {
        ProtectionOpsStaysErr(ops0, protectionDels, i + 1, m, dp);
        return step;
      }
      ops := step.value;
      i := i + 1;
    }
    assert protectionDels[..i] == protectionDels;
    return Ok(ops);
  }

  method PlanOperations(profileDels: seq<Dict>, protectionDels: seq<Dict>, m: IdMap, dp: string)
    returns (r: Result<seq<Operation>>)
    ensures r == PlanAll(profileDels, protectionDels, m, dp)
  {
    var profileOps := ProfileLoop(profileDels, m, dp);
    if profileOps.Err? {
      return Err(profileOps.msg);
    }
    r := ProtectionLoop(profileOps.value, protectionDels, m, dp);
  }

  lemma {:induction false} RemoveOpsOfStaysErr(ops: seq<Operation>, m: IdMap, dp: string, profileName: Value, prots: seq<Value>, i: nat)
    requires i <= |prots| && RemoveOpsOf(ops, m, dp, profileName, prots[..i]).Err?
    ensures RemoveOpsOf(ops, m, dp, profileName, prots) == RemoveOpsOf(ops, m, dp, profileName, prots[..i])
    decreases |prots| - i
  {
    if i < |prots| {
      assert prots[..i + 1][..i] == prots[..i];
      RemoveOpsOfStaysErr(ops, m, dp, profileName, prots, i + 1);
    } else {
      assert prots[..i] == prots;
    }
  }

  lemma {:induction false} ProfileOpsStaysErr(dels: seq<Dict>, i: nat, m: IdMap, dp: string)
    requires i <= |dels| && ProfileOps([], dels[..i], m, dp).Err?
    ensures ProfileOps([], dels, m, dp) == ProfileOps([], dels[..i], m, dp)
    ensures PlanAll(dels, [], m, dp).Err?
    ensures forall protectionDels :: PlanAll(dels, protectionDels, m, dp) == ProfileOps([], dels[..i], m, dp)
    decreases |dels| - i
  {
    if i < |dels| {
      assert dels[..i + 1][..i] == dels[..i];
      ProfileOpsStaysErr(dels, i + 1, m, dp);
    } else {
      assert dels[..i] == dels;
    }
  }

  lemma {:induction false} DeleteOpsOfStaysErr(ops: seq<Operation>, m: IdMap, dp: string, names: seq<Value>, i: nat)
    requires i <= |names| && DeleteOpsOf(ops, m, dp, names[..i]).Err?
    ensures DeleteOpsOf(ops, m, dp, names) == DeleteOpsOf(ops, m, dp, names[..i])
    decreases |names| - i
  {
    if i < |names| {
      assert names[..i + 1][..i] == names[..i];
      DeleteOpsOfStaysErr(ops, m, dp, names, i + 1);
    } else {
      assert names[..i] == names;
    }
  }

  lemma {:induction false} ProtectionOpsStaysErr(ops: seq<Operation>, dels: seq<Dict>, i: nat, m: IdMap, dp: string)
    requires i <= |dels| && ProtectionOps(ops, dels[..i], m, dp).Err?
    ensures ProtectionOps(ops, dels, m, dp) == ProtectionOps(ops, dels[..i], m, dp)
    decreases |dels| - i
  {
    if i < |dels| {
      assert dels[..i + 1][..i] == dels[..i];
      ProtectionOpsStaysErr(ops, dels, i + 1, m, dp);
    } else {
      assert dels[..i] == dels;
    }
  }

  // ---------------------------------------------------------------------------------------------
  // Properties of the plan
  // ---------------------------------------------------------------------------------------------

  /** `exists` records exactly whether the name resolved; a deletion carries the resolved id, and
      an unresolved one targets the `NA` row. */
  predicate Sound(op: Operation, m: IdMap, dp: string)
  {
    (op.found <==> Get(m, op.protectionName).Some?) &&
    (op.DeleteProtection? ==>
       op.protectionId == Get(m, op.protectionName) &&
       (!op.found ==> op.url == ConfigPath(dp, AttackTable + "/NA")))
  }

  /** The number of entries listed under `key` across the descriptors (none for one that cannot be
      iterated). */
  function Listed(dels: seq<Dict>, key: string): nat
    decreases |dels|
  {
    if dels == [] then 0
    else Listed(dels[..|dels| - 1], key) +
         (match Iter(GetOr(dels[|dels| - 1], key, VList([]))) case Some(xs) => |xs| case None => 0)
  }

  lemma {:induction false} RemoveOpsOfShape(ops: seq<Operation>, m: IdMap, dp: string, profileName: Value, prots: seq<Value>)
    requires RemoveOpsOf(ops, m, dp, profileName, prots).Ok?
    ensures var r := RemoveOpsOf(ops, m, dp, profileName, prots).value;
      |r| == |ops| + |prots| && r[..|ops|] == ops &&
      forall i :: |ops| <= i < |r| ==> r[i].RemoveFromProfile? && Sound(r[i], m, dp)
    decreases |prots|
  {
    if prots != [] {
      RemoveOpsOfShape(ops, m, dp, profileName, prots[..|prots| - 1]);
    }
  }

  lemma {:induction false} ProfileOpsShape(ops: seq<Operation>, dels: seq<Dict>, m: IdMap, dp: string)
    requires ProfileOps(ops, dels, m, dp).Ok?
    ensures var r := ProfileOps(ops, dels, m, dp).value;
      |r| == |ops| + Listed(dels, "protections") && r[..|ops|] == ops &&
      forall i :: |ops| <= i < |r| ==> r[i].RemoveFromProfile? && Sound(r[i], m, dp)
    decreases |dels|
  {
    if dels != [] {
      var init := dels[..|dels| - 1];
      ProfileOpsShape(ops, init, m, dp);
      var o := ProfileOps(ops, init, m, dp).value;
      var d := dels[|dels| - 1];
      var prots := Iter(ProtectionsOf(d)).value;
      RemoveOpsOfShape(o, m, dp, ProfileNameOf(d), prots);
      var r := ProfileOps(ops, dels, m, dp).value;
      assert r[..|o|] == o;
      assert r[..|ops|] == o[..|ops|];
    }
  }

  lemma {:induction false} DeleteOpsOfShape(ops: seq<Operation>, m: IdMap, dp: string, names: seq<Value>)
    requires DeleteOpsOf(ops, m, dp, names).Ok?
    ensures var r := DeleteOpsOf(ops, m, dp, names).value;
      |r| == |ops| + |names| && r[..|ops|] == ops &&
      forall i :: |ops| <= i < |r| ==> r[i].DeleteProtection? && Sound(r[i], m, dp)
    decreases |names|
  {
    if names != [] {
      DeleteOpsOfShape(ops, m, dp, names[..|names| - 1]);
    }
  }

  lemma {:induction false} ProtectionOpsShape(ops: seq<Operation>, dels: seq<Dict>, m: IdMap, dp: string)
    requires ProtectionOps(ops, dels, m, dp).Ok?
    ensures var r := ProtectionOps(ops, dels, m, dp).value;
      |r| == |ops| + Listed(dels, "protections_to_delete") && r[..|ops|] == ops &&
      forall i :: |ops| <= i < |r| ==> r[i].DeleteProtection? && Sound(r[i], m, dp)
    decreases |dels|
  {
    if dels != [] {
      var init := dels[..|dels| - 1];
      ProtectionOpsShape(ops, init, m, dp);
      var o := ProtectionOps(ops, init, m, dp).value;
      DeleteOpsOfShape(o, m, dp, Iter(ToDeleteOf(dels[|dels| - 1])).value);
      var r := ProtectionOps(ops, dels, m, dp).value;
      assert r[..|o|] == o;
      assert r[..|ops|] == o[..|ops|];
    }
  }

  /** All removals from profiles come first, one per listed (profile, protection) pair, then all
      deletions, one per listed name; every operation records whether its name resolved. */
  lemma PlanShape(profileDels: seq<Dict>, protectionDels: seq<Dict>, m: IdMap, dp: string)
    requires PlanAll(profileDels, protectionDels, m, dp).Ok?
    ensures var ops := PlanAll(profileDels, protectionDels, m, dp).value;
      var n := Listed(profileDels, "protections");
      n <= |ops| && |ops| - n == Listed(protectionDels, "protections_to_delete") &&
      (forall i :: 0 <= i < n ==> ops[i].RemoveFromProfile?) &&
      (forall i :: n <= i < |ops| ==> ops[i].DeleteProtection?) &&
      (forall i :: 0 <= i < |ops| ==> Sound(ops[i], m, dp))
  {
    ProfileOpsShape([], profileDels, m, dp);
    var ops0 := ProfileOps([], profileDels, m, dp).value;
    ProtectionOpsShape(ops0, protectionDels, m, dp);
    var ops := PlanAll(profileDels, protectionDels, m, dp).value;
    forall i | 0 <= i < |ops0| ensures ops[i] == ops0[i] {
      assert ops[..|ops0|][i] == ops[i];
    }
  }

  // ---------------------------------------------------------------------------------------------
  // Step 3: execution
  // ---------------------------------------------------------------------------------------------

  /** An entry of `failed_operations`. */
  datatype Failure = Failure(objectName: Value, error: string)

  datatype Exec = Exec(fromProfiles: seq<(Value, Value)>, deleted: seq<(Value, Option<Value>)>,
                       failed: seq<Failure>, changed: bool, sent: seq<Request>)

  /** One operation: an unknown protection fails without a request; in check mode an existing one
      only sets `changed`; otherwise one DELETE, whose exception or error status is a failure. */
  function ExecStep(e: Exec, op: Operation, checkMode: bool, net: Net): Exec
  {
    if !op.found then e.(failed := e.failed + [Failure(op.protectionName, "Object '" + Str(op.protectionName) + "' not found")])
    else if checkMode then e.(changed := true)
    else
      var e1 := e.(sent := e.sent + [Request(DELETE, op.url, None)]);
      match net(|e.sent|)
      case Raised(msg) => e1.(failed := e1.failed + [Failure(op.protectionName, msg)])
      case Returned(r) =>
        match StatusError(r)
        case Some(msg) => e1.(failed := e1.failed + [Failure(op.protectionName, msg)])
        case None =>
          if op.RemoveFromProfile? then e1.(changed := true, fromProfiles := e1.fromProfiles + [(op.profileName, op.protectionName)])
          else e1.(changed := true, deleted := e1.deleted + [(op.protectionName, op.protectionId)])
  }

  function Execute(ops: seq<Operation>, start: Exec, checkMode: bool, net: Net): Exec
    decreases |ops|
  {
    if ops == [] then start
    else ExecStep(Execute(ops[..|ops| - 1], start, checkMode, net), ops[|ops| - 1], checkMode, net)
  }

  method ExecuteLoop(ops: seq<Operation>, start: Exec, checkMode: bool, net: Net) returns (e: Exec)
    ensures e == Execute(ops, start, checkMode, net)
  {
    e := start;
    var i := 0;
    while i < |ops|
      invariant 0 <= i <= |ops|
      invariant e == Execute(ops[..i], start, checkMode, net)
    {
      assert ops[..i + 1][..i] == ops[..i];
      var op := ops[i];
      if !op.found {
        e := e.(failed := e.failed + [Failure(op.protectionName, "Object '" + Str(op.protectionName) + "' not found")]);
      } else if checkMode {
        e := e.(changed := true);
      } else {
        var o := net(|e.sent|);
        e := e.(sent := e.sent + [Request(DELETE, op.url, None)]);
        if o.Raised? {
          e := e.(failed := e.failed + [Failure(op.protectionName, o.msg)]);
        } else if StatusError(o.reply).Some? {
          e := e.(failed := e.failed + [Failure(op.protectionName, StatusError(o.reply).value)]);
        } else if op.RemoveFromProfile? {
          e := e.(changed := true, fromProfiles := e.fromProfiles + [(op.profileName, op.protectionName)]);
        } else {
          e := e.(changed := true, deleted := e.deleted + [(op.protectionName, op.protectionId)]);
        }
      }
      i := i + 1;
    }
    assert ops[..i] == ops;
  }

  /** The operations that are executed: those whose protection was found. */
  function CountFound(ops: seq<Operation>): nat
    decreases |ops|
  {
    if ops == [] then 0 else CountFound(ops[..|ops| - 1]) + (if ops[|ops| - 1].found then 1 else 0)
  }

  /** One DELETE per found operation, at its URL, in plan order. */
  function DeleteRequests(ops: seq<Operation>): seq<Request>
    decreases |ops|
  {
    if ops == [] then []
    else DeleteRequests(ops[..|ops| - 1]) + (if ops[|ops| - 1].found then [Request(DELETE, ops[|ops| - 1].url, None)] else [])
  }

  /** Execution sends exactly one DELETE per found operation, and nothing in check mode. */
  lemma {:induction false} ExecuteSends(ops: seq<Operation>, start: Exec, checkMode: bool, net: Net)
    ensures Execute(ops, start, checkMode, net).sent == start.sent + (if checkMode then [] else DeleteRequests(ops))
    decreases |ops|
  {
    if ops != [] {
      ExecuteSends(ops[..|ops| - 1], start, checkMode, net);
    }
  }

  lemma {:induction false} DeleteRequestsShape(ops: seq<Operation>)
    ensures |DeleteRequests(ops)| == CountFound(ops) <= |ops|
    ensures forall q :: q in DeleteRequests(ops) ==> q.verb == DELETE
    decreases |ops|
  {
    if ops != [] {
      DeleteRequestsShape(ops[..|ops| - 1]);
    }
  }

  /** Every operation ends up in exactly one list: an unknown protection always as a failure; in
      check mode a found one in none, setting `changed`; otherwise as a deletion (setting
      `changed`) or a failure. */
  lemma {:induction false} ExecuteAccounts(ops: seq<Operation>, start: Exec, checkMode: bool, net: Net)
    ensures var e := Execute(ops, start, checkMode, net);
      |e.failed| + |e.fromProfiles| + |e.deleted| ==
        |start.failed| + |start.fromProfiles| + |start.deleted| + (if checkMode then |ops| - CountFound(ops) else |ops|) &&
      |e.failed| >= |start.failed| + |ops| - CountFound(ops) &&
      |e.fromProfiles| >= |start.fromProfiles| && |e.deleted| >= |start.deleted| &&
      (checkMode ==> e.fromProfiles == start.fromProfiles && e.deleted == start.deleted &&
                     (e.changed <==> start.changed || CountFound(ops) > 0)) &&
      (!checkMode ==> (e.changed <==> start.changed || |e.fromProfiles| + |e.deleted| > |start.fromProfiles| + |start.deleted|))
    decreases |ops|
  {
    if ops != [] {
      ExecuteAccounts(ops[..|ops| - 1], start, checkMode, net);
      DeleteRequestsShape(ops[..|ops| - 1]);
    }
  }

  // ---------------------------------------------------------------------------------------------
  // The module run
  // ---------------------------------------------------------------------------------------------

  datatype RunResult =
    | Failed(msg: string, sent: seq<Request>)
    | Done(changed: bool, fromProfiles: seq<(Value, Value)>, deleted: seq<(Value, Option<Value>)>,
           failed: seq<Failure>, totalAttempted: nat, totalDeleted: nat, totalFailed: nat, sent: seq<Request>)

  function FetchRequest(dp: string): Request
  {
    Request(GET, ConfigPath(dp, AttackTable), None)
  }

  function Run(profileDels: seq<Dict>, protectionDels: seq<Dict>, checkMode: bool, dp: string, net: Net): RunResult
  {
    var sent0 := [FetchRequest(dp)];
    match FetchIdMap(net(0))
    case Err(e) => Failed("Failed to fetch SYN protections: " + e, sent0)
    case Ok(m) =>
      match PlanAll(profileDels, protectionDels, m, dp)
      case Err(e) => Failed(e, sent0)
      case Ok(ops) =>
        var e := Execute(ops, Exec([], [], [], false, sent0), checkMode, net);
        Done(e.changed, e.fromProfiles, e.deleted, e.failed, |ops|, |e.fromProfiles| + |e.deleted|, |e.failed|, e.sent)
  }

  method RunModule(profileDels: seq<Dict>, protectionDels: seq<Dict>, checkMode: bool, dp: string, net: Net)
    returns (res: RunResult)
    ensures res == Run(profileDels, protectionDels, checkMode, dp, net)
  {
    var sent0 := [FetchRequest(dp)];
    var m: IdMap := [];
    var o := net(0);
    if o.Raised? {
      return Failed("Failed to fetch SYN protections: " + o.msg, sent0);
    }
    var r := o.reply;
    if StatusError(r).Some? {
      return Failed("Failed to fetch SYN protections: " + StatusError(r).value, sent0);
    }
    if r.json.None? {
      return Failed("Failed to fetch SYN protections: " + JsonDecodeError, sent0);
    }
    if !r.json.value.VDict? {
      return Failed("Failed to fetch SYN protections: " + NoGet, sent0);
    }
    var rows := Iter(FieldOr(r.json.value, AttackTable, VList([])));
    if rows.None? {
      return Failed("Failed to fetch SYN protections: " + NotIterable, sent0);
    }
    var built := BuildIdMapLoop(rows.value);
    if built.Err? {
      return Failed("Failed to fetch SYN protections: " + built.msg, sent0);
    }
    var plan := PlanOperations(profileDels, protectionDels, built.value, dp);
    if plan.Err? {
      return Failed(plan.msg, sent0);
    }
    var e := ExecuteLoop(plan.value, Exec([], [], [], false, sent0), checkMode, net);
    res := Done(e.changed, e.fromProfiles, e.deleted, e.failed, |plan.value|,
                |e.fromProfiles| + |e.deleted|, |e.failed|, e.sent);
  }

  /** The table is fetched exactly once, first, and every later request is a DELETE; the run
      fails only when the fetch or the planning raised, never because operations failed; the
      summary counts every planned operation, and outside check mode deleted plus failed is the
      number attempted, while check mode sends nothing after the fetch. */
  lemma RunOutcome(profileDels: seq<Dict>, protectionDels: seq<Dict>, checkMode: bool, dp: string, net: Net)
    ensures var r := Run(profileDels, protectionDels, checkMode, dp, net);
      |r.sent| >= 1 && r.sent[0] == FetchRequest(dp) &&
      (forall k :: 1 <= k < |r.sent| ==> r.sent[k].verb == DELETE) &&
      (r.Failed? <==> FetchIdMap(net(0)).Err? || PlanAll(profileDels, protectionDels, FetchIdMap(net(0)).value, dp).Err?) &&
      (r.Done? ==>
         r.totalAttempted == |PlanAll(profileDels, protectionDels, FetchIdMap(net(0)).value, dp).value| &&
         (!checkMode ==> r.totalDeleted + r.totalFailed == r.totalAttempted) &&
         (checkMode ==> r.sent == [FetchRequest(dp)] && r.totalDeleted == 0))
  {
    var sent0 := [FetchRequest(dp)];
    if FetchIdMap(net(0)).Ok? && PlanAll(profileDels, protectionDels, FetchIdMap(net(0)).value, dp).Ok? {
      var ops := PlanAll(profileDels, protectionDels, FetchIdMap(net(0)).value, dp).value;
      var start := Exec([], [], [], false, sent0);
      ExecuteSends(ops, start, checkMode, net);
      ExecuteAccounts(ops, start, checkMode, net);
      DeleteRequestsShape(ops);
      var r := Run(profileDels, protectionDels, checkMode, dp, net);
      forall k | 1 <= k < |r.sent| ensures r.sent[k].verb == DELETE {
        if !checkMode {
          assert r.sent[k] in DeleteRequests(ops);
        }
      }
    }
  }
}

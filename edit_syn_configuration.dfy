/** Editing SYN protections and attaching protections to SYN profiles
    (plugins/modules/edit_syn_configuration.py). A protection that names an index and carries
    something to change is PUT to `rsIDSSYNAttackTable/{index}` with a partial row. Each
    (profile, protection) pair is POSTed to `rsIDSSynProfilesTable/{profile}/{protection}`. Every
    item leaves one entry in `results`, and a failed request is recorded in its entry. Only an
    exception while reading the items fails the module. */
module EditSynConfiguration {
  import opened Py
  import opened Http

  const MissingIndex := "Missing protection index"
  const NothingToUpdate := "No parameters to update"
  const AttackTable := "rsIDSSYNAttackTable"
  const ProfilesTable := "rsIDSSynProfilesTable"
  const PacketReportColumn := "rsIDSSYNAttackPacketReport"

  /** The keys copied unchanged into the row, with their columns, in the source's order. */
  const Copies: seq<(string, string)> :=
    [ ("activation_threshold", "rsIDSSYNAttackActivationThreshold"),
      ("termination_threshold", "rsIDSSYNAttackTerminationThreshold"),
      ("app_port_group", "rsIDSSYNDestinationAppPortGroup") ]

  // ---------------------------------------------------------------------------------------------
  // One protection
  // ---------------------------------------------------------------------------------------------

  /** `PACKET_REPORT_MAP.get(v, 2)`: `enable` is 1, anything else 2; a list or dict cannot be
      looked up. */
  function PacketReportCode(v: Value): Result<Value>
  {
    if !Hashable(v) then Err(Unhashable)
    else if v == VStr("enable") then Ok(VInt(1))
    else Ok(VInt(2))
  }

  /** `if key in prot: body[column] = prot[key]`. */
  function Copied(prot: Dict, key: string, column: string): Dict
  {
    match Get(prot, key)
    case None => []
    case Some(v) => [(column, v)]
  }

  /** The three copied keys' columns, in the source's order. */
  function CopiedRow(prot: Dict): Dict
  {
    Copied(prot, Copies[0].0, Copies[0].1) + Copied(prot, Copies[1].0, Copies[1].1) + Copied(prot, Copies[2].0, Copies[2].1)
  }

  /** The partial row: one column per key the item carries, in the source's order. */
  function ProtBody(prot: Dict): Result<Dict>
  {
    var copied := CopiedRow(prot);
    match Get(prot, "packet_report")
    case None => Ok(copied)
    case Some(v) =>
      match PacketReportCode(v)
      case Err(e) => Err(e)
      case Ok(code) => Ok(copied + [(PacketReportColumn, code)])
  }

  /** What becomes of one protection before any request: it is skipped with the error recorded
      in its entry, or it is ready to be sent. */
  datatype Prepared = Skipped(reason: string) | Ready(index: Value, body: Dict)

  /** `prot.get('index')` (which raises on anything but a dict), then the row. */
  function Prepare(prot: Value): Result<Prepared>
  {
    if !prot.VDict? then Err(NoGet)
    else
      var index := GetOr(prot.entries, "index", VNone);
      if index == VNone then Ok(Skipped(MissingIndex))
      else match ProtBody(prot.entries)
        case Err(e) => Err(e)
        case Ok(body) => if body == [] then Ok(Skipped(NothingToUpdate)) else Ok(Ready(index, body))
  }

  function EditRequest(dp: string, index: Value, body: Dict, render: Value -> string): Request
  {
    Request(PUT, ConfigPath(dp, AttackTable + "/" + render(index)), Some(VDict(body)))
  }

  // ---------------------------------------------------------------------------------------------
  // One pair
  // ---------------------------------------------------------------------------------------------

  function AttachRequest(dp: string, profile: Value, protection: Value, render: Value -> string): Request
  {
    Request(POST, ConfigPath(dp, ProfilesTable + "/" + render(profile) + "/" + render(protection)),
            Some(VDict([("rsIDSSynProfilesName", profile), ("rsIDSSynProfileServiceName", protection)])))
  }

  // ---------------------------------------------------------------------------------------------
  // The results
  // ---------------------------------------------------------------------------------------------

  /** An entry of `results`: `changed`, `response`, the request its `debug_info` describes (none
      for a skipped protection) and the error recorded there. */
  datatype Entry = Entry(changed: bool, response: Value, request: Option<Request>, error: Option<string>)

  function SkipEntry(reason: string): Entry
  {
    Entry(false, VDict([]), None, Some(reason))
  }

  /** The request of one item, sent outside check mode: a reply with a JSON body is a change; an
      exception, or a body that is not JSON, is the item's error. */
  function Attempt(req: Request, checkMode: bool, o: Outcome): Entry
  {
    if checkMode then Entry(false, VDict([]), Some(req), None)
    else match o
      case Raised(e) => Entry(false, VDict([]), Some(req), Some(e))
      case Returned(r) =>
        match JsonOf(r)
        case None => Entry(false, VDict([]), Some(req), Some(JsonDecodeError))
        case Some(data) => Entry(true, data, Some(req), None)
  }

  /** `any_changed`, `result['results']` and the requests sent so far. */
  datatype Batch = Batch(changed: bool, results: seq<Entry>, sent: seq<Request>)

  const NoBatch := Batch(false, [], [])

  /** An item whose request is described: outside check mode it is sent, as request `|b.sent|`. */
  function Send(b: Batch, req: Request, checkMode: bool, net: Net): Batch
  {
    var e := Attempt(req, checkMode, net(|b.sent|));
    Batch(b.changed || e.changed, b.results + [e], if checkMode then b.sent else b.sent + [req])
  }

  function ProtStep(b: Batch, prot: Value, checkMode: bool, dp: string, net: Net, render: Value -> string): Result<Batch>
  {
    match Prepare(prot)
    case Err(e) => Err(e)
    case Ok(Skipped(m)) => Ok(Batch(b.changed, b.results + [SkipEntry(m)], b.sent))
    case Ok(Ready(index, body)) => Ok(Send(b, EditRequest(dp, index, body, render), checkMode, net))
  }

  /** The loop goes on, or an exception has stopped it (with what was done until then). */
  datatype Progress = Going(batch: Batch) | Stopped(msg: string, batch: Batch)

  function Prots(b: Batch, prots: seq<Value>, checkMode: bool, dp: string, net: Net, render: Value -> string): Progress
    decreases |prots|
  {
    if prots == [] then Going(b)
    else match Prots(b, prots[..|prots| - 1], checkMode, dp, net, render)
      case Stopped(m, b1) => Stopped(m, b1)
      case Going(b1) =>
        match ProtStep(b1, prots[|prots| - 1], checkMode, dp, net, render)
        case Err(e) => Stopped(e, b1)
        case Ok(b2) => Going(b2)
  }

  /** The (profile, protection) pairs of one profile, in order. */
  function PairsOf(profile: Value, names: seq<Value>): seq<(Value, Value)>
  {
    seq(|names|, k requires 0 <= k < |names| => (profile, names[k]))
  }

  /** One attach per pair, in order. */
  function AttachPairs(b: Batch, pairs: seq<(Value, Value)>, checkMode: bool, dp: string, net: Net,
                       render: Value -> string): Batch
    decreases |pairs|
  {
    if pairs == [] then b
    else
      var (profile, protection) := pairs[|pairs| - 1];
      Send(AttachPairs(b, pairs[..|pairs| - 1], checkMode, dp, net, render),
           AttachRequest(dp, profile, protection, render), checkMode, net)
  }

  /** `profile['name']` and `profile.get('protections', [])`, which must be iterable. */
  function ProfileNames(profile: Value): Result<(Value, seq<Value>)>
  {
    match Subscript(profile, "name")
    case Err(e) => Err(e)
    case Ok(name) =>
      match Iter(FieldOr(profile, "protections", VList([])))
      case None => Err(NotIterable)
      case Some(names) => Ok((name, names))
  }

  function Profiles(b: Batch, profiles: seq<Value>, checkMode: bool, dp: string, net: Net, render: Value -> string): Progress
    decreases |profiles|
  {
    if profiles == [] then Going(b)
    else match Profiles(b, profiles[..|profiles| - 1], checkMode, dp, net, render)
      case Stopped(m, b1) => Stopped(m, b1)
      case Going(b1) =>
        match ProfileNames(profiles[|profiles| - 1])
        case Err(e) => Stopped(e, b1)
        case Ok((name, names)) => Going(AttachPairs(b1, PairsOf(name, names), checkMode, dp, net, render))
  }

  /** How the module ends: `fail_json` with the message and the results so far (`changed` is
      then still false), or `exit_json` with `changed` and the results; either way with the
      requests sent.  When the handler itself raises, the module ends with that `error` while
      handling the exception whose message is `context`, and reports nothing. */
  datatype RunResult =
    | Failed(msg: string, results: seq<Entry>, sent: seq<Request>)
    | Done(changed: bool, results: seq<Entry>, sent: seq<Request>)
    | Crashed(error: string, context: string, sent: seq<Request>)

  /** The module run as the handler means it. */
  function Intended(prots: seq<Value>, profiles: seq<Value>, checkMode: bool, dp: string, net: Net,
               render: Value -> string := Str): RunResult
  {
    match Prots(NoBatch, prots, checkMode, dp, net, render)
    case Stopped(m, b) => Failed(m, b.results, b.sent)
    case Going(b) =>
      match Profiles(b, profiles, checkMode, dp, net, render)
      case Stopped(m, b1) => Failed(m, b1.results, b1.sent)
      case Going(b1) => Done(b1.changed, b1.results, b1.sent)
  }

  // ---------------------------------------------------------------------------------------------
  // The loops
  // ---------------------------------------------------------------------------------------------

  /** The request of one item and its entry, as the loop bodies build them. */
  method SendOne(b: Batch, req: Request, checkMode: bool, net: Net) returns (r: Batch)
    ensures r == Send(b, req, checkMode, net)
  {
    var entry := Entry(false, VDict([]), Some(req), None);
    var changed := b.changed;
    var sent := b.sent;
    if !checkMode {
      var o := net(|sent|);
      sent := sent + [req];
      if o.Raised? {
        entry := entry.(error := Some(o.msg));
      } else if JsonOf(o.reply).None? {
        entry := entry.(error := Some(JsonDecodeError));
      } else {
        entry := entry.(changed := true, response := JsonOf(o.reply).value);
        changed := true;
      }
    }
    r := Batch(changed, b.results + [entry], sent);
  }

  lemma {:induction false} ProtsStayStopped(b: Batch, prots: seq<Value>, checkMode: bool, dp: string, net: Net,
                                            render: Value -> string, i: nat)
    requires i <= |prots| && Prots(b, prots[..i], checkMode, dp, net, render).Stopped?
    ensures Prots(b, prots, checkMode, dp, net, render) == Prots(b, prots[..i], checkMode, dp, net, render)
    decreases |prots| - i
  {
    if i < |prots| {
      assert prots[..i + 1][..i] == prots[..i];
      ProtsStayStopped(b, prots, checkMode, dp, net, render, i + 1);
    } else {
      assert prots[..i] == prots;
    }
  }

  lemma {:induction false} ProfilesStayStopped(b: Batch, profiles: seq<Value>, checkMode: bool, dp: string, net: Net,
                                               render: Value -> string, i: nat)
    requires i <= |profiles| && Profiles(b, profiles[..i], checkMode, dp, net, render).Stopped?
    ensures Profiles(b, profiles, checkMode, dp, net, render) == Profiles(b, profiles[..i], checkMode, dp, net, render)
    decreases |profiles| - i
  {
    if i < |profiles| {
      assert profiles[..i + 1][..i] == profiles[..i];
      ProfilesStayStopped(b, profiles, checkMode, dp, net, render, i + 1);
    } else {
      assert profiles[..i] == profiles;
    }
  }

  /** Step 1: the protections' loop. */
  method EditProtections(prots: seq<Value>, checkMode: bool, dp: string, net: Net) returns (p: Progress)
    ensures p == Prots(NoBatch, prots, checkMode, dp, net, Str)
  {
    var b := NoBatch;
    var i := 0;
    while i < |prots|
      invariant 0 <= i <= |prots|
      invariant Prots(NoBatch, prots[..i], checkMode, dp, net, Str) == Going(b)
    {
      assert prots[..i + 1][..i] == prots[..i];
      var prep := Prepare(prots[i]);
      if prep.Err? {
        ProtsStayStopped(NoBatch, prots, checkMode, dp, net, Str, i + 1);
        return Stopped(prep.msg, b);
      }
      match prep.value {
        case Skipped(m) =>
          b := Batch(b.changed, b.results + [SkipEntry(m)], b.sent);
        case Ready(index, body) =>
          b := SendOne(b, EditRequest(dp, index, body, Str), checkMode, net);
      }
      i := i + 1;
    }
    assert prots[..i] == prots;
    return Going(b);
  }

  /** Step 2: the profiles' loop, one attach per protection of each profile. */
  method AttachProfiles(b0: Batch, profiles: seq<Value>, checkMode: bool, dp: string, net: Net) returns (p: Progress)
    ensures p == Profiles(b0, profiles, checkMode, dp, net, Str)
  {
    var b := b0;
    var j := 0;
    while j < |profiles|
      invariant 0 <= j <= |profiles|
      invariant Profiles(b0, profiles[..j], checkMode, dp, net, Str) == Going(b)
    {
      assert profiles[..j + 1][..j] == profiles[..j];
      var read := ProfileNames(profiles[j]);
      if read.Err? {
        ProfilesStayStopped(b0, profiles, checkMode, dp, net, Str, j + 1);
        return Stopped(read.msg, b);
      }
      var (name, names) := read.value;
      var b1 := b;
      var k := 0;
      while k < |names|
        invariant 0 <= k <= |names|
        invariant AttachPairs(b1, PairsOf(name, names[..k]), checkMode, dp, net, Str) == b
      {
        assert PairsOf(name, names[..k + 1])[..k] == PairsOf(name, names[..k]);
        b := SendOne(b, AttachRequest(dp, name, names[k], Str), checkMode, net);
        k := k + 1;
      }
      assert names[..k] == names;
      j := j + 1;
    }
    assert profiles[..j] == profiles;
    return Going(b);
  }

  /** The module run as written: `result` already holds `debug_info`, so the handler's
      `fail_json(msg=str(e), debug_info=debug_info, **result)` raises a TypeError while handling
      the exception, and the module ends with that instead of failing with the message. */
  function Run(prots: seq<Value>, profiles: seq<Value>, checkMode: bool, dp: string, net: Net,
               render: Value -> string := Str): RunResult
  {
    var r := Intended(prots, profiles, checkMode, dp, net, render);
    if r.Failed? then Crashed(DebugInfoTwice, r.msg, r.sent) else r
  }

  method RunModule(prots: seq<Value>, profiles: seq<Value>, checkMode: bool, dp: string, net: Net) returns (r: RunResult)
    ensures r == Run(prots, profiles, checkMode, dp, net)
  {
    var p := EditProtections(prots, checkMode, dp, net);
    if p.Stopped? {
      return Crashed(DebugInfoTwice, p.msg, p.batch.sent);
    }
    p := AttachProfiles(p.batch, profiles, checkMode, dp, net);
    if p.Stopped? {
      return Crashed(DebugInfoTwice, p.msg, p.batch.sent);
    }
    return Done(p.batch.changed, p.batch.results, p.batch.sent);
  }

  // ---------------------------------------------------------------------------------------------
  // One protection: what its row holds
  // ---------------------------------------------------------------------------------------------

  /** `enable` is 1 and every other value that can be looked up is 2; only a list or dict
      raises. */
  lemma PacketReportCodes(v: Value)
    ensures PacketReportCode(v).Err? <==> v.VList? || v.VDict?
    ensures PacketReportCode(v) == Ok(VInt(1)) <==> v == VStr("enable")
    ensures PacketReportCode(v).Ok? && v != VStr("enable") ==> PacketReportCode(v) == Ok(VInt(2))
    ensures PacketReportCode(VStr("disable")) == Ok(VInt(2))
  {
  }

  /** The item carries none of the four keys the row is built from. */
  predicate CarriesNothing(prot: Dict)
  {
    (forall i :: 0 <= i < |Copies| ==> Get(prot, Copies[i].0).None?) && Get(prot, "packet_report").None?
  }

  /** The columns a row can hold. */
  const Columns: seq<string> := [Copies[0].1, Copies[1].1, Copies[2].1, PacketReportColumn]

  lemma CopiedGet(prot: Dict, key: string, column: string, k: string)
    ensures Get(Copied(prot, key, column), k) == if k == column then Get(prot, key) else None
    ensures |Copied(prot, key, column)| <= 1
    ensures forall j :: 0 <= j < |Copied(prot, key, column)| ==> Copied(prot, key, column)[j].0 == column
  {
  }

  /** Two dicts with distinct keys, and no key in both, written one after the other keep their
      keys distinct. */
  lemma UniqueKeysAppend(a: Dict, b: Dict)
    requires UniqueKeys(a) && UniqueKeys(b)
    requires forall i, j :: 0 <= i < |a| && 0 <= j < |b| ==> a[i].0 != b[j].0
    ensures UniqueKeys(a + b)
  {
    forall i, j | 0 <= i < j < |a + b| ensures (a + b)[i].0 != (a + b)[j].0 {
      if j < |a| {
      } else if i >= |a| {
        assert (a + b)[i] == b[i - |a|] && (a + b)[j] == b[j - |a|];
      } else {
        assert (a + b)[i] == a[i] && (a + b)[j] == b[j - |a|];
      }
    }
  }

  /** The copied part of the row: each copied key's column holds the item's value, once. */
  lemma CopiedRowShape(prot: Dict)
    ensures UniqueKeys(CopiedRow(prot))
    ensures forall j :: 0 <= j < |CopiedRow(prot)| ==> CopiedRow(prot)[j].0 in Columns[..3]
    ensures forall k :: (Get(CopiedRow(prot), k) ==
                           if k == Columns[0] then Get(prot, Copies[0].0)
                           else if k == Columns[1] then Get(prot, Copies[1].0)
                           else if k == Columns[2] then Get(prot, Copies[2].0) else None)
  {
    var c0 := Copied(prot, Copies[0].0, Copies[0].1);
    var c1 := Copied(prot, Copies[1].0, Copies[1].1);
    var c2 := Copied(prot, Copies[2].0, Copies[2].1);
    assert |Columns[0]| == 33 && |Columns[1]| == 34 && |Columns[2]| == 31;
    forall k ensures Get(CopiedRow(prot), k) ==
      if k == Columns[0] then Get(prot, Copies[0].0)
      else if k == Columns[1] then Get(prot, Copies[1].0)
      else if k == Columns[2] then Get(prot, Copies[2].0) else None
    {
      CopiedGet(prot, Copies[0].0, Copies[0].1, k);
      CopiedGet(prot, Copies[1].0, Copies[1].1, k);
      CopiedGet(prot, Copies[2].0, Copies[2].1, k);
      GetAppend(c0 + c1, c2, k);
      GetAppend(c0, c1, k);
    }
    CopiedGet(prot, Copies[0].0, Copies[0].1, "");
    CopiedGet(prot, Copies[1].0, Copies[1].1, "");
    CopiedGet(prot, Copies[2].0, Copies[2].1, "");
    UniqueKeysAppend(c0, c1);
    UniqueKeysAppend(c0 + c1, c2);
  }

  /** The row raises exactly when `packet_report` is a list or dict. */
  lemma ProtBodyRaises(prot: Dict)
    ensures ProtBody(prot).Err? <==> Get(prot, "packet_report").Some? && !Hashable(Get(prot, "packet_report").value)
  {
  }

  /** A row holds only the four columns, each at most once, and is empty exactly when the item
      carries none of the four keys. */
  lemma ProtBodyKeys(prot: Dict)
    requires ProtBody(prot).Ok?
    ensures UniqueKeys(ProtBody(prot).value)
    ensures forall j :: 0 <= j < |ProtBody(prot).value| ==> ProtBody(prot).value[j].0 in Columns
    ensures ProtBody(prot).value == [] <==> CarriesNothing(prot)
  {
    var copied := CopiedRow(prot);
    CopiedRowShape(prot);
    assert |Columns[0]| == 33 && |Columns[1]| == 34 && |Columns[2]| == 31 && |Columns[3]| == 26;
    assert copied == [] <==> forall i :: 0 <= i < |Copies| ==> Get(prot, Copies[i].0).None? by {
      if copied != [] {
        assert Get(copied, copied[0].0).Some?;
      }
    }
    if Get(prot, "packet_report").Some? {
      var last := [(PacketReportColumn, PacketReportCode(Get(prot, "packet_report").value).value)];
      UniqueKeysAppend(copied, last);
      assert ProtBody(prot).value == copied + last;
    }
  }

  /** A row holds the three copied keys' values unchanged, and `packet_report`'s code: 1 for
      `enable`, 2 otherwise; a column whose key the item does not carry is absent. */
  lemma ProtBodyValues(prot: Dict)
    requires ProtBody(prot).Ok?
    ensures forall i :: 0 <= i < |Copies| ==> Get(ProtBody(prot).value, Copies[i].1) == Get(prot, Copies[i].0)
    ensures Get(ProtBody(prot).value, PacketReportColumn) ==
      match Get(prot, "packet_report")
      case None => None
      case Some(v) => Some(if v == VStr("enable") then VInt(1) else VInt(2))
  {
    var copied := CopiedRow(prot);
    CopiedRowShape(prot);
    assert |Columns[0]| == 33 && |Columns[1]| == 34 && |Columns[2]| == 31 && |Columns[3]| == 26;
    if Get(prot, "packet_report").Some? {
      var last := [(PacketReportColumn, PacketReportCode(Get(prot, "packet_report").value).value)];
      assert ProtBody(prot).value == copied + last;
      GetAppend(copied, last, PacketReportColumn);
      forall i | 0 <= i < |Copies| ensures Get(copied + last, Copies[i].1) == Get(copied, Copies[i].1) {
        GetAppend(copied, last, Copies[i].1);
      }
    }
  }

  /** A protection that is not a dict raises; one without an index (or with `None`) is skipped
      with `Missing protection index`; one with an index raises only for a `packet_report` list
      or dict, is skipped with `No parameters to update` when it carries none of the four keys,
      and is otherwise ready with its index and its row. */
  lemma PrepareOutcome(prot: Value)
    ensures !prot.VDict? ==> Prepare(prot) == Err(NoGet)
    ensures prot.VDict? && GetOr(prot.entries, "index", VNone) == VNone ==> Prepare(prot) == Ok(Skipped(MissingIndex))
    ensures prot.VDict? && GetOr(prot.entries, "index", VNone) != VNone ==>
      var packet := Get(prot.entries, "packet_report");
      (Prepare(prot).Err? <==> packet.Some? && !Hashable(packet.value)) &&
      (Prepare(prot).Ok? ==>
         (Prepare(prot) == Ok(Skipped(NothingToUpdate)) <==> CarriesNothing(prot.entries)) &&
         (!CarriesNothing(prot.entries) ==>
            Prepare(prot) == Ok(Ready(GetOr(prot.entries, "index", VNone), ProtBody(prot.entries).value))))
  {
    if prot.VDict? {
      ProtBodyRaises(prot.entries);
      if ProtBody(prot.entries).Ok? {
        ProtBodyKeys(prot.entries);
      }
    }
  }

  /** An entry records a change exactly when its request was sent and answered with JSON, and
      then holds that JSON; it records an error exactly when its request was sent and was not;
      in check mode it records neither. */
  lemma AttemptMeaning(req: Request, checkMode: bool, o: Outcome)
    ensures Attempt(req, checkMode, o).request == Some(req)
    ensures Attempt(req, checkMode, o).changed <==> !checkMode && o.Returned? && JsonOf(o.reply).Some?
    ensures Attempt(req, checkMode, o).changed ==> Attempt(req, checkMode, o).response == JsonOf(o.reply).value
    ensures !Attempt(req, checkMode, o).changed ==> Attempt(req, checkMode, o).response == VDict([])
    ensures Attempt(req, checkMode, o).error.Some? <==> !checkMode && !(o.Returned? && JsonOf(o.reply).Some?)
    ensures !checkMode && o.Raised? ==> Attempt(req, checkMode, o).error == Some(o.msg)
  {
  }

  // ---------------------------------------------------------------------------------------------
  // What the results account for
  // ---------------------------------------------------------------------------------------------

  /** The requests the entries describe, in order. */
  function RequestsOf(results: seq<Entry>): seq<Request>
    decreases |results|
  {
    if results == [] then []
    else
      var e := results[|results| - 1];
      RequestsOf(results[..|results| - 1]) + if e.request.Some? then [e.request.value] else []
  }

  /** What the loops keep true: outside check mode the requests sent are exactly those the
      entries describe, in order, and check mode sends none; each such entry holds the outcome of
      its own request; every other entry is a skipped protection with its error; and `changed`
      holds exactly when some entry records a change. */
  predicate Accounted(b: Batch, checkMode: bool, net: Net)
  {
    (b.changed <==> exists i :: 0 <= i < |b.results| && b.results[i].changed) &&
    b.sent == (if checkMode then [] else RequestsOf(b.results)) &&
    (forall i :: 0 <= i < |b.results| && b.results[i].request.Some? ==>
       b.results[i] == Attempt(b.results[i].request.value, checkMode, net(|RequestsOf(b.results[..i])|))) &&
    (forall i :: 0 <= i < |b.results| && b.results[i].request.None? ==>
       !b.results[i].changed && b.results[i].error.Some?)
  }

  /** Adding one entry: the earlier entries and their requests stay as they were. */
  lemma RequestsOfAppend(results: seq<Entry>, e: Entry)
    ensures RequestsOf(results + [e]) == RequestsOf(results) + if e.request.Some? then [e.request.value] else []
    ensures forall i :: 0 <= i <= |results| ==> (results + [e])[..i] == results[..i]
  {
    assert (results + [e])[..|results|] == results;
  }

  lemma SendAccounted(b: Batch, req: Request, checkMode: bool, net: Net)
    requires Accounted(b, checkMode, net)
    ensures Accounted(Send(b, req, checkMode, net), checkMode, net)
  {
    var e := Attempt(req, checkMode, net(|b.sent|));
    RequestsOfAppend(b.results, e);
    var b2 := Send(b, req, checkMode, net);
    assert b2.results == b.results + [e];
    assert b2.results[|b.results|] == e;
    assert e == Attempt(req, checkMode, net(|RequestsOf(b.results)|));
    forall i | 0 <= i < |b2.results| && b2.results[i].request.Some?
      ensures b2.results[i] == Attempt(b2.results[i].request.value, checkMode, net(|RequestsOf(b2.results[..i])|))
    {
      if i < |b.results| {
        assert b2.results[i] == b.results[i] && b2.results[..i] == b.results[..i];
      }
    }
    if checkMode {
      assert !e.changed;
    }
  }

  lemma SkipAccounted(b: Batch, m: string, checkMode: bool, net: Net)
    requires Accounted(b, checkMode, net)
    ensures Accounted(Batch(b.changed, b.results + [SkipEntry(m)], b.sent), checkMode, net)
  {
    RequestsOfAppend(b.results, SkipEntry(m));
  }

  lemma {:induction false} ProtsAccounted(b: Batch, prots: seq<Value>, checkMode: bool, dp: string, net: Net, render: Value -> string)
    requires Accounted(b, checkMode, net)
    ensures Accounted(Prots(b, prots, checkMode, dp, net, render).batch, checkMode, net)
    decreases |prots|
  {
    if prots != [] {
      var n := |prots| - 1;
      ProtsAccounted(b, prots[..n], checkMode, dp, net, render);
      var p := Prots(b, prots[..n], checkMode, dp, net, render);
      if p.Going? {
        match Prepare(prots[n]) {
          case Err(_) =>
          case Ok(Skipped(m)) => SkipAccounted(p.batch, m, checkMode, net);
          case Ok(Ready(index, body)) => SendAccounted(p.batch, EditRequest(dp, index, body, render), checkMode, net);
        }
      }
    }
  }

  lemma {:induction false} AttachPairsAccounted(b: Batch, pairs: seq<(Value, Value)>, checkMode: bool, dp: string, net: Net, render: Value -> string)
    requires Accounted(b, checkMode, net)
    ensures Accounted(AttachPairs(b, pairs, checkMode, dp, net, render), checkMode, net)
    decreases |pairs|
  {
    if pairs != [] {
      var n := |pairs| - 1;
      AttachPairsAccounted(b, pairs[..n], checkMode, dp, net, render);
      SendAccounted(AttachPairs(b, pairs[..n], checkMode, dp, net, render), AttachRequest(dp, pairs[n].0, pairs[n].1, render), checkMode, net);
    }
  }

  lemma {:induction false} ProfilesAccounted(b: Batch, profiles: seq<Value>, checkMode: bool, dp: string, net: Net, render: Value -> string)
    requires Accounted(b, checkMode, net)
    ensures Accounted(Profiles(b, profiles, checkMode, dp, net, render).batch, checkMode, net)
    decreases |profiles|
  {
    if profiles != [] {
      var n := |profiles| - 1;
      ProfilesAccounted(b, profiles[..n], checkMode, dp, net, render);
      var p := Profiles(b, profiles[..n], checkMode, dp, net, render);
      if p.Going? && ProfileNames(profiles[n]).Ok? {
        var (name, names) := ProfileNames(profiles[n]).value;
        AttachPairsAccounted(p.batch, PairsOf(name, names), checkMode, dp, net, render);
      }
    }
  }

  /** However the run meant ends: outside check mode it has sent exactly the requests its entries
      describe, in order, and each such entry records the outcome of its own request; check
      mode sends nothing and no entry records a change; a skipped protection records its error
      and no change; and a completed run reports a change exactly when some entry records one. */
  lemma IntendedAccounted(prots: seq<Value>, profiles: seq<Value>, checkMode: bool, dp: string, net: Net, render: Value -> string)
    ensures var r := Intended(prots, profiles, checkMode, dp, net, render);
      r.sent == (if checkMode then [] else RequestsOf(r.results)) &&
      (checkMode ==> forall i :: 0 <= i < |r.results| ==> !r.results[i].changed) &&
      (forall i :: 0 <= i < |r.results| && r.results[i].request.Some? ==>
         r.results[i] == Attempt(r.results[i].request.value, checkMode, net(|RequestsOf(r.results[..i])|))) &&
      (forall i :: 0 <= i < |r.results| && r.results[i].request.None? ==>
         !r.results[i].changed && r.results[i].error.Some?) &&
      (r.Done? ==> (r.changed <==> exists i :: 0 <= i < |r.results| && r.results[i].changed))
  {
    ProtsAccounted(NoBatch, prots, checkMode, dp, net, render);
    var p := Prots(NoBatch, prots, checkMode, dp, net, render);
    if p.Going? {
      ProfilesAccounted(p.batch, profiles, checkMode, dp, net, render);
    }
  }

  /** As written: however the module ends, it has sent exactly the requests of the entries the
      run meant holds, in order.  A completed run is the one meant: each entry records the
      outcome of its own request, and `changed` holds exactly when some entry records a change.
      A run that does not complete ends with the handler's TypeError, raised while handling the
      exception that stopped it, and reports no entries. */
  lemma RunAccounted(prots: seq<Value>, profiles: seq<Value>, checkMode: bool, dp: string, net: Net, render: Value -> string)
    ensures var r, m := Run(prots, profiles, checkMode, dp, net, render), Intended(prots, profiles, checkMode, dp, net, render);
      r.sent == m.sent == (if checkMode then [] else RequestsOf(m.results)) &&
      (r.Done? ==>
         r == m &&
         (forall i :: 0 <= i < |r.results| && r.results[i].request.Some? ==>
            r.results[i] == Attempt(r.results[i].request.value, checkMode, net(|RequestsOf(r.results[..i])|))) &&
         (r.changed <==> exists i :: 0 <= i < |r.results| && r.results[i].changed)) &&
      (!r.Done? ==> m.Failed? && r == Crashed(DebugInfoTwice, m.msg, m.sent))
  {
    IntendedAccounted(prots, profiles, checkMode, dp, net, render);
  }

  // ---------------------------------------------------------------------------------------------
  // One entry per item
  // ---------------------------------------------------------------------------------------------

  /** The protections' loop runs to the end exactly when every protection can be read. */
  lemma {:induction false} ProtsGoing(b: Batch, prots: seq<Value>, checkMode: bool, dp: string, net: Net, render: Value -> string)
    ensures Prots(b, prots, checkMode, dp, net, render).Going? <==> forall i :: 0 <= i < |prots| ==> Prepare(prots[i]).Ok?
    decreases |prots|
  {
    if prots != [] {
      var n := |prots| - 1;
      ProtsGoing(b, prots[..n], checkMode, dp, net, render);
      assert forall i :: 0 <= i < n ==> prots[..n][i] == prots[i];
    }
  }

  /** The first protection that cannot be read stops the loop with its exception, keeping what
      the protections before it did. */
  lemma {:induction false} ProtsStops(b: Batch, prots: seq<Value>, checkMode: bool, dp: string, net: Net, render: Value -> string, i: nat)
    requires i < |prots| && Prepare(prots[i]).Err?
    requires forall j :: 0 <= j < i ==> Prepare(prots[j]).Ok?
    ensures Prots(b, prots, checkMode, dp, net, render) ==
      Stopped(Prepare(prots[i]).msg, Prots(b, prots[..i], checkMode, dp, net, render).batch)
    decreases |prots|
  {
    var n := |prots| - 1;
    if i == n {
      ProtsGoing(b, prots[..n], checkMode, dp, net, render);
      assert forall j :: 0 <= j < n ==> prots[..n][j] == prots[j];
    } else {
      ProtsStops(b, prots[..n], checkMode, dp, net, render, i);
      assert prots[..n][..i] == prots[..i];
    }
  }

  /** What the entry of one prepared protection is: a skipped one's its error, a ready one's
      the outcome of the request for its own index and row. */
  predicate EntryFor(e: Entry, p: Prepared, dp: string, render: Value -> string)
  {
    match p
    case Skipped(m) => e == SkipEntry(m)
    case Ready(index, body) => e.request == Some(EditRequest(dp, index, body, render))
  }

  lemma ProtStepEntry(b: Batch, prot: Value, checkMode: bool, dp: string, net: Net, render: Value -> string)
    requires ProtStep(b, prot, checkMode, dp, net, render).Ok?
    ensures var r := ProtStep(b, prot, checkMode, dp, net, render).value.results;
      |r| == |b.results| + 1 && r[..|b.results|] == b.results && EntryFor(r[|b.results|], Prepare(prot).value, dp, render)
  {
  }

  /** A loop over protections that went to the end went to the end before its last one, and
      then took one more step. */
  lemma ProtsLast(b: Batch, prots: seq<Value>, checkMode: bool, dp: string, net: Net, render: Value -> string)
    requires prots != [] && Prots(b, prots, checkMode, dp, net, render).Going?
    ensures var p := Prots(b, prots[..|prots| - 1], checkMode, dp, net, render);
      p.Going? && ProtStep(p.batch, prots[|prots| - 1], checkMode, dp, net, render) ==
        Ok(Prots(b, prots, checkMode, dp, net, render).batch)
  {
  }

  /** Each protection leaves one entry, in order, the one its preparation calls for. */
  lemma {:induction false} ProtsEntries(b: Batch, prots: seq<Value>, checkMode: bool, dp: string, net: Net, render: Value -> string)
    requires Prots(b, prots, checkMode, dp, net, render).Going?
    ensures var r := Prots(b, prots, checkMode, dp, net, render).batch.results;
      |r| == |b.results| + |prots| && r[..|b.results|] == b.results &&
      forall i :: 0 <= i < |prots| ==> (Prepare(prots[i]).Ok? && EntryFor(r[|b.results| + i], Prepare(prots[i]).value, dp, render))
    decreases |prots|
  {
    if prots != [] {
      var n := |prots| - 1;
      var b1 := Prots(b, prots[..n], checkMode, dp, net, render).batch;
      ProtsLast(b, prots, checkMode, dp, net, render);
      ProtsEntries(b, prots[..n], checkMode, dp, net, render);
      ProtStepEntry(b1, prots[n], checkMode, dp, net, render);
      var r := ProtStep(b1, prots[n], checkMode, dp, net, render).value.results;
      assert r[..|b1.results|] == b1.results;
      forall i | 0 <= i < n
        ensures Prepare(prots[i]).Ok? && EntryFor(r[|b.results| + i], Prepare(prots[i]).value, dp, render)
      {
        assert prots[..n][i] == prots[i];
        assert r[|b.results| + i] == b1.results[|b.results| + i];
      }
    }
  }

  /** The (profile, protection) pairs of all profiles, in order, or the exception of the first
      profile that cannot be read. */
  function Pairs(profiles: seq<Value>): Result<seq<(Value, Value)>>
    decreases |profiles|
  {
    if profiles == [] then Ok([])
    else match Pairs(profiles[..|profiles| - 1])
      case Err(e) => Err(e)
      case Ok(ps) =>
        match ProfileNames(profiles[|profiles| - 1])
        case Err(e) => Err(e)
        case Ok((name, names)) => Ok(ps + PairsOf(name, names))
  }

  lemma {:induction false} AttachPairsAppend(b: Batch, p: seq<(Value, Value)>, q: seq<(Value, Value)>, checkMode: bool,
                                              dp: string, net: Net, render: Value -> string)
    ensures AttachPairs(b, p + q, checkMode, dp, net, render) ==
      AttachPairs(AttachPairs(b, p, checkMode, dp, net, render), q, checkMode, dp, net, render)
    decreases |q|
  {
    if q == [] {
      assert p + q == p;
    } else {
      var n := |q| - 1;
      assert (p + q)[..|p + q| - 1] == p + q[..n];
      AttachPairsAppend(b, p, q[..n], checkMode, dp, net, render);
    }
  }

  /** The profiles' loop runs to the end exactly when every profile can be read, and then it has
      attached every pair of every profile, in order; otherwise it stops with the first
      exception. */
  lemma {:induction false} ProfilesPairs(b: Batch, profiles: seq<Value>, checkMode: bool, dp: string, net: Net, render: Value -> string)
    ensures Profiles(b, profiles, checkMode, dp, net, render).Going? <==> Pairs(profiles).Ok?
    ensures Pairs(profiles).Ok? ==>
      Profiles(b, profiles, checkMode, dp, net, render).batch == AttachPairs(b, Pairs(profiles).value, checkMode, dp, net, render)
    ensures Pairs(profiles).Err? ==> Profiles(b, profiles, checkMode, dp, net, render).msg == Pairs(profiles).msg
    decreases |profiles|
  {
    if profiles != [] {
      var n := |profiles| - 1;
      ProfilesPairs(b, profiles[..n], checkMode, dp, net, render);
      if Pairs(profiles[..n]).Ok? && ProfileNames(profiles[n]).Ok? {
        var (name, names) := ProfileNames(profiles[n]).value;
        AttachPairsAppend(b, Pairs(profiles[..n]).value, PairsOf(name, names), checkMode, dp, net, render);
      }
    }
  }

  /** The entry each pair leaves when the pairs' requests are numbered from `from`. */
  function PairEntries(pairs: seq<(Value, Value)>, checkMode: bool, dp: string, net: Net, from: nat, render: Value -> string): (r: seq<Entry>)
    ensures |r| == |pairs|
  {
    seq(|pairs|, k requires 0 <= k < |pairs| =>
      Attempt(AttachRequest(dp, pairs[k].0, pairs[k].1, render), checkMode, net(from + k)))
  }

  /** One POST per pair, in order. */
  function PairRequests(pairs: seq<(Value, Value)>, dp: string, render: Value -> string): (r: seq<Request>)
    ensures |r| == |pairs|
  {
    seq(|pairs|, k requires 0 <= k < |pairs| => AttachRequest(dp, pairs[k].0, pairs[k].1, render))
  }

  /** Attaching pairs adds one entry per pair, each with the outcome of its own POST, and sends
      one POST per pair outside check mode and none in it. */
  lemma {:induction false} AttachPairsShape(b: Batch, pairs: seq<(Value, Value)>, checkMode: bool, dp: string, net: Net, render: Value -> string)
    ensures AttachPairs(b, pairs, checkMode, dp, net, render).results == b.results + PairEntries(pairs, checkMode, dp, net, |b.sent|, render)
    ensures AttachPairs(b, pairs, checkMode, dp, net, render).sent == b.sent + (if checkMode then [] else PairRequests(pairs, dp, render))
    decreases |pairs|
  {
    if pairs == [] {
      assert b.results + [] == b.results && b.sent + [] == b.sent;
    } else {
      var n := |pairs| - 1;
      AttachPairsShape(b, pairs[..n], checkMode, dp, net, render);
      var b1 := AttachPairs(b, pairs[..n], checkMode, dp, net, render);
      var req := AttachRequest(dp, pairs[n].0, pairs[n].1, render);
      assert Attempt(req, checkMode, net(|b1.sent|)) == Attempt(req, checkMode, net(|b.sent| + n));
      assert PairEntries(pairs, checkMode, dp, net, |b.sent|, render) ==
        PairEntries(pairs[..n], checkMode, dp, net, |b.sent|, render) + [Attempt(req, checkMode, net(|b.sent| + n))];
      if !checkMode {
        assert PairRequests(pairs, dp, render) == PairRequests(pairs[..n], dp, render) + [req];
      }
    }
  }

  /** The module completes exactly when every protection and every profile can be read. It then
      holds one entry per protection, followed by one per (profile, protection) pair, each pair's
      entry with the outcome of its own POST; outside check mode those POSTs are the last
      requests sent, one per pair, in order. */
  lemma RunDone(prots: seq<Value>, profiles: seq<Value>, checkMode: bool, dp: string, net: Net, render: Value -> string)
    ensures Run(prots, profiles, checkMode, dp, net, render).Done? <==>
      (forall i :: 0 <= i < |prots| ==> Prepare(prots[i]).Ok?) && Pairs(profiles).Ok?
    ensures Run(prots, profiles, checkMode, dp, net, render).Done? ==>
      var r := Run(prots, profiles, checkMode, dp, net, render);
      var b := Prots(NoBatch, prots, checkMode, dp, net, render).batch;
      var pairs := Pairs(profiles).value;
      |r.results| == |prots| + |pairs| && r.results[..|prots|] == b.results &&
      r.results[|prots|..] == PairEntries(pairs, checkMode, dp, net, |b.sent|, render) &&
      r.sent == b.sent + (if checkMode then [] else PairRequests(pairs, dp, render))
  {
    ProtsGoing(NoBatch, prots, checkMode, dp, net, render);
    var p := Prots(NoBatch, prots, checkMode, dp, net, render);
    if p.Going? {
      ProtsEntries(NoBatch, prots, checkMode, dp, net, render);
      ProfilesPairs(p.batch, profiles, checkMode, dp, net, render);
      if Pairs(profiles).Ok? {
        AttachPairsShape(p.batch, Pairs(profiles).value, checkMode, dp, net, render);
      }
    }
  }
}

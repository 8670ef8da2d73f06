/** Creating connection-limit protections and profiles in one run
    (plugins/modules/create_cl_configuration.py).  Outside check mode every protection is mapped
    to a full seven-word row and POSTed to `rsIDSConnectionLimitAttackTable/{index}`, each after
    the first preceded by a refresh GET whose outcome is ignored; then every (profile, protection)
    pair is POSTed to `rsIDSConnectionLimitProfileTable/{profile}/{protection}`.  The first
    exception ends the whole run. */
module CreateClConfiguration {
  import opened Py
  import opened Http
  import opened Tables
  import opened ConnectionLimit

  const ProfileTable := "rsIDSConnectionLimitProfileTable"

  // ---------------------------------------------------------------------------------------------
  // map_protection_parameters
  // ---------------------------------------------------------------------------------------------

  /** `MAP.get(v, fallback)`: the listed code, the fallback for any other hashable value, and the
      `TypeError` of a list or a dict. */
  function MapGet(t: Table, v: Value, fallback: string): Result<string>
  {
    match Code(t, v)
    case Err(e) => Err(e)
    case Ok(None) => Ok(fallback)
    case Ok(Some(c)) => Ok(c)
  }

  /** The code a word maps to: its table's code when it is spelled as a listed word, the
      fallback otherwise. */
  predicate MapsTo(t: Table, v: Value, fallback: string, code: string)
  {
    (v.VStr? && v.s in Keys(t) ==> (v.s, code) in t) &&
    (!(v.VStr? && v.s in Keys(t)) ==> code == fallback)
  }

  lemma MapGetExact(t: Table, v: Value, fallback: string)
    ensures MapGet(t, v, fallback).Err? <==> !Hashable(v)
    ensures MapGet(t, v, fallback).Ok? ==> MapsTo(t, v, fallback, MapGet(t, v, fallback).value)
  {
    CodeExact(t, v);
  }

  /** `MAP.get(protection.get(key, default), fallback)`. */
  function Word(p: Dict, key: string, t: Table, default: string, fallback: string): Result<string>
  {
    MapGet(t, GetOr(p, key, VStr(default)), fallback)
  }

  /** The five word-to-code tables the mapping looks words up in. */
  datatype Vocabulary = Vocabulary(protocols: Table, tracking: Table, actions: Table, packetReports: Table, attackTypes: Table)

  /** The tables of plugins/modules/create_cl_configuration.py, the same as the other
      connection-limit modules'. */
  const Maps := Vocabulary(Protocols, TrackingTypes, Actions, PacketReports, AttackTypes)

  /** The row as `map_protection_parameters` writes it, from the protection's name, its entries
      and the five codes. */
  function Row(name: Value, p: Dict, protocol: string, tracking: string, action: string,
               packetReport: string, attackType: string): Dict
  {
    [ (Column("Name"), name),
      (Column("Protocol"), VStr(protocol)),
      (Column("AppPort"), GetOr(p, "app_port_group", VStr(""))),
      (Column("Threshold"), VStr(Str(GetOr(p, "threshold", VStr("50"))))),
      (Column("TrackingType"), VStr(tracking)),
      (Column("ReportMode"), VStr(action)),
      (Column("PacketReport"), VStr(packetReport)),
      (Column("Type"), VStr(attackType)) ]
  }

  /** The row POSTed for one protection, or the exception raised while building it: a protection
      that is not a dict or has no `name`, or a word value that cannot be a dict key. */
  function MapParameters(protection: Value, m: Vocabulary := Maps): Result<Dict>
  {
    match Subscript(protection, "name")
    case Err(e) => Err(e)
    case Ok(name) =>
      var p := protection.entries;
      match Word(p, "protocol", m.protocols, "tcp", "2")
      case Err(e) => Err(e)
      case Ok(protocol) =>
        match Word(p, "tracking_type", m.tracking, "dst_ip", "3")
        case Err(e) => Err(e)
        case Ok(tracking) =>
          match Word(p, "action", m.actions, "drop", "10")
          case Err(e) => Err(e)
          case Ok(action) =>
            match Word(p, "packet_report", m.packetReports, "disable", "2")
            case Err(e) => Err(e)
            case Ok(packetReport) =>
              match Word(p, "protection_type", m.attackTypes, "cps", "1")
              case Err(e) => Err(e)
              case Ok(attackType) => Ok(Row(name, p, protocol, tracking, action, packetReport, attackType))
  }

  /** The five word parameters of a protection. */
  const WordKeys := ["protocol", "tracking_type", "action", "packet_report", "protection_type"]

  const MappedColumns := [Column("Name"), Column("Protocol"), Column("AppPort"), Column("Threshold"),
                          Column("TrackingType"), Column("ReportMode"), Column("PacketReport"), Column("Type")]

  /** A word raises exactly when the value given for it cannot be a dict key. */
  lemma WordRaises(p: Dict, key: string, t: Table, default: string, fallback: string)
    ensures Word(p, key, t, default, fallback).Err? <==> !Hashable(GetOr(p, key, VNone))
    ensures Word(p, key, t, default, fallback).Ok? ==>
      MapsTo(t, GetOr(p, key, VStr(default)), fallback, Word(p, key, t, default, fallback).value)
  {
    MapGetExact(t, GetOr(p, key, VStr(default)), fallback);
  }

  /** The mapping succeeds exactly when the protection is a dict with a `name` whose word values
      can all be dict keys. */
  lemma MapParametersRaises(protection: Value, m: Vocabulary)
    ensures MapParameters(protection, m).Ok? <==>
      protection.VDict? && "name" in Keys(protection.entries) &&
      forall k :: k in WordKeys ==> Hashable(GetOr(protection.entries, k, VNone))
  {
    if protection.VDict? {
      var p := protection.entries;
      GetSome(p, "name");
      WordRaises(p, "protocol", m.protocols, "tcp", "2");
      WordRaises(p, "tracking_type", m.tracking, "dst_ip", "3");
      WordRaises(p, "action", m.actions, "drop", "10");
      WordRaises(p, "packet_report", m.packetReports, "disable", "2");
      WordRaises(p, "protection_type", m.attackTypes, "cps", "1");
      assert (forall k :: k in WordKeys ==> Hashable(GetOr(p, k, VNone))) <==>
        Hashable(GetOr(p, "protocol", VNone)) && Hashable(GetOr(p, "tracking_type", VNone)) &&
        Hashable(GetOr(p, "action", VNone)) && Hashable(GetOr(p, "packet_report", VNone)) &&
        Hashable(GetOr(p, "protection_type", VNone));
    }
  }

  /** A mapped protection has the eight columns, each once. */
  lemma MapParametersShape(protection: Value, m: Vocabulary)
    requires MapParameters(protection, m).Ok?
    ensures Keys(MapParameters(protection, m).value) == MappedColumns && UniqueKeys(MapParameters(protection, m).value)
  {
    var p := protection.entries;
    var w := MapParameters(protection, m).value;
    assert w == Row(Subscript(protection, "name").value, p, w[1].1.s, w[4].1.s, w[5].1.s, w[6].1.s, w[7].1.s);
    RowShape(Subscript(protection, "name").value, p, w[1].1.s, w[4].1.s, w[5].1.s, w[6].1.s, w[7].1.s);
  }

  /** The row has the eight columns, each once. */
  lemma RowShape(name: Value, p: Dict, protocol: string, tracking: string, action: string,
                 packetReport: string, attackType: string)
    ensures var r := Row(name, p, protocol, tracking, action, packetReport, attackType);
      Keys(r) == MappedColumns && UniqueKeys(r)
  {
    var r := Row(name, p, protocol, tracking, action, packetReport, attackType);
    KeysLength(r);
    EditSuffixesDistinct();
    assert forall i :: 0 <= i < |r| ==> r[i].0 == Column(EditParams[i].suffix);
    forall i, j | 0 <= i < j < |r| ensures r[i].0 != r[j].0 {
      if r[i].0 == r[j].0 {
        ColumnInjective(EditParams[i].suffix, EditParams[j].suffix);
      }
    }
  }

  /** Each column of the row holds the value it was written with. */
  lemma RowValues(name: Value, p: Dict, protocol: string, tracking: string, action: string,
                  packetReport: string, attackType: string)
    ensures var r := Row(name, p, protocol, tracking, action, packetReport, attackType);
      Get(r, Column("Name")) == Some(name) &&
      Get(r, Column("Protocol")) == Some(VStr(protocol)) &&
      Get(r, Column("AppPort")) == Some(GetOr(p, "app_port_group", VStr(""))) &&
      Get(r, Column("Threshold")) == Some(VStr(Str(GetOr(p, "threshold", VStr("50"))))) &&
      Get(r, Column("TrackingType")) == Some(VStr(tracking)) &&
      Get(r, Column("ReportMode")) == Some(VStr(action)) &&
      Get(r, Column("PacketReport")) == Some(VStr(packetReport)) &&
      Get(r, Column("Type")) == Some(VStr(attackType))
  {
    var r := Row(name, p, protocol, tracking, action, packetReport, attackType);
    RowShape(name, p, protocol, tracking, action, packetReport, attackType);
    GetUnique(r, 0);
    GetUnique(r, 1);
    GetUnique(r, 2);
    GetUnique(r, 3);
    GetUnique(r, 4);
    GetUnique(r, 5);
    GetUnique(r, 6);
    GetUnique(r, 7);
  }

  /** The column `col` of a row holds a word's code. */
  predicate Coded(r: Dict, col: string, t: Table, v: Value, fallback: string)
  {
    Get(r, col).Some? && Get(r, col).value.VStr? && MapsTo(t, v, fallback, Get(r, col).value.s)
  }

  /** What each column holds: the name, the application port group (empty by default) and the
      threshold as a string (50 by default) pass through, and each word becomes its table's code,
      or its fallback code when it is not listed. */
  lemma MapParametersValues(protection: Value, m: Vocabulary)
    requires MapParameters(protection, m).Ok?
    ensures var r := MapParameters(protection, m).value;
      var p := protection.entries;
      Get(r, Column("Name")) == Get(p, "name") &&
      Get(r, Column("AppPort")) == Some(GetOr(p, "app_port_group", VStr(""))) &&
      Get(r, Column("Threshold")) == Some(VStr(Str(GetOr(p, "threshold", VStr("50"))))) &&
      Coded(r, Column("Protocol"), m.protocols, GetOr(p, "protocol", VStr("tcp")), "2") &&
      Coded(r, Column("TrackingType"), m.tracking, GetOr(p, "tracking_type", VStr("dst_ip")), "3") &&
      Coded(r, Column("ReportMode"), m.actions, GetOr(p, "action", VStr("drop")), "10") &&
      Coded(r, Column("PacketReport"), m.packetReports, GetOr(p, "packet_report", VStr("disable")), "2") &&
      Coded(r, Column("Type"), m.attackTypes, GetOr(p, "protection_type", VStr("cps")), "1")
  {
    var p := protection.entries;
    var protocol := Word(p, "protocol", m.protocols, "tcp", "2");
    var tracking := Word(p, "tracking_type", m.tracking, "dst_ip", "3");
    var action := Word(p, "action", m.actions, "drop", "10");
    var packetReport := Word(p, "packet_report", m.packetReports, "disable", "2");
    var attackType := Word(p, "protection_type", m.attackTypes, "cps", "1");
    assert MapParameters(protection, m) ==
      Ok(Row(Subscript(protection, "name").value, p, protocol.value, tracking.value, action.value,
             packetReport.value, attackType.value));
    WordRaises(p, "protocol", m.protocols, "tcp", "2");
    WordRaises(p, "tracking_type", m.tracking, "dst_ip", "3");
    WordRaises(p, "action", m.actions, "drop", "10");
    WordRaises(p, "packet_report", m.packetReports, "disable", "2");
    WordRaises(p, "protection_type", m.attackTypes, "cps", "1");
    RowValues(Subscript(protection, "name").value, p, protocol.value, tracking.value, action.value,
              packetReport.value, attackType.value);
  }

  /** The keys a protection may leave out. */
  const OptionalKeys := WordKeys + ["app_port_group", "threshold"]

  /** A protection that gives only its name (and perhaps keys the mapping does not read) is
      mapped to tcp 2, no application port group, threshold "50", dst_ip 3, drop 10, disable 2
      and cps 1. */
  lemma MapDefaults(protection: Value)
    requires protection.VDict? && "name" in Keys(protection.entries)
    requires forall k :: k in OptionalKeys ==> k !in Keys(protection.entries)
    ensures MapParameters(protection) ==
      Ok([ (Column("Name"), GetOr(protection.entries, "name", VNone)), (Column("Protocol"), VStr("2")),
           (Column("AppPort"), VStr("")), (Column("Threshold"), VStr("50")), (Column("TrackingType"), VStr("3")),
           (Column("ReportMode"), VStr("10")), (Column("PacketReport"), VStr("2")), (Column("Type"), VStr("1")) ])
  {
    TableDefaults();
    MapDefaultsWith(protection, Maps);
  }

  lemma MapDefaultsWith(protection: Value, m: Vocabulary)
    requires protection.VDict? && "name" in Keys(protection.entries)
    requires forall k :: k in OptionalKeys ==> k !in Keys(protection.entries)
    requires Get(m.protocols, "tcp") == Some("2") && Get(m.tracking, "dst_ip") == Some("3") &&
             Get(m.actions, "drop") == Some("10") && Get(m.packetReports, "disable") == Some("2") &&
             Get(m.attackTypes, "cps") == Some("1")
    ensures MapParameters(protection, m) ==
      Ok([ (Column("Name"), GetOr(protection.entries, "name", VNone)), (Column("Protocol"), VStr("2")),
           (Column("AppPort"), VStr("")), (Column("Threshold"), VStr("50")), (Column("TrackingType"), VStr("3")),
           (Column("ReportMode"), VStr("10")), (Column("PacketReport"), VStr("2")), (Column("Type"), VStr("1")) ])
  {
    var p := protection.entries;
    GetSome(p, "name");
    var ks := OptionalKeys;
    assert ks[0] in ks && ks[1] in ks && ks[2] in ks && ks[3] in ks && ks[4] in ks && ks[5] in ks && ks[6] in ks;
    GetSome(p, ks[0]);
    GetSome(p, ks[1]);
    GetSome(p, ks[2]);
    GetSome(p, ks[3]);
    GetSome(p, ks[4]);
    GetSome(p, ks[5]);
    GetSome(p, ks[6]);
    WordDefault(p, "protocol", m.protocols, "tcp", "2", "2");
    WordDefault(p, "tracking_type", m.tracking, "dst_ip", "3", "3");
    WordDefault(p, "action", m.actions, "drop", "10", "10");
    WordDefault(p, "packet_report", m.packetReports, "disable", "2", "2");
    WordDefault(p, "protection_type", m.attackTypes, "cps", "1", "1");
  }

  /** Each default word is listed, and its code is its fallback. */
  lemma TableDefaults()
    ensures Get(Protocols, "tcp") == Some("2") && Get(TrackingTypes, "dst_ip") == Some("3") &&
            Get(Actions, "drop") == Some("10") && Get(PacketReports, "disable") == Some("2") &&
            Get(AttackTypes, "cps") == Some("1")
  {
    assert TrackingTypes[0].0[|TrackingTypes[0].0| - 1] != 't';
    assert Actions[0].0[0] != 'd';
    assert PacketReports[0].0[0] != 'd';
  }

  /** A word left out maps through its default. */
  lemma WordDefault(p: Dict, key: string, t: Table, default: string, fallback: string, code: string)
    requires Get(p, key) == None && Get(t, default) == Some(code)
    ensures Word(p, key, t, default, fallback) == Ok(code)
  {
  }

  // ---------------------------------------------------------------------------------------------
  // The run: protections, then profiles
  // ---------------------------------------------------------------------------------------------

  /** An entry of `created_protections` and one of `created_profiles`. */
  datatype Created = Created(name: Value, index: Value, response: Value)
  datatype Attached = Attached(profileName: Value, protectionName: Value, response: Value)

  /** What the run has built so far, and the requests it has sent. */
  datatype State = State(created: seq<Created>, attached: seq<Attached>, sent: seq<Request>)

  /** The run carries on, or an exception has ended it (with the requests sent until then). */
  datatype Progress = Going(state: State) | Aborted(msg: string, sent: seq<Request>)

  function CreateRequest(dp: string, index: Value, body: Dict, render: Value -> string): Request
  {
    Request(POST, ConfigPath(dp, AttackTable + "/" + render(index)), Some(VDict(body)))
  }

  function AttachRequest(dp: string, profile: Value, protection: Value, render: Value -> string): Request
  {
    Request(POST, ConfigPath(dp, ProfileTable + "/" + render(profile) + "/" + render(protection)),
            Some(VDict([("rsIDSConnectionLimitProfileName", profile), ("rsIDSConnectionLimitProfileAttackName", protection)])))
  }

  /** `for x in xs` over a run that stops at the first exception; the step learns x's position. */
  function Fold<T>(s: State, xs: seq<T>, step: (State, nat, T) -> Progress): Progress
    decreases |xs|
  {
    if xs == [] then Going(s)
    else match Fold(s, xs[..|xs| - 1], step)
      case Aborted(m, sent) => Aborted(m, sent)
      case Going(s') => step(s', |xs| - 1, xs[|xs| - 1])
  }

  lemma {:induction false} FoldStaysAborted<T>(s: State, xs: seq<T>, step: (State, nat, T) -> Progress, i: nat)
    requires i <= |xs| && Fold(s, xs[..i], step).Aborted?
    ensures Fold(s, xs, step) == Fold(s, xs[..i], step)
    decreases |xs| - i
  {
    if i < |xs| {
      assert xs[..i + 1][..i] == xs[..i];
      FoldStaysAborted(s, xs, step, i + 1);
    } else {
      assert xs[..i] == xs;
    }
  }

  /** The last element's step, after the steps of the ones before it. */
  lemma FoldLast<T>(s: State, xs: seq<T>, step: (State, nat, T) -> Progress)
    requires xs != []
    ensures var r0 := Fold(s, xs[..|xs| - 1], step);
      Fold(s, xs, step) == if r0.Aborted? then r0 else step(r0.state, |xs| - 1, xs[|xs| - 1])
  {
  }

  /** `map_protection_parameters` as the run calls it. */
  const MapRows: Value -> Result<Dict> := (protection: Value) => MapParameters(protection)

  /** The i-th protection: its name, its row and its index are read, the device state is
      refreshed unless it is the first, and the row is POSTed. */
  function ProtectionStep(s: State, i: nat, protection: Value, dp: string, net: Net, rows: Value -> Result<Dict>, render: Value -> string): Progress
  {
    match Subscript(protection, "name")
    case Err(e) => Aborted(e, s.sent)
    case Ok(name) =>
      match rows(protection)
      case Err(e) => Aborted(e, s.sent)
      case Ok(body) =>
        var index := FieldOr(protection, "index", VInt(0));
        var sent := s.sent + (if i > 0 then [RefreshRequest(dp)] else []) + [CreateRequest(dp, index, body, render)];
        match Answer(net(|sent| - 1))
        case Err(e) => Aborted(e, sent)
        case Ok(data) => Going(State(s.created + [Created(name, index, data)], s.attached, sent))
  }

  function ProtectionSteps(dp: string, net: Net, rows: Value -> Result<Dict>, render: Value -> string): (State, nat, Value) -> Progress
  {
    (s: State, i: nat, protection: Value) => ProtectionStep(s, i, protection, dp, net, rows, render)
  }

  function Protections(ps: seq<Value>, dp: string, net: Net, rows: Value -> Result<Dict>, render: Value -> string): Progress
  {
    Fold(State([], [], []), ps, ProtectionSteps(dp, net, rows, render))
  }

  /** One protection attached to a profile. */
  function AttachStep(s: State, profile: Value, protection: Value, dp: string, net: Net, render: Value -> string): Progress
  {
    var sent := s.sent + [AttachRequest(dp, profile, protection, render)];
    match Answer(net(|sent| - 1))
    case Err(e) => Aborted(e, sent)
    case Ok(data) => Going(State(s.created, s.attached + [Attached(profile, protection, data)], sent))
  }

  function AttachSteps(profile: Value, dp: string, net: Net, render: Value -> string): (State, nat, Value) -> Progress
  {
    (s: State, i: nat, protection: Value) => AttachStep(s, profile, protection, dp, net, render)
  }

  function Attachments(s: State, profile: Value, names: seq<Value>, dp: string, net: Net, render: Value -> string): Progress
  {
    Fold(s, names, AttachSteps(profile, dp, net, render))
  }

  /** One profile: its name and its `protections` (none by default) are read, then each is
      attached in turn. */
  function ProfileStep(s: State, profile: Value, dp: string, net: Net, render: Value -> string): Progress
  {
    match Subscript(profile, "name")
    case Err(e) => Aborted(e, s.sent)
    case Ok(name) =>
      match Iter(FieldOr(profile, "protections", VList([])))
      case None => Aborted(NotIterable, s.sent)
      case Some(names) => Attachments(s, name, names, dp, net, render)
  }

  function ProfileSteps(dp: string, net: Net, render: Value -> string): (State, nat, Value) -> Progress
  {
    (s: State, i: nat, profile: Value) => ProfileStep(s, profile, dp, net, render)
  }

  function Profiles(s: State, profiles: seq<Value>, dp: string, net: Net, render: Value -> string): Progress
  {
    Fold(s, profiles, ProfileSteps(dp, net, render))
  }

  /** How the module ends.  `fail_json` reports the message with `changed` false and an empty
      response, whatever was created before the exception; `exit_json` reports whether anything
      was created and the two lists. */
  datatype RunResult =
    | Failed(msg: string, sent: seq<Request>)
    | Done(changed: bool, created: seq<Created>, attached: seq<Attached>, sent: seq<Request>)

  function Run(protections: seq<Value>, profiles: seq<Value>, checkMode: bool, dp: string, net: Net, rows: Value -> Result<Dict> := MapRows, render: Value -> string := Str): RunResult
  {
    if checkMode then Done(false, [], [], [])
    else match Protections(protections, dp, net, rows, render)
      case Aborted(m, sent) => Failed(m, sent)
      case Going(s) =>
        match Profiles(s, profiles, dp, net, render)
        case Aborted(m, sent) => Failed(m, sent)
        case Going(t) => Done(t.created != [] || t.attached != [], t.created, t.attached, t.sent)
  }

  /** The body of the protection loop, for the i-th protection. */
  method CreateOne(s: State, i: nat, protection: Value, dp: string, net: Net, rows: Value -> Result<Dict>, render: Value -> string) returns (r: Progress)
    ensures r == ProtectionStep(s, i, protection, dp, net, rows, render)
  {
    var name := Subscript(protection, "name");
    var body := rows(protection);
    if name.Err? || body.Err? {
      return Aborted(if name.Err? then name.msg else body.msg, s.sent);
    }
    var index := FieldOr(protection, "index", VInt(0));
    var sent := s.sent;
    if i > 0 {
      // Whatever the refresh GET returns or raises, the loop carries on.
      sent := sent + [RefreshRequest(dp)];
    }
    sent := sent + [CreateRequest(dp, index, body.value, render)];
    var data := Answer(net(|sent| - 1));
    if data.Err? {
      return Aborted(data.msg, sent);
    }
    return Going(State(s.created + [Created(name.value, index, data.value)], s.attached, sent));
  }

  method ProtectionsLoop(ps: seq<Value>, dp: string, net: Net, rows: Value -> Result<Dict>, render: Value -> string) returns (r: Progress)
    ensures r == Protections(ps, dp, net, rows, render)
  {
    var s := State([], [], []);
    var i := 0;
    while i < |ps|
      invariant 0 <= i <= |ps|
      invariant Protections(ps[..i], dp, net, rows, render) == Going(s)
    {
      assert ps[..i + 1][..i] == ps[..i];
      var step := CreateOne(s, i, ps[i], dp, net, rows, render);
      if step.Aborted? {
        FoldStaysAborted(State([], [], []), ps, ProtectionSteps(dp, net, rows, render), i + 1);
        return step;
      }
      s := step.state;
      i := i + 1;
    }
    assert ps[..i] == ps;
    return Going(s);
  }

  method AttachLoop(s0: State, profile: Value, names: seq<Value>, dp: string, net: Net, render: Value -> string) returns (r: Progress)
    ensures r == Attachments(s0, profile, names, dp, net, render)
  {
    var s := s0;
    var k := 0;
    while k < |names|
      invariant 0 <= k <= |names|
      invariant Attachments(s0, profile, names[..k], dp, net, render) == Going(s)
    {
      assert names[..k + 1][..k] == names[..k];
      s := s.(sent := s.sent + [AttachRequest(dp, profile, names[k], render)]);
      var data := Answer(net(|s.sent| - 1));
      if data.Err? {
        FoldStaysAborted(s0, names, AttachSteps(profile, dp, net, render), k + 1);
        return Aborted(data.msg, s.sent);
      }
      s := s.(attached := s.attached + [Attached(profile, names[k], data.value)]);
      k := k + 1;
    }
    assert names[..k] == names;
    return Going(s);
  }

  /** The body of the profile loop, for one profile. */
  method AttachOne(s: State, profile: Value, dp: string, net: Net, render: Value -> string) returns (r: Progress)
    ensures r == ProfileStep(s, profile, dp, net, render)
  {
    var profileName := Subscript(profile, "name");
    if profileName.Err? {
      return Aborted(profileName.msg, s.sent);
    }
    var names := Iter(FieldOr(profile, "protections", VList([])));
    if names.None? {
      return Aborted(NotIterable, s.sent);
    }
    r := AttachLoop(s, profileName.value, names.value, dp, net, render);
  }

  method ProfilesLoop(s0: State, profiles: seq<Value>, dp: string, net: Net, render: Value -> string) returns (r: Progress)
    ensures r == Profiles(s0, profiles, dp, net, render)
  {
    var s := s0;
    var j := 0;
    while j < |profiles|
      invariant 0 <= j <= |profiles|
      invariant Profiles(s0, profiles[..j], dp, net, render) == Going(s)
    {
      assert profiles[..j + 1][..j] == profiles[..j];
      var step := AttachOne(s, profiles[j], dp, net, render);
      if step.Aborted? {
        FoldStaysAborted(s0, profiles, ProfileSteps(dp, net, render), j + 1);
        return step;
      }
      s := step.state;
      j := j + 1;
    }
    assert profiles[..j] == profiles;
    return Going(s);
  }


  method RunModule(protections: seq<Value>, profiles: seq<Value>, checkMode: bool, dp: string, net: Net)
    returns (r: RunResult)
    ensures r == Run(protections, profiles, checkMode, dp, net)
  {
    if checkMode {
      return Done(false, [], [], []);
    }
    var created := ProtectionsLoop(protections, dp, net, MapRows, Str);
    if created.Aborted? {
      return Failed(created.msg, created.sent);
    }
    var attached := ProfilesLoop(created.state, profiles, dp, net, Str);
    if attached.Aborted? {
      return Failed(attached.msg, attached.sent);
    }
    var t := attached.state;
    r := Done(t.created != [] || t.attached != [], t.created, t.attached, t.sent);
  }

  // ---------------------------------------------------------------------------------------------
  // What the run sends and records
  // ---------------------------------------------------------------------------------------------

  /** A request whose path lies below the given table of the device. */
  predicate OnTable(dp: string, table: string, r: Request)
  {
    IsPrefix(ConfigPath(dp, table), r.path)
  }

  lemma PathBelow(dp: string, table: string, rest: string)
    ensures IsPrefix(ConfigPath(dp, table), ConfigPath(dp, table + rest))
  {
    assert ConfigPath(dp, table + rest) == ConfigPath(dp, table) + rest;
  }

  /** No request lies below both the protection table and the profile table. */
  lemma TablesApart(dp: string, r: Request)
    ensures OnTable(dp, AttackTable, r) ==> !OnTable(dp, ProfileTable, r)
  {
    var pre := "/mgmt/device/byip/" + dp + "/config/";
    var n := |pre| + 20;
    assert ConfigPath(dp, AttackTable) == pre + AttackTable && ConfigPath(dp, ProfileTable) == pre + ProfileTable;
    if OnTable(dp, AttackTable, r) {
      assert r.path[n] == ConfigPath(dp, AttackTable)[n] == 'A';
      assert ConfigPath(dp, ProfileTable)[n] == 'P';
    }
  }

  lemma ProtectionRequestsOnTable(dp: string, index: Value, body: Dict, render: Value -> string)
    ensures OnTable(dp, AttackTable, RefreshRequest(dp)) && OnTable(dp, AttackTable, CreateRequest(dp, index, body, render))
  {
    PathBelow(dp, AttackTable, "/" + render(index));
  }

  lemma AttachRequestOnTable(dp: string, profile: Value, protection: Value, render: Value -> string)
    ensures AttachRequest(dp, profile, protection, render).verb == POST
    ensures OnTable(dp, ProfileTable, AttachRequest(dp, profile, protection, render))
  {
    PathBelow(dp, ProfileTable, "/" + render(profile) + "/" + render(protection));
  }

  /** A protection the run can create: it has a name and its row maps. */
  predicate Mapped(p: Value, rows: Value -> Result<Dict>)
  {
    Subscript(p, "name").Ok? && rows(p).Ok?
  }

  /** The requests sent so far, however the run stands. */
  function SentBy(r: Progress): seq<Request>
  {
    if r.Going? then r.state.sent else r.sent
  }

  /** Where the POST of the k-th protection stands among the requests: each protection after the
      first is preceded by its refresh GET. */
  function PostAt(k: nat): nat
  {
    2 * k
  }

  /** How many requests n protections send. */
  function Slots(n: nat): nat
  {
    if n == 0 then 0 else 2 * n - 1
  }

  /** One protection: it is created exactly when it maps and its POST, sent after the refresh GET
      unless it is the first, is answered with JSON; every request sent is for the protection
      table. */
  lemma ProtectionStepOutcome(s: State, i: nat, p: Value, dp: string, net: Net, rows: Value -> Result<Dict>, render: Value -> string)
    ensures var r := ProtectionStep(s, i, p, dp, net, rows, render);
      var at := |s.sent| + if i > 0 then 1 else 0;
      (r.Going? <==> Mapped(p, rows) && Answer(net(at)).Ok?) &&
      (r.Going? ==>
         var index := FieldOr(p, "index", VInt(0));
         r.state.attached == s.attached &&
         r.state.created == s.created + [Created(Subscript(p, "name").value, index, Answer(net(at)).value)] &&
         r.state.sent == s.sent + (if i > 0 then [RefreshRequest(dp)] else []) +
                         [CreateRequest(dp, index, rows(p).value, render)]) &&
      |s.sent| <= |SentBy(r)| && SentBy(r)[..|s.sent|] == s.sent &&
      (forall k :: |s.sent| <= k < |SentBy(r)| ==> OnTable(dp, AttackTable, SentBy(r)[k]))
  {
    if Mapped(p, rows) {
      ProtectionRequestsOnTable(dp, FieldOr(p, "index", VInt(0)), rows(p).value, render);
    }
  }

  /** One protection is created exactly when it maps and its POST is answered with JSON, and then
      two requests are sent for it, or one for the first. */
  lemma ProtectionStepSucceeds(s: State, i: nat, p: Value, dp: string, net: Net, rows: Value -> Result<Dict>, render: Value -> string)
    ensures var r := ProtectionStep(s, i, p, dp, net, rows, render);
      var at := |s.sent| + if i > 0 then 1 else 0;
      (r.Going? <==> Mapped(p, rows) && Answer(net(at)).Ok?) &&
      (r.Going? ==> |r.state.sent| == at + 1)
  {
  }

  /** The run through the protections, one protection at a time. */
  lemma ProtectionsLast(ps: seq<Value>, dp: string, net: Net, rows: Value -> Result<Dict>, render: Value -> string)
    requires ps != []
    ensures var r0 := Protections(ps[..|ps| - 1], dp, net, rows, render);
      Protections(ps, dp, net, rows, render) == if r0.Aborted? then r0 else ProtectionStep(r0.state, |ps| - 1, ps[|ps| - 1], dp, net, rows, render)
  {
    FoldLast(State([], [], []), ps, ProtectionSteps(dp, net, rows, render));
  }

  /** Whether the run through the protections carries on or not, it has sent requests for the
      protection table only. */
  lemma {:induction false} ProtectionsOnTable(ps: seq<Value>, dp: string, net: Net, rows: Value -> Result<Dict>, render: Value -> string)
    ensures var r := Protections(ps, dp, net, rows, render);
      forall k :: 0 <= k < |SentBy(r)| ==> OnTable(dp, AttackTable, SentBy(r)[k])
    decreases |ps|
  {
    if ps != [] {
      var n := |ps| - 1;
      ProtectionsLast(ps, dp, net, rows, render);
      ProtectionsOnTable(ps[..n], dp, net, rows, render);
      var r0 := Protections(ps[..n], dp, net, rows, render);
      if r0.Going? {
        ProtectionStepOutcome(r0.state, n, ps[n], dp, net, rows, render);
        var r := Protections(ps, dp, net, rows, render);
        forall k | 0 <= k < |SentBy(r)| ensures OnTable(dp, AttackTable, SentBy(r)[k]) {
          if k < |r0.state.sent| {
            assert SentBy(r)[k] == SentBy(r)[..|r0.state.sent|][k] == SentBy(r0)[k];
          }
        }
      }
    }
  }

  /** The protections are all created exactly when every one of them maps and every POST is
      answered with JSON. */
  lemma {:induction false} ProtectionsSucceed(ps: seq<Value>, dp: string, net: Net, rows: Value -> Result<Dict>, render: Value -> string)
    ensures Protections(ps, dp, net, rows, render).Going? <==>
      forall k :: 0 <= k < |ps| ==> Mapped(ps[k], rows) && Answer(net(PostAt(k))).Ok?
    ensures Protections(ps, dp, net, rows, render).Going? ==> |Protections(ps, dp, net, rows, render).state.sent| == Slots(|ps|)
    decreases |ps|
  {
    if ps != [] {
      var n := |ps| - 1;
      ProtectionsLast(ps, dp, net, rows, render);
      var init := ps[..n];
      ProtectionsSucceed(init, dp, net, rows, render);
      assert forall k :: 0 <= k < n ==> init[k] == ps[k];
      var r0 := Protections(init, dp, net, rows, render);
      if r0.Going? {
        var s := r0.state;
        ProtectionStepSucceeds(s, n, ps[n], dp, net, rows, render);
        assert |s.sent| + (if n > 0 then 1 else 0) == PostAt(n);
      }
    }
  }

  /** The requests a run that creates every protection sends for them: the POST of each row, each
      after the first preceded by a refresh GET. */
  function CreateRequests(ps: seq<Value>, dp: string, rows: Value -> Result<Dict>, render: Value -> string): seq<Request>
    requires forall k :: 0 <= k < |ps| ==> rows(ps[k]).Ok?
    decreases |ps|
  {
    if ps == [] then []
    else
      var n := |ps| - 1;
      CreateRequests(ps[..n], dp, rows, render) + (if n > 0 then [RefreshRequest(dp)] else []) +
      [CreateRequest(dp, FieldOr(ps[n], "index", VInt(0)), rows(ps[n]).value, render)]
  }

  /** The POST of the k-th protection is request 2k, to the row of its index (0 by default), and
      for k > 0 the refresh GET comes just before it. */
  lemma {:induction false} CreateRequestsAt(ps: seq<Value>, dp: string, rows: Value -> Result<Dict>, render: Value -> string)
    requires forall k :: 0 <= k < |ps| ==> rows(ps[k]).Ok?
    ensures var sent := CreateRequests(ps, dp, rows, render);
      |sent| == Slots(|ps|) &&
      (forall k :: 0 < k < |ps| ==> sent[PostAt(k) - 1] == RefreshRequest(dp)) &&
      (forall k :: 0 <= k < |ps| ==>
         sent[PostAt(k)] == CreateRequest(dp, FieldOr(ps[k], "index", VInt(0)), rows(ps[k]).value, render))
    decreases |ps|
  {
    if ps != [] {
      var n := |ps| - 1;
      CreateRequestsAt(ps[..n], dp, rows, render);
      var s0 := CreateRequests(ps[..n], dp, rows, render);
      var sent := CreateRequests(ps, dp, rows, render);
      assert forall j :: 0 <= j < |s0| ==> sent[j] == s0[j];
      assert forall k :: 0 <= k < n ==> ps[..n][k] == ps[k];
    }
  }

  /** What a run that creates every protection records for them: the name, the index (0 by
      default) and the reply to the POST of each, in order. */
  function CreatedRecords(ps: seq<Value>, net: Net): seq<Created>
    requires forall k :: 0 <= k < |ps| ==> Subscript(ps[k], "name").Ok? && Answer(net(PostAt(k))).Ok?
  {
    seq(|ps|, k requires 0 <= k < |ps| =>
      Created(Subscript(ps[k], "name").value, FieldOr(ps[k], "index", VInt(0)), Answer(net(PostAt(k))).value))
  }

  /** When the protections are all created, the run has sent exactly their requests. */
  lemma {:induction false} ProtectionsSent(ps: seq<Value>, dp: string, net: Net, rows: Value -> Result<Dict>, render: Value -> string)
    requires Protections(ps, dp, net, rows, render).Going?
    ensures forall k :: 0 <= k < |ps| ==> Subscript(ps[k], "name").Ok? && rows(ps[k]).Ok? && Answer(net(PostAt(k))).Ok?
    ensures Protections(ps, dp, net, rows, render).state.sent == CreateRequests(ps, dp, rows, render)
    decreases |ps|
  {
    ProtectionsSucceed(ps, dp, net, rows, render);
    if ps != [] {
      var n := |ps| - 1;
      ProtectionsLast(ps, dp, net, rows, render);
      ProtectionsSent(ps[..n], dp, net, rows, render);
      ProtectionStepOutcome(Protections(ps[..n], dp, net, rows, render).state, n, ps[n], dp, net, rows, render);
    }
  }

  /** When the protections are all created, the run has recorded exactly their records, and no
      profile yet. */
  lemma {:induction false} ProtectionsCreated(ps: seq<Value>, dp: string, net: Net, rows: Value -> Result<Dict>, render: Value -> string)
    requires Protections(ps, dp, net, rows, render).Going?
    ensures forall k :: 0 <= k < |ps| ==> Subscript(ps[k], "name").Ok? && rows(ps[k]).Ok? && Answer(net(PostAt(k))).Ok?
    ensures var s := Protections(ps, dp, net, rows, render).state;
      s.attached == [] && s.created == CreatedRecords(ps, net)
    decreases |ps|
  {
    ProtectionsSucceed(ps, dp, net, rows, render);
    if ps != [] {
      var n := |ps| - 1;
      ProtectionsLast(ps, dp, net, rows, render);
      ProtectionsCreated(ps[..n], dp, net, rows, render);
      ProtectionsSucceed(ps[..n], dp, net, rows, render);
      var s := Protections(ps[..n], dp, net, rows, render).state;
      ProtectionStepOutcome(s, n, ps[n], dp, net, rows, render);
      assert |s.sent| + (if n > 0 then 1 else 0) == PostAt(n);
      assert forall k :: 0 <= k < n ==> ps[..n][k] == ps[k];
    }
  }

  // ---------------------------------------------------------------------------------------------
  // The profiles
  // ---------------------------------------------------------------------------------------------

  /** The (profile, protection) pairs one profile asks for, in order, or why it cannot be read. */
  function PairsOf(profile: Value): Result<seq<(Value, Value)>>
  {
    match Subscript(profile, "name")
    case Err(e) => Err(e)
    case Ok(name) =>
      match Iter(FieldOr(profile, "protections", VList([])))
      case None => Err(NotIterable)
      case Some(names) => Ok(PairsFor(name, names))
  }

  /** The profile paired with each of its protections, in order. */
  function PairsFor(profile: Value, names: seq<Value>): seq<(Value, Value)>
  {
    seq(|names|, k requires 0 <= k < |names| => (profile, names[k]))
  }

  /** All the pairs the profiles ask for, profile after profile: the reference list of what the
      run attaches. */
  function Pairs(profiles: seq<Value>): Result<seq<(Value, Value)>>
    decreases |profiles|
  {
    if profiles == [] then Ok([])
    else match Pairs(profiles[..|profiles| - 1])
      case Err(e) => Err(e)
      case Ok(ps) =>
        match PairsOf(profiles[|profiles| - 1])
        case Err(e) => Err(e)
        case Ok(qs) => Ok(ps + qs)
  }

  /** The n requests from position `from` on are all answered with JSON. */
  predicate Answered(net: Net, from: nat, n: nat)
  {
    forall j :: from <= j < from + n ==> Answer(net(j)).Ok?
  }

  /** Attaching protections to a profile, one protection at a time. */
  lemma AttachmentsLast(s: State, profile: Value, names: seq<Value>, dp: string, net: Net, render: Value -> string)
    requires names != []
    ensures var r0 := Attachments(s, profile, names[..|names| - 1], dp, net, render);
      Attachments(s, profile, names, dp, net, render) == if r0.Aborted? then r0 else AttachStep(r0.state, profile, names[|names| - 1], dp, net, render)
  {
    FoldLast(s, names, AttachSteps(profile, dp, net, render));
  }

  /** Attaching a list of protections to one profile, however it ends, sends the k-th of them
      its POST after the requests already sent. */
  lemma {:induction false} AttachmentsSent(s: State, profile: Value, names: seq<Value>, dp: string, net: Net, render: Value -> string)
    ensures var r := Attachments(s, profile, names, dp, net, render);
      |s.sent| <= |SentBy(r)| <= |s.sent| + |names| && SentBy(r)[..|s.sent|] == s.sent &&
      (forall k :: |s.sent| <= k < |SentBy(r)| ==> SentBy(r)[k] == AttachRequest(dp, profile, names[k - |s.sent|], render)) &&
      (r.Going? ==> |r.state.sent| == |s.sent| + |names|)
    decreases |names|
  {
    if names != [] {
      var n := |names| - 1;
      AttachmentsLast(s, profile, names, dp, net, render);
      AttachmentsSent(s, profile, names[..n], dp, net, render);
      var r0 := Attachments(s, profile, names[..n], dp, net, render);
      if r0.Going? {
        var t := r0.state;
        var r := AttachStep(t, profile, names[n], dp, net, render);
        var sent := t.sent + [AttachRequest(dp, profile, names[n], render)];
        assert SentBy(r) == sent;
        assert sent[..|s.sent|] == t.sent[..|s.sent|];
        forall k | |s.sent| <= k < |sent|
          ensures sent[k] == AttachRequest(dp, profile, names[k - |s.sent|], render)
        {
          if k < |t.sent| {
            assert names[..n][k - |s.sent|] == names[k - |s.sent|];
          }
        }
      }
    }
  }

  /** Attaching a list of protections to one profile carries on exactly when each of its POSTs
      is answered with JSON. */
  lemma {:induction false} AttachmentsSucceed(s: State, profile: Value, names: seq<Value>, dp: string, net: Net, render: Value -> string)
    ensures Attachments(s, profile, names, dp, net, render).Going? <==> Answered(net, |s.sent|, |names|)
    decreases |names|
  {
    if names != [] {
      var n := |names| - 1;
      AttachmentsLast(s, profile, names, dp, net, render);
      AttachmentsSucceed(s, profile, names[..n], dp, net, render);
      var r0 := Attachments(s, profile, names[..n], dp, net, render);
      if r0.Going? {
        AttachmentsSent(s, profile, names[..n], dp, net, render);
      }
    }
  }

  /** The POST of each pair, in order. */
  function AttachRequests(dp: string, pairs: seq<(Value, Value)>, render: Value -> string): seq<Request>
  {
    seq(|pairs|, k requires 0 <= k < |pairs| => AttachRequest(dp, pairs[k].0, pairs[k].1, render))
  }

  /** Each pair with the reply to the request at its own position from `from` on. */
  function Records(pairs: seq<(Value, Value)>, net: Net, from: nat): seq<Attached>
    requires Answered(net, from, |pairs|)
  {
    seq(|pairs|, k requires 0 <= k < |pairs| => Attached(pairs[k].0, pairs[k].1, Answer(net(from + k)).value))
  }

  lemma AttachRequestsAppend(dp: string, ps: seq<(Value, Value)>, qs: seq<(Value, Value)>, render: Value -> string)
    ensures AttachRequests(dp, ps + qs, render) == AttachRequests(dp, ps, render) + AttachRequests(dp, qs, render)
  {
    assert forall k :: |ps| <= k < |ps| + |qs| ==> (ps + qs)[k] == qs[k - |ps|];
  }

  lemma RecordsAppend(ps: seq<(Value, Value)>, qs: seq<(Value, Value)>, net: Net, from: nat)
    requires Answered(net, from, |ps| + |qs|)
    ensures Answered(net, from, |ps|) && Answered(net, from + |ps|, |qs|)
    ensures Records(ps + qs, net, from) == Records(ps, net, from) + Records(qs, net, from + |ps|)
  {
    AnsweredSplit(net, from, |ps|, |qs|);
    forall k | |ps| <= k < |ps| + |qs|
      ensures Records(ps + qs, net, from)[k] == Records(qs, net, from + |ps|)[k - |ps|]
    {
      assert (ps + qs)[k] == qs[k - |ps|];
      assert from + k == from + |ps| + (k - |ps|);
    }
  }

  /** From `s` to `t` the run has attached exactly `pairs`: each was answered with JSON, its POST
      follows the requests sent before, its record follows the records kept before, and the
      protections created are as they were. */
  predicate Extends(s: State, t: State, pairs: seq<(Value, Value)>, dp: string, net: Net, render: Value -> string)
  {
    Answered(net, |s.sent|, |pairs|) &&
    t.created == s.created &&
    t.sent == s.sent + AttachRequests(dp, pairs, render) &&
    t.attached == s.attached + Records(pairs, net, |s.sent|)
  }

  lemma ExtendsJoin(s: State, t0: State, t: State, ps: seq<(Value, Value)>, qs: seq<(Value, Value)>, dp: string, net: Net, render: Value -> string)
    requires Extends(s, t0, ps, dp, net, render) && Extends(t0, t, qs, dp, net, render)
    ensures Extends(s, t, ps + qs, dp, net, render)
  {
    AnsweredSplit(net, |s.sent|, |ps|, |qs|);
    AttachRequestsAppend(dp, ps, qs, render);
    RecordsAppend(ps, qs, net, |s.sent|);
  }

  /** When attaching a list of protections to one profile carries on, it has attached exactly
      the profile's pairs. */
  lemma {:induction false} AttachmentsDone(s: State, profile: Value, names: seq<Value>, dp: string, net: Net, render: Value -> string)
    requires Attachments(s, profile, names, dp, net, render).Going?
    ensures Extends(s, Attachments(s, profile, names, dp, net, render).state, PairsFor(profile, names), dp, net, render)
    decreases |names|
  {
    if names != [] {
      var n := |names| - 1;
      AttachmentsLast(s, profile, names, dp, net, render);
      AttachmentsDone(s, profile, names[..n], dp, net, render);
      var t0 := Attachments(s, profile, names[..n], dp, net, render).state;
      var t := Attachments(s, profile, names, dp, net, render).state;
      var q := [(profile, names[n])];
      assert Answer(net(|t0.sent|)).Ok?;
      assert Extends(t0, t, q, dp, net, render) by {
        assert AttachRequests(dp, q, render) == [AttachRequest(dp, profile, names[n], render)];
        assert Records(q, net, |t0.sent|) == [Attached(profile, names[n], Answer(net(|t0.sent|)).value)];
      }
      ExtendsJoin(s, t0, t, PairsFor(profile, names[..n]), q, dp, net, render);
      assert PairsFor(profile, names) == PairsFor(profile, names[..n]) + q;
    }
  }

  /** One profile: a name that cannot be read or protections that cannot be iterated end the run
      before any of its POSTs; otherwise its protections are attached in order. */
  lemma ProfileStepPairs(s: State, profile: Value, dp: string, net: Net, render: Value -> string)
    ensures var r := ProfileStep(s, profile, dp, net, render);
      (PairsOf(profile).Err? ==> r == Aborted(PairsOf(profile).msg, s.sent)) &&
      (PairsOf(profile).Ok? ==>
         var name := Subscript(profile, "name").value;
         var names := Iter(FieldOr(profile, "protections", VList([]))).value;
         r == Attachments(s, name, names, dp, net, render) && PairsOf(profile).value == PairsFor(name, names))
  {
  }

  /** The run through the profiles, one profile at a time. */
  lemma ProfilesLast(s: State, profiles: seq<Value>, dp: string, net: Net, render: Value -> string)
    requires profiles != []
    ensures var r0 := Profiles(s, profiles[..|profiles| - 1], dp, net, render);
      Profiles(s, profiles, dp, net, render) == if r0.Aborted? then r0 else ProfileStep(r0.state, profiles[|profiles| - 1], dp, net, render)
  {
    FoldLast(s, profiles, ProfileSteps(dp, net, render));
  }

  /** However the run through the profiles ends, it has kept the requests sent before it and
      added only POSTs for the profile table. */
  lemma {:induction false} ProfilesOnTable(s: State, profiles: seq<Value>, dp: string, net: Net, render: Value -> string)
    ensures var r := Profiles(s, profiles, dp, net, render);
      |s.sent| <= |SentBy(r)| && SentBy(r)[..|s.sent|] == s.sent &&
      forall k :: |s.sent| <= k < |SentBy(r)| ==> SentBy(r)[k].verb == POST && OnTable(dp, ProfileTable, SentBy(r)[k])
    decreases |profiles|
  {
    if profiles != [] {
      var n := |profiles| - 1;
      ProfilesLast(s, profiles, dp, net, render);
      ProfilesOnTable(s, profiles[..n], dp, net, render);
      var r0 := Profiles(s, profiles[..n], dp, net, render);
      if r0.Going? {
        var t := r0.state;
        var p := profiles[n];
        ProfileStepPairs(t, p, dp, net, render);
        if PairsOf(p).Ok? {
          var name := Subscript(p, "name").value;
          var names := Iter(FieldOr(p, "protections", VList([]))).value;
          AttachmentsSent(t, name, names, dp, net, render);
          var r := Profiles(s, profiles, dp, net, render);
          assert SentBy(r)[..|s.sent|] == t.sent[..|s.sent|];
          forall k | |s.sent| <= k < |SentBy(r)|
            ensures SentBy(r)[k].verb == POST && OnTable(dp, ProfileTable, SentBy(r)[k])
          {
            if k < |t.sent| {
              assert SentBy(r)[k] == t.sent[k];
            } else {
              AttachRequestOnTable(dp, name, names[k - |t.sent|], render);
            }
          }
        }
      }
    }
  }

  lemma AnsweredSplit(net: Net, from: nat, m: nat, n: nat)
    ensures Answered(net, from, m + n) <==> Answered(net, from, m) && Answered(net, from + m, n)
  {
  }

  /** The run through the profiles carries on exactly when every profile's pairs can be read and
      each of their POSTs is answered with JSON; it then sends one POST per pair. */
  lemma {:induction false} ProfilesSucceed(s: State, profiles: seq<Value>, dp: string, net: Net, render: Value -> string)
    ensures var r := Profiles(s, profiles, dp, net, render);
      (r.Going? <==> Pairs(profiles).Ok? && Answered(net, |s.sent|, |Pairs(profiles).value|)) &&
      (r.Going? ==> |r.state.sent| == |s.sent| + |Pairs(profiles).value|)
    decreases |profiles|
  {
    if profiles != [] {
      var n := |profiles| - 1;
      ProfilesLast(s, profiles, dp, net, render);
      ProfilesSucceed(s, profiles[..n], dp, net, render);
      var r0 := Profiles(s, profiles[..n], dp, net, render);
      var p := profiles[n];
      if Pairs(profiles[..n]).Ok? && PairsOf(p).Ok? {
        AnsweredSplit(net, |s.sent|, |Pairs(profiles[..n]).value|, |PairsOf(p).value|);
      }
      if r0.Going? {
        var t := r0.state;
        ProfileStepPairs(t, p, dp, net, render);
        if PairsOf(p).Ok? {
          var name := Subscript(p, "name").value;
          var names := Iter(FieldOr(p, "protections", VList([]))).value;
          AttachmentsSent(t, name, names, dp, net, render);
          AttachmentsSucceed(t, name, names, dp, net, render);
        }
      }
    }
  }

  /** When the run through the profiles carries on, it has attached exactly the pairs the
      profiles ask for, in order. */
  lemma {:induction false} ProfilesDone(s: State, profiles: seq<Value>, dp: string, net: Net, render: Value -> string)
    requires Profiles(s, profiles, dp, net, render).Going?
    ensures Pairs(profiles).Ok?
    ensures Extends(s, Profiles(s, profiles, dp, net, render).state, Pairs(profiles).value, dp, net, render)
    decreases |profiles|
  {
    if profiles != [] {
      var n := |profiles| - 1;
      ProfilesLast(s, profiles, dp, net, render);
      ProfilesDone(s, profiles[..n], dp, net, render);
      var t0 := Profiles(s, profiles[..n], dp, net, render).state;
      var p := profiles[n];
      ProfileStepPairs(t0, p, dp, net, render);
      var name := Subscript(p, "name").value;
      var names := Iter(FieldOr(p, "protections", VList([]))).value;
      AttachmentsDone(t0, name, names, dp, net, render);
      ExtendsJoin(s, t0, Profiles(s, profiles, dp, net, render).state, Pairs(profiles[..n]).value, PairsFor(name, names), dp, net, render);
    }
  }

  // ---------------------------------------------------------------------------------------------
  // The whole run
  // ---------------------------------------------------------------------------------------------

  /** Check mode sends nothing and reports no change. Otherwise the module completes exactly when
      every protection has a name and maps, every profile's name and protections can be read, and
      every POST (one per protection, then one per pair) is answered with JSON. */
  lemma RunSucceeds(protections: seq<Value>, profiles: seq<Value>, dp: string, net: Net, rows: Value -> Result<Dict>, render: Value -> string)
    ensures Run(protections, profiles, true, dp, net, rows, render) == Done(false, [], [], [])
    ensures Run(protections, profiles, false, dp, net, rows, render).Done? <==>
      (forall k :: 0 <= k < |protections| ==> Mapped(protections[k], rows) && Answer(net(PostAt(k))).Ok?) &&
      Pairs(profiles).Ok? && Answered(net, Slots(|protections|), |Pairs(profiles).value|)
  {
    ProtectionsSucceed(protections, dp, net, rows, render);
    var r0 := Protections(protections, dp, net, rows, render);
    if r0.Going? {
      ProfilesSucceed(r0.state, profiles, dp, net, render);
    }
  }

  /** A completed run reports exactly this: a change when there was a protection or a pair; each
      protection with its name, its index and the reply to its POST; each pair with the reply to
      its POST; and, as the requests sent, those of the protections followed by the POST of each
      pair. */
  lemma RunDone(protections: seq<Value>, profiles: seq<Value>, dp: string, net: Net, rows: Value -> Result<Dict>, render: Value -> string)
    requires Run(protections, profiles, false, dp, net, rows, render).Done?
    ensures forall k :: 0 <= k < |protections| ==>
      Subscript(protections[k], "name").Ok? && rows(protections[k]).Ok? && Answer(net(PostAt(k))).Ok?
    ensures Pairs(profiles).Ok? && Answered(net, Slots(|protections|), |Pairs(profiles).value|)
    ensures Run(protections, profiles, false, dp, net, rows, render) ==
      Done(protections != [] || Pairs(profiles).value != [],
           CreatedRecords(protections, net),
           Records(Pairs(profiles).value, net, Slots(|protections|)),
           CreateRequests(protections, dp, rows, render) + AttachRequests(dp, Pairs(profiles).value, render))
  {
    var s := Protections(protections, dp, net, rows, render).state;
    ProtectionsSent(protections, dp, net, rows, render);
    ProtectionsCreated(protections, dp, net, rows, render);
    CreateRequestsAt(protections, dp, rows, render);
    ProfilesDone(s, profiles, dp, net, render);
  }

  /** Outside check mode every request is for the protection table, or a POST for the profile
      table, and no request for the protection table follows one for the profile table (the two
      tables never share a request), whether the run completes or not. */
  lemma RunOrder(protections: seq<Value>, profiles: seq<Value>, dp: string, net: Net, rows: Value -> Result<Dict>, render: Value -> string)
    ensures var r := Run(protections, profiles, false, dp, net, rows, render);
      (forall k :: 0 <= k < |r.sent| ==>
         OnTable(dp, AttackTable, r.sent[k]) || (r.sent[k].verb == POST && OnTable(dp, ProfileTable, r.sent[k]))) &&
      (forall i, j :: 0 <= i < j < |r.sent| && OnTable(dp, ProfileTable, r.sent[i]) ==> !OnTable(dp, AttackTable, r.sent[j]))
  {
    var r := Run(protections, profiles, false, dp, net, rows, render);
    var r0 := Protections(protections, dp, net, rows, render);
    ProtectionsOnTable(protections, dp, net, rows, render);
    var n := |SentBy(r0)|;
    if r0.Going? {
      ProfilesOnTable(r0.state, profiles, dp, net, render);
      assert forall k :: 0 <= k < n ==> r.sent[k] == r.sent[..n][k] == r0.state.sent[k];
    }
    assert forall k :: 0 <= k < n ==> OnTable(dp, AttackTable, r.sent[k]);
    assert forall k :: n <= k < |r.sent| ==> r.sent[k].verb == POST && OnTable(dp, ProfileTable, r.sent[k]);
    forall i, j | 0 <= i < j < |r.sent| && OnTable(dp, ProfileTable, r.sent[i])
      ensures !OnTable(dp, AttackTable, r.sent[j])
    {
      TablesApart(dp, r.sent[i]);
      TablesApart(dp, r.sent[j]);
    }
  }

  /** Attaching protections reads only the replies from the requests it sends itself. */
  lemma {:induction false} AttachmentsAgree(s: State, profile: Value, names: seq<Value>, dp: string, net: Net, net': Net, render: Value -> string)
    requires forall j :: |s.sent| <= j ==> net(j) == net'(j)
    ensures Attachments(s, profile, names, dp, net, render) == Attachments(s, profile, names, dp, net', render)
    decreases |names|
  {
    if names != [] {
      var n := |names| - 1;
      FoldLast(s, names, AttachSteps(profile, dp, net, render));
      FoldLast(s, names, AttachSteps(profile, dp, net', render));
      AttachmentsAgree(s, profile, names[..n], dp, net, net', render);
      AttachmentsSent(s, profile, names[..n], dp, net, render);
    }
  }

  /** The run through the profiles reads only the replies from the requests it sends itself. */
  lemma {:induction false} ProfilesAgree(s: State, profiles: seq<Value>, dp: string, net: Net, net': Net, render: Value -> string)
    requires forall j :: |s.sent| <= j ==> net(j) == net'(j)
    ensures Profiles(s, profiles, dp, net, render) == Profiles(s, profiles, dp, net', render)
    decreases |profiles|
  {
    if profiles != [] {
      var n := |profiles| - 1;
      ProfilesLast(s, profiles, dp, net, render);
      ProfilesLast(s, profiles, dp, net', render);
      ProfilesAgree(s, profiles[..n], dp, net, net', render);
      ProfilesOnTable(s, profiles[..n], dp, net, render);
      var r0 := Profiles(s, profiles[..n], dp, net, render);
      if r0.Going? {
        var p := profiles[n];
        ProfileStepPairs(r0.state, p, dp, net, render);
        ProfileStepPairs(r0.state, p, dp, net', render);
        if PairsOf(p).Ok? {
          AttachmentsAgree(r0.state, Subscript(p, "name").value, Iter(FieldOr(p, "protections", VList([]))).value, dp, net, net', render);
        }
      }
    }
  }

  /** The run through the protections reads only the replies to its POSTs. */
  lemma {:induction false} ProtectionsAgree(ps: seq<Value>, dp: string, net: Net, net': Net, rows: Value -> Result<Dict>, render: Value -> string)
    requires forall k :: 0 <= k < |ps| ==> net(PostAt(k)) == net'(PostAt(k))
    ensures Protections(ps, dp, net, rows, render) == Protections(ps, dp, net', rows, render)
    decreases |ps|
  {
    if ps != [] {
      var n := |ps| - 1;
      ProtectionsLast(ps, dp, net, rows, render);
      ProtectionsLast(ps, dp, net', rows, render);
      ProtectionsAgree(ps[..n], dp, net, net', rows, render);
      ProtectionsSucceed(ps[..n], dp, net, rows, render);
      assert Slots(n) + (if n > 0 then 1 else 0) == PostAt(n);
    }
  }

  /** Whatever the refresh GETs return or raise, the run is the same: two networks that answer
      alike everywhere but at the refresh GETs' positions give the same result. */
  lemma RunIgnoresRefreshReplies(protections: seq<Value>, profiles: seq<Value>, checkMode: bool, dp: string,
                                 net: Net, net': Net, rows: Value -> Result<Dict>, render: Value -> string)
    requires forall j: nat :: !(j < Slots(|protections|) && j % 2 == 1) ==> net(j) == net'(j)
    ensures Run(protections, profiles, checkMode, dp, net, rows, render) == Run(protections, profiles, checkMode, dp, net', rows, render)
  {
    forall k | 0 <= k < |protections| ensures net(PostAt(k)) == net'(PostAt(k)) {
      assert PostAt(k) % 2 == 0;
    }
    ProtectionsAgree(protections, dp, net, net', rows, render);
    var r0 := Protections(protections, dp, net, rows, render);
    if r0.Going? {
      ProtectionsSucceed(protections, dp, net, rows, render);
      ProfilesAgree(r0.state, profiles, dp, net, net', render);
    }
  }
}

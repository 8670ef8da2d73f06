/** SYN-flood protection creation (plugins/modules/create_syn_protection.py): the parameters are
    renamed to device columns, a string `packet_report` is looked up lowercased, and one POST
    adds the protection at index 0 of the attack table.  The client is built from the
    provider's `server` entry. */
module CreateSynProtection {
  import opened Py
  import opened Http
  import opened Tables
  import opened SingleProfile
  import CreateSynConfiguration
  import GetSynConfiguration

  const AttackTable := "rsIDSSYNAttackTable"
  const NameField := "rsIDSSYNAttackName"

  const SwitchCodes: Codes := [("enable", 1), ("disable", 2)]

  /** `FIELD_MAP`: playbook key to device column. */
  const FieldMap: Table := [
    ("app_port_group", "rsIDSSYNDestinationAppPortGroup"),
    ("activation_threshold", "rsIDSSYNAttackActivationThreshold"),
    ("termination_threshold", "rsIDSSYNAttackTerminationThreshold"),
    ("packet_report", "rsIDSSYNAttackPacketReport")
  ]

  /** `VALUE_MAP`: per playbook key, its lowercase words and their integer codes. */
  const ValueMap: seq<(string, Codes)> := [("packet_report", SwitchCodes)]

  const CreateMaps := IntMaps(FieldMap, ValueMap)

  // ---------------------------------------------------------------------------------------------
  // The translation
  // ---------------------------------------------------------------------------------------------

  /** One pair of `translate_params`: the key is renamed when known; a string value of an
      enumerated key is looked up lowercased and falls back to itself; any other value is kept. */
  function FallbackStep(m: IntMaps, key: string, value: Value): Emit
  {
    var api := GetOr(m.fields, key, key);
    match Get(m.enums, key)
    case Some(codes) =>
      (match value
       case VStr(s) => (match Get(codes, Lower(s)) case Some(c) => Emit(api, VInt(c)) case None => Emit(api, value))
       case _ => Emit(api, value))
    case None => Emit(api, value)
  }

  function FallbackStepOf(m: IntMaps): (string, Value) -> Emit
  {
    (key, value) => FallbackStep(m, key, value)
  }

  /** `translate_params`: it never raises. */
  function Translated(m: IntMaps, params: Dict): Dict
  {
    TranslateTotal(params, FallbackStepOf(m));
    Translate(params, FallbackStepOf(m)).value
  }

  method TranslateParams(params: Dict) returns (d: Dict)
    ensures d == Translated(CreateMaps, params)
  {
    TranslateTotal(params, FallbackStepOf(CreateMaps));
    var r := TranslateLoop(params, FallbackStepOf(CreateMaps));
    d := r.value;
  }

  /** The translation holds exactly the renamed keys, each once. */
  lemma TranslatedKeys(m: IntMaps, params: Dict)
    ensures UniqueKeys(Translated(m, params))
    ensures forall k :: k in Keys(Translated(m, params)) <==>
      exists i :: 0 <= i < |params| && GetOr(m.fields, params[i].0, params[i].0) == k
  {
    var step := FallbackStepOf(m);
    TranslateTotal(params, step);
    TranslateContents(params, step);
    forall i | 0 <= i < |params|
      ensures StepAt(params, step, i).Emit? && StepAt(params, step, i).key == GetOr(m.fields, params[i].0, params[i].0)
    {
    }
  }

  /** A string `packet_report` of `enable` or `disable`, in any case, is sent as 1 or 2; any
      other value, strings and non-strings alike, is sent as given. */
  lemma PacketReportWords(v: Value)
    ensures FallbackStep(CreateMaps, "packet_report", v) == Emit("rsIDSSYNAttackPacketReport",
      if v.VStr? && Lower(v.s) == "enable" then VInt(1)
      else if v.VStr? && Lower(v.s) == "disable" then VInt(2)
      else v)
  {
    GetAt(FieldMap, 3, "packet_report");
    if v.VStr? {
      GetSome(SwitchCodes, Lower(v.s));
    }
  }

  /** The code sent for a `packet_report` word reads back, through the SYN configuration
      reader's table, as the lowercased word. */
  lemma PacketReportReadsBack(v: Value)
    requires v.VStr? && Lower(v.s) in {"enable", "disable"}
    ensures StrLookup(GetSynConfiguration.PacketReportWords, FallbackStep(CreateMaps, "packet_report", v).value) == VStr(Lower(v.s))
  {
    PacketReportWords(v);
    GetSynConfiguration.PacketReportCodes();
  }

  /** Only the `i`-th key of `FIELD_MAP` and the column itself are renamed to its column. */
  lemma RenamedTo(i: nat, k: string)
    requires i < |FieldMap|
    ensures GetOr(FieldMap, k, k) == FieldMap[i].1 <==> k == FieldMap[i].0 || k == FieldMap[i].1
  {
    GetSome(FieldMap, k);
    KeysLength(FieldMap);
    assert UniqueKeys(FieldMap);
    GetUnique(FieldMap, i);
  }

  /** A key without a word table lands on its column with its own value, as long as the
      parameters do not also spell that column out. */
  lemma PlainColumn(params: Dict, i: nat)
    requires i < 3 && UniqueKeys(params) && Get(params, FieldMap[i].1).None?
    ensures Get(Translated(CreateMaps, params), FieldMap[i].1) == Get(params, FieldMap[i].0)
  {
    var (key, col) := FieldMap[i];
    var step := FallbackStepOf(CreateMaps);
    TranslateTotal(params, step);
    TranslateLastWins(params, step, col);
    GetSome(params, col);
    GetSome(params, key);
    KeysLength(params);
    assert Get(ValueMap, key).None?;
    forall j | 0 <= j < |params| ensures StepAt(params, step, j).key == col <==> params[j].0 == key {
      RenamedTo(i, params[j].0);
      assert params[j].0 != col by { assert Keys(params)[j] == params[j].0; }
    }
    var d := Translated(CreateMaps, params);
    if Get(d, col).Some? {
      var j :| 0 <= j < |params| && StepAt(params, step, j) == Emit(col, Get(d, col).value);
      GetUnique(params, j);
    }
    if Get(params, key).Some? {
      var j :| 0 <= j < |params| && params[j] == (key, Get(params, key).value);
      assert StepAt(params, step, j).key == col;
    }
  }

  // ---------------------------------------------------------------------------------------------
  // The POST
  // ---------------------------------------------------------------------------------------------

  /** `{"rsIDSSYNAttackName": name}` updated with the translated parameters. */
  function Body(name: string, api: Dict): Dict
  {
    Update([(NameField, VStr(name))], api)
  }

  /** For a protection given all three of its settings, and none of the columns spelled out,
      the row sent holds the same name and settings as the row the SYN configuration module
      POSTs for that protection. */
  lemma SameRowAsConfiguration(name: string, params: Dict)
    requires UniqueKeys(params)
    requires Get(params, "app_port_group").Some? && Get(params, "activation_threshold").Some? &&
             Get(params, "termination_threshold").Some?
    requires Get(params, NameField).None? && Get(params, "rsIDSSYNDestinationAppPortGroup").None? &&
             Get(params, "rsIDSSYNAttackActivationThreshold").None? && Get(params, "rsIDSSYNAttackTerminationThreshold").None?
    ensures var row := CreateSynConfiguration.ProtectionBody(VStr(name), VDict(params));
      forall c :: c in Keys(row) ==> Get(Body(name, Translated(CreateMaps, params)), c) == Get(row, c)
  {
    var api := Translated(CreateMaps, params);
    var row := CreateSynConfiguration.ProtectionBody(VStr(name), VDict(params));
    TranslatedKeys(CreateMaps, params);
    PlainColumn(params, 0);
    PlainColumn(params, 1);
    PlainColumn(params, 2);
    assert Get(api, NameField).None? by {
      GetSome(api, NameField);
      GetSome(params, NameField);
      KeysLength(params);
      forall i | 0 <= i < |params| ensures GetOr(FieldMap, params[i].0, params[i].0) != NameField {
        GetSome(FieldMap, params[i].0);
        assert Keys(params)[i] == params[i].0;
      }
    }
    GetAt(row, 0, NameField);
    GetAt(row, 1, "rsIDSSYNAttackActivationThreshold");
    GetAt(row, 2, "rsIDSSYNAttackTerminationThreshold");
    GetAt(row, 3, "rsIDSSYNDestinationAppPortGroup");
    KeysLength(row);
    forall c | c in Keys(row) ensures Get(Body(name, api), c) == Get(row, c) {
      var idx :| 0 <= idx < |row| && Keys(row)[idx] == c;
      GetUpdate([(NameField, VStr(name))], api, c);
    }
  }

  /** The client's arguments `provider['server']`, `['username']` and `['password']`, read in
      that order: the `KeyError` message of the first one missing. */
  function MissingProvider(provider: Dict): Option<string>
  {
    if Get(provider, "server").None? then Some(KeyError("server"))
    else if Get(provider, "username").None? then Some(KeyError("username"))
    else if Get(provider, "password").None? then Some(KeyError("password"))
    else None
  }

  function CreateRequest(dp: string, name: string, body: Dict): Request
  {
    Request(POST, ConfigPath(dp, AttackTable + "/0"), Some(VDict(body)))
  }

  /** The module: a provider without `server`, `username` or `password` fails, in check mode
      too; check mode then sends nothing and reports no change; otherwise one POST, and any
      JSON reply, whatever its status, is the response of a change. */
  function Run(m: IntMaps, name: string, params: Dict, provider: Dict, checkMode: bool, dp: string, net: Net): Exit
  {
    match MissingProvider(provider)
    case Some(e) => Failed(e, [])
    case None =>
      if checkMode then Exited(false, Some(VDict([])), [])
      else
        var req := CreateRequest(dp, name, Body(name, Translated(m, params)));
        match net(0)
        case Raised(e) => Failed(e, [req])
        case Returned(r) =>
          match JsonOf(r)
          case None => Failed("Invalid JSON response: " + r.text, [req])
          case Some(data) => Exited(true, Some(data), [req])
  }

  method RunModule(name: string, params: Dict, provider: Dict, checkMode: bool, dp: string, net: Net) returns (r: Exit)
    ensures r == Run(CreateMaps, name, params, provider, checkMode, dp, net)
  {
    var missing := MissingProvider(provider);
    if missing.Some? {
      return Failed(missing.value, []);
    }
    if checkMode {
      return Exited(false, Some(VDict([])), []);
    }
    var api := TranslateParams(params);
    var req := CreateRequest(dp, name, Body(name, api));
    var o := net(0);
    if o.Raised? {
      return Failed(o.msg, [req]);
    }
    var data := JsonOf(o.reply);
    if data.None? {
      return Failed("Invalid JSON response: " + o.reply.text, [req]);
    }
    r := Exited(true, Some(data.value), [req]);
  }

  /** A provider given as `cc_ip`, `username` and `password`, without `server`, fails with the
      `KeyError` for `server` whatever the mode and sends nothing.  With a complete provider,
      check mode sends nothing and reports no change; otherwise exactly one POST of the named
      body to index 0 is sent, and the run reports a change exactly when the reply is JSON. */
  lemma RunOutcome(m: IntMaps, name: string, params: Dict, provider: Dict, checkMode: bool, dp: string, net: Net)
    ensures var r := Run(m, name, params, provider, checkMode, dp, net);
      (Get(provider, "server").None? ==> r == Failed("'server'", [])) &&
      (MissingProvider(provider).None? && checkMode ==> r == Exited(false, Some(VDict([])), [])) &&
      (MissingProvider(provider).None? && !checkMode ==>
        r.sent == [CreateRequest(dp, name, Body(name, Translated(m, params)))] &&
        (r.Exited? <==> net(0).Returned? && net(0).reply.json.Some?) &&
        (r.Exited? ==> r.changed && r.response == net(0).reply.json) &&
        (net(0).Returned? && net(0).reply.json.None? ==> r.msg == "Invalid JSON response: " + net(0).reply.text))
  {
  }
}

/** Creating one connection-limit protection (plugins/modules/create_cl_protection.py): the five
    word parameters are translated to device codes first, and outside check mode the full
    seven-column row is POSTed to `rsIDSConnectionLimitAttackTable/{index}`, optionally after
    one GET of the table that refreshes the device state. */
module CreateClProtection {
  import opened Py
  import opened Http
  import opened Tables
  import opened ConnectionLimit

  /** `module.params[key]`: the given value, or the argument's default when it is left out. */
  function Param(params: Dict, key: string, default: Value): Value
  {
    GetOr(params, key, default)
  }

  /** `MAP[module.params[key]]`; a `KeyError` reports the value's `repr`, and a list or dict
      raises a `TypeError` instead. */
  function Translated(params: Dict, key: string, t: Table, default: string): Result<string>
  {
    var v := Param(params, key, VStr(default));
    match Code(t, v)
    case Err(e) => Err(e)
    case Ok(None) => Err("Invalid parameter value: " + Repr(v))
    case Ok(Some(c)) => Ok(c)
  }

  /** The value given for a word parameter (or its default) is a word of its table. */
  predicate Listed(params: Dict, key: string, t: Table, default: string)
  {
    var v := Param(params, key, VStr(default));
    v.VStr? && v.s in Keys(t)
  }

  datatype Codes = Codes(protocol: string, tracking: string, attackType: string, action: string, packetReport: string)

  /** The five lookups, in the source's order; the first that fails ends the module. */
  function Translate(params: Dict): Result<Codes>
  {
    match Translated(params, "protocol", Protocols, "tcp")
    case Err(e) => Err(e)
    case Ok(protocol) =>
      match Translated(params, "tracking_type", TrackingTypes, "dst_ip")
      case Err(e) => Err(e)
      case Ok(tracking) =>
        match Translated(params, "protection_type", AttackTypes, "cps")
        case Err(e) => Err(e)
        case Ok(attackType) =>
          match Translated(params, "action", Actions, "drop")
          case Err(e) => Err(e)
          case Ok(action) =>
            match Translated(params, "packet_report", PacketReports, "disable")
            case Err(e) => Err(e)
            case Ok(packetReport) => Ok(Codes(protocol, tracking, attackType, action, packetReport))
  }

  lemma TranslatedExact(params: Dict, key: string, t: Table, default: string)
    ensures Translated(params, key, t, default).Ok? <==> Listed(params, key, t, default)
    ensures Translated(params, key, t, default).Ok? ==>
      (Param(params, key, VStr(default)).s, Translated(params, key, t, default).value) in t
  {
    CodeExact(t, Param(params, key, VStr(default)));
  }

  /** Translation succeeds exactly when each of the five values (or its default) is spelled as a
      word of its table, and then every code is the one its table lists for that word. */
  lemma TranslateExact(params: Dict)
    ensures Translate(params).Ok? <==>
      Listed(params, "protocol", Protocols, "tcp") && Listed(params, "tracking_type", TrackingTypes, "dst_ip") &&
      Listed(params, "protection_type", AttackTypes, "cps") && Listed(params, "action", Actions, "drop") &&
      Listed(params, "packet_report", PacketReports, "disable")
    ensures Translate(params).Ok? ==>
      var c := Translate(params).value;
      (Param(params, "protocol", VStr("tcp")).s, c.protocol) in Protocols &&
      (Param(params, "tracking_type", VStr("dst_ip")).s, c.tracking) in TrackingTypes &&
      (Param(params, "protection_type", VStr("cps")).s, c.attackType) in AttackTypes &&
      (Param(params, "action", VStr("drop")).s, c.action) in Actions &&
      (Param(params, "packet_report", VStr("disable")).s, c.packetReport) in PacketReports
  {
    TranslatedExact(params, "protocol", Protocols, "tcp");
    TranslatedExact(params, "tracking_type", TrackingTypes, "dst_ip");
    TranslatedExact(params, "protection_type", AttackTypes, "cps");
    TranslatedExact(params, "action", Actions, "drop");
    TranslatedExact(params, "packet_report", PacketReports, "disable");
  }

  /** A word parameter that is left out translates through its default. */
  lemma DefaultWord(params: Dict, key: string, t: Table, default: string, code: string)
    requires key !in Keys(params) && Get(t, default) == Some(code)
    ensures Translated(params, key, t, default) == Ok(code)
  {
    GetSome(params, key);
  }

  /** With every word parameter left out, the defaults translate to tcp 2, dst_ip 3, cps 1,
      drop 10 and disable 2. */
  lemma DefaultCodes(params: Dict)
    requires forall k :: k in ["protocol", "tracking_type", "protection_type", "action", "packet_report"] ==> k !in Keys(params)
    ensures Translate(params) == Ok(Codes("2", "3", "1", "10", "2"))
  {
    var ks := ["protocol", "tracking_type", "protection_type", "action", "packet_report"];
    assert ks[0] in ks && ks[1] in ks && ks[2] in ks && ks[3] in ks && ks[4] in ks;
    DefaultWord(params, "protocol", Protocols, "tcp", "2");
    assert Get(TrackingTypes, "dst_ip") == Some("3") by {
      assert TrackingTypes[0].0[|TrackingTypes[0].0| - 1] != 't';
    }
    DefaultWord(params, "tracking_type", TrackingTypes, "dst_ip", "3");
    DefaultWord(params, "protection_type", AttackTypes, "cps", "1");
    assert Get(Actions, "drop") == Some("10") by {
      assert Actions[0].0[0] != 'd';
    }
    DefaultWord(params, "action", Actions, "drop", "10");
    assert Get(PacketReports, "disable") == Some("2") by {
      assert PacketReports[0].0[0] != 'd';
    }
    DefaultWord(params, "packet_report", PacketReports, "disable", "2");
  }

  /** The row as POSTed: all seven columns, with the name and threshold passed through. */
  function CreateBody(params: Dict, c: Codes): Dict
  {
    [ (Column("Name"), Param(params, "protection_name", VNone)),
      (Column("Protocol"), VStr(c.protocol)),
      (Column("Threshold"), Param(params, "threshold", VStr("50"))),
      (Column("TrackingType"), VStr(c.tracking)),
      (Column("ReportMode"), VStr(c.action)),
      (Column("PacketReport"), VStr(c.packetReport)),
      (Column("Type"), VStr(c.attackType)) ]
  }

  /** The body has exactly the seven columns, each once, and the threshold is the parameter
      (50 when left out) unchanged. */
  lemma BodyFields(params: Dict, c: Codes)
    ensures Keys(CreateBody(params, c)) ==
      [Column("Name"), Column("Protocol"), Column("Threshold"), Column("TrackingType"), Column("ReportMode"), Column("PacketReport"), Column("Type")]
    ensures UniqueKeys(CreateBody(params, c))
    ensures Get(CreateBody(params, c), Column("Threshold")) == Some(Param(params, "threshold", VStr("50")))
    ensures Get(CreateBody(params, c), Column("Protocol")) == Some(VStr(c.protocol))
  {
    var b := CreateBody(params, c);
    KeysLength(b);
    var suffixes := ["Name", "Protocol", "Threshold", "TrackingType", "ReportMode", "PacketReport", "Type"];
    forall i, j | 0 <= i < j < |b| ensures b[i].0 != b[j].0 {
      assert b[i].0 == Column(suffixes[i]) && b[j].0 == Column(suffixes[j]);
      assert |suffixes[i]| != |suffixes[j]| || suffixes[i][0] != suffixes[j][0];
      if b[i].0 == b[j].0 {
        ColumnInjective(suffixes[i], suffixes[j]);
      }
    }
    assert b[0].0 != Column("Threshold") && b[1].0 != Column("Threshold") by {
      if b[0].0 == Column("Threshold") { ColumnInjective("Name", "Threshold"); }
      if b[1].0 == Column("Threshold") { ColumnInjective("Protocol", "Threshold"); }
    }
    GetAt(b, 2, Column("Threshold"));
    assert b[0].0 != Column("Protocol") by {
      if b[0].0 == Column("Protocol") { ColumnInjective("Name", "Protocol"); }
    }
    GetAt(b, 1, Column("Protocol"));
  }

  function CreateRequest(dp: string, params: Dict, c: Codes): Request
  {
    Request(POST, ConfigPath(dp, "rsIDSConnectionLimitAttackTable/" + Str(Param(params, "index", VInt(0)))),
            Some(VDict(CreateBody(params, c))))
  }

  /** How the module ends: `fail_json` with a message, or `exit_json` with `changed` and the
      response; either way with the requests it sent. */
  datatype RunResult =
    | Failed(msg: string, sent: seq<Request>)
    | Done(changed: bool, response: Value, sent: seq<Request>)

  /** The reply to the POST: its JSON makes the change; an exception, or a reply that is not
      JSON, fails the module. */
  function Conclude(sent: seq<Request>, o: Outcome): RunResult
  {
    match o
    case Raised(e) => Failed(e, sent)
    case Returned(r) =>
      match r.json
      case None => Failed("Invalid JSON response: " + r.text, sent)
      case Some(data) => Done(true, data, sent)
  }

  function Run(params: Dict, checkMode: bool, dp: string, net: Net): RunResult
  {
    match Translate(params)
    case Err(e) => Failed(e, [])
    case Ok(c) =>
      if checkMode then Done(false, VDict([]), [])
      else
        var refresh := if Truthy(Param(params, "refresh_state", VBool(false))) then [RefreshRequest(dp)] else [];
        Conclude(refresh + [CreateRequest(dp, params, c)], net(|refresh|))
  }

  method RunModule(params: Dict, checkMode: bool, dp: string, net: Net) returns (r: RunResult)
    ensures r == Run(params, checkMode, dp, net)
  {
    var codes := Translate(params);
    if codes.Err? {
      return Failed(codes.msg, []);
    }
    if checkMode {
      return Done(false, VDict([]), []);
    }
    var sent: seq<Request> := [];
    if Truthy(Param(params, "refresh_state", VBool(false))) {
      // Whatever the refresh GET returns or raises, the module carries on.
      sent := sent + [RefreshRequest(dp)];
    }
    var k := |sent|;
    sent := sent + [CreateRequest(dp, params, codes.value)];
    r := Conclude(sent, net(k));
  }

  /** An untranslatable value fails the module before any request, check mode included; check
      mode otherwise sends nothing and changes nothing. Outside check mode the module sends one
      refresh GET exactly when `refresh_state` is set, then the POST of the full row, and its
      result depends only on the POST's reply: a change exactly when that reply is JSON. */
  lemma RunOutcome(params: Dict, checkMode: bool, dp: string, net: Net)
    ensures var r := Run(params, checkMode, dp, net);
      (Translate(params).Err? ==> r == Failed(Translate(params).msg, [])) &&
      (Translate(params).Ok? && checkMode ==> r == Done(false, VDict([]), [])) &&
      (Translate(params).Ok? && !checkMode ==>
         var refresh := Truthy(Param(params, "refresh_state", VBool(false)));
         var post := if refresh then net(1) else net(0);
         r.sent == (if refresh then [RefreshRequest(dp)] else []) + [CreateRequest(dp, params, Translate(params).value)] &&
         (r.Done? <==> post.Returned? && post.reply.json.Some?) &&
         (r.Done? ==> r.changed && r.response == post.reply.json.value))
  {
  }

  /** The POST goes to row 0 when no index is given. */
  lemma DefaultIndex(dp: string, params: Dict, c: Codes)
    requires "index" !in Keys(params)
    ensures CreateRequest(dp, params, c).path == ConfigPath(dp, "rsIDSConnectionLimitAttackTable/0")
  {
    GetSome(params, "index");
    assert IntToString(0) == "0";
  }
}

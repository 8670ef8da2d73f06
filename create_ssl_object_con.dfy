/** Creation of an SSL protected object or an HTTPS-flood profile
    (plugins/modules/create_ssl_object_con.py): `profile_type` chooses the table, the name
    column and the body; one POST is sent outside check mode. */
module CreateSslObjectCon {
  import opened Py
  import opened Http
  import opened Tables
  import opened SingleProfile
  import CreateHttpProfile

  const SslTable := "rsProtectedSslObjTable"
  const SslNameField := "rsProtectedObjName"
  const HttpsTable := "rsHttpsFloodProfileTable"
  const HttpsNameField := "rsHttpsFloodProfileName"

  const SwitchCodes: Codes := [("enable", 1), ("disable", 2)]
  const ActionCodes: Codes := [("report", 0), ("block & report", 1)]
  const ChallengeCodes: Codes := [("httpRedirect", 1), ("javaScript", 2)]

  /** `HTTPS_PARAMS_MAP`: display name to device column. */
  const HttpsParamsMap: Table := [
    ("Profile Action", "rsHttpsFloodProfileAction"),
    ("Rate Limit", "rsHttpsFloodProfileRateLimit"),
    ("Selective Challenge", "rsHttpsFloodProfileSelectiveChallenge"),
    ("Collective Challenge", "rsHttpsFloodProfileCollectiveChallenge"),
    ("Challenge Method", "rsHttpsFloodProfileChallengeMethod"),
    ("Rate Limit Status", "rsHttpsFloodProfileRateLimitStatus"),
    ("Full Session Decryption", "rsHttpsFloodProfileFullSessionDecryption")
  ]

  /** `HTTPS_NUMERIC_MAPPING`: per display name, its words and their integer codes. */
  const HttpsNumericMapping: seq<(string, Codes)> := [
    ("Profile Action", ActionCodes),
    ("Selective Challenge", SwitchCodes),
    ("Collective Challenge", SwitchCodes),
    ("Challenge Method", ChallengeCodes),
    ("Rate Limit Status", SwitchCodes),
    ("Full Session Decryption", SwitchCodes)
  ]

  const HttpsMaps := IntMaps(HttpsParamsMap, HttpsNumericMapping)

  /** `profile_type`, which Ansible restricts to `ssl` or `https`. */
  datatype ProfileType = Ssl | Https

  // ---------------------------------------------------------------------------------------------
  // The two bodies
  // ---------------------------------------------------------------------------------------------

  /** `translate_https_params`: it never raises. */
  function TranslatedHttps(m: IntMaps, params: Dict): Dict
  {
    TranslateTotal(params, IntStepOf(m));
    Translate(params, IntStepOf(m)).value
  }

  method TranslateHttpsParams(params: Dict) returns (d: Dict)
    ensures d == TranslatedHttps(HttpsMaps, params)
  {
    TranslateTotal(params, IntStepOf(HttpsMaps));
    var r := TranslateLoop(params, IntStepOf(HttpsMaps));
    d := r.value;
  }

  /** The SSL object: its name, enabled (`"1"`) or not (`"2"`), its address and its port. */
  function SslBody(name: string, params: Dict): Dict
  {
    [(SslNameField, VStr(name)),
     ("rsProtectedObjEnable", VStr(if GetOr(params, "ssl_object_profile", VStr("enable")) == VStr("enable") then "1" else "2")),
     ("rsProtectedObjIpAddr", GetOr(params, "IP_Address", VStr(""))),
     ("rsProtectedObjApplPort", GetOr(params, "Port", VInt(443)))]
  }

  /** The SSL object is enabled exactly when `ssl_object_profile` is absent or the string
      `enable`; it is disabled for any other value, `Enable` included.  A missing address is
      sent as the empty string and a missing port as 443; given ones are sent as they are. */
  lemma SslBodyFields(name: string, params: Dict)
    ensures var b := SslBody(name, params);
      Get(b, SslNameField) == Some(VStr(name)) &&
      (Get(b, "rsProtectedObjEnable") == Some(VStr("1")) <==>
         Get(params, "ssl_object_profile").None? || Get(params, "ssl_object_profile") == Some(VStr("enable"))) &&
      (Get(b, "rsProtectedObjEnable") == Some(VStr("1")) || Get(b, "rsProtectedObjEnable") == Some(VStr("2"))) &&
      Get(b, "rsProtectedObjIpAddr") == Some(match Get(params, "IP_Address") case Some(a) => a case None => VStr("")) &&
      Get(b, "rsProtectedObjApplPort") == Some(match Get(params, "Port") case Some(p) => p case None => VInt(443))
  {
    var b := SslBody(name, params);
    GetAt(b, 1, "rsProtectedObjEnable");
    GetAt(b, 2, "rsProtectedObjIpAddr");
    GetAt(b, 3, "rsProtectedObjApplPort");
  }

  /** `{"rsHttpsFloodProfileName": name}` updated with the translated parameters. */
  function HttpsBody(name: string, params: Dict): Dict
  {
    Update([(HttpsNameField, VStr(name))], TranslatedHttps(HttpsMaps, params))
  }

  /** The request for each profile type: its table, keyed by the name, and its body. */
  function Target(kind: ProfileType, dp: string, name: string, params: Dict): Request
  {
    match kind
    case Ssl => Request(POST, ConfigPath(dp, SslTable + "/" + name), Some(VDict(SslBody(name, params))))
    case Https => Request(POST, ConfigPath(dp, HttpsTable + "/" + name), Some(VDict(HttpsBody(name, params))))
  }

  /** The HTTPS tables are those of the display-name creator, so the `https` request is exactly
      the one that module sends for the same name and parameters. */
  lemma HttpsIsHttpCreate(dp: string, name: string, params: Dict)
    ensures Target(Https, dp, name, params) ==
      CreateHttpProfile.CreateRequest(dp, name, CreateHttpProfile.Body(name, CreateHttpProfile.Translated(CreateHttpProfile.CreateMaps, params)))
  {
    assert HttpsMaps == CreateHttpProfile.CreateMaps;
  }

  /** The request names the object in the type's own name column, at the type's own table. */
  lemma TargetNames(kind: ProfileType, dp: string, name: string, params: Dict)
    requires kind == Https ==> UniqueKeys(params) && Get(params, HttpsNameField).None?
    ensures var req := Target(kind, dp, name, params);
      req.verb == POST &&
      req.path == ConfigPath(dp, (if kind == Ssl then SslTable else HttpsTable) + "/" + name) &&
      Get(req.body.value.entries, if kind == Ssl then SslNameField else HttpsNameField) == Some(VStr(name))
  {
    if kind == Https {
      HttpsIsHttpCreate(dp, name, params);
      CreateHttpProfile.BodyName(name, params);
    }
  }

  // ---------------------------------------------------------------------------------------------
  // The POST
  // ---------------------------------------------------------------------------------------------

  /** `resp.json()`, or `{"raw": resp.text}` when the reply is not JSON. */
  function Data(r: Reply): Value
  {
    match JsonOf(r) case Some(j) => j case None => RawBody(r)
  }

  /** The module: check mode sends nothing and reports no change; otherwise one POST, and any
      reply, whatever its status, is the response of a change. */
  function Run(kind: ProfileType, name: string, params: Dict, checkMode: bool, dp: string, net: Net): Exit
  {
    if checkMode then Exited(false, Some(VDict([])), [])
    else
      var req := Target(kind, dp, name, params);
      match net(0)
      case Raised(e) => Failed(e, [req])
      case Returned(r) => Exited(true, Some(Data(r)), [req])
  }

  method RunModule(kind: ProfileType, name: string, params: Dict, checkMode: bool, dp: string, net: Net) returns (r: Exit)
    ensures r == Run(kind, name, params, checkMode, dp, net)
  {
    if checkMode {
      return Exited(false, Some(VDict([])), []);
    }
    var req;
    if kind == Ssl {
      req := Request(POST, ConfigPath(dp, SslTable + "/" + name), Some(VDict(SslBody(name, params))));
    } else {
      var api := TranslateHttpsParams(params);
      req := Request(POST, ConfigPath(dp, HttpsTable + "/" + name), Some(VDict(Update([(HttpsNameField, VStr(name))], api))));
    }
    var o := net(0);
    if o.Raised? {
      return Failed(o.msg, [req]);
    }
    r := Exited(true, Some(Data(o.reply)), [req]);
  }

  /** Check mode sends nothing and reports no change.  Otherwise exactly the one POST of the
      type's request is sent, and the run reports a change exactly when the POST returns; the
      response is the reply's JSON, or its text under `raw`. */
  lemma RunOutcome(kind: ProfileType, name: string, params: Dict, checkMode: bool, dp: string, net: Net)
    ensures var r := Run(kind, name, params, checkMode, dp, net);
      (checkMode ==> r == Exited(false, Some(VDict([])), [])) &&
      (!checkMode ==>
        r.sent == [Target(kind, dp, name, params)] &&
        (r.Exited? <==> net(0).Returned?) &&
        (r.Exited? ==>
           r.changed &&
           r.response == Some(if net(0).reply.json.Some? then net(0).reply.json.value else VDict([("raw", VStr(net(0).reply.text))]))) &&
        (r.Failed? ==> r.msg == net(0).msg))
  {
  }
}

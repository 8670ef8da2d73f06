/** HTTPS-flood profile creation from display names (plugins/modules/create_http_profile.py):
    display-name keys are renamed to device columns, enumerated words become integer codes,
    digit strings become integers, and the profile is POSTed under its name. */
module CreateHttpProfile {
  import opened Py
  import opened Http
  import opened Tables
  import opened SingleProfile

  const ProfileTable := "rsHttpsFloodProfileTable"
  const NameField := "rsHttpsFloodProfileName"

  const SwitchCodes: Codes := [("enable", 1), ("disable", 2)]
  const ActionCodes: Codes := [("report", 0), ("block & report", 1)]
  const ChallengeCodes: Codes := [("httpRedirect", 1), ("javaScript", 2)]

  /** `PARAMS_MAP`: display name to device column. */
  const ParamsMap: Table := [
    ("Profile Action", "rsHttpsFloodProfileAction"),
    ("Rate Limit", "rsHttpsFloodProfileRateLimit"),
    ("Selective Challenge", "rsHttpsFloodProfileSelectiveChallenge"),
    ("Collective Challenge", "rsHttpsFloodProfileCollectiveChallenge"),
    ("Challenge Method", "rsHttpsFloodProfileChallengeMethod"),
    ("Rate Limit Status", "rsHttpsFloodProfileRateLimitStatus"),
    ("Full Session Decryption", "rsHttpsFloodProfileFullSessionDecryption")
  ]

  /** `NUMERIC_MAPPING`: per display name, its words and their integer codes. */
  const NumericMapping: seq<(string, Codes)> := [
    ("Profile Action", ActionCodes),
    ("Selective Challenge", SwitchCodes),
    ("Collective Challenge", SwitchCodes),
    ("Challenge Method", ChallengeCodes),
    ("Rate Limit Status", SwitchCodes),
    ("Full Session Decryption", SwitchCodes)
  ]

  const CreateMaps := IntMaps(ParamsMap, NumericMapping)

  // ---------------------------------------------------------------------------------------------
  // The translation
  // ---------------------------------------------------------------------------------------------

  /** `translate_params`: it never raises. */
  function Translated(m: IntMaps, params: Dict): Dict
  {
    TranslateTotal(params, IntStepOf(m));
    Translate(params, IntStepOf(m)).value
  }

  method TranslateParams(params: Dict) returns (d: Dict)
    ensures d == Translated(CreateMaps, params)
  {
    TranslateTotal(params, IntStepOf(CreateMaps));
    var r := TranslateLoop(params, IntStepOf(CreateMaps));
    d := r.value;
  }

  /** The challenge method is matched exactly: `httpRedirect` is 1, `javaScript` is 2, and any
      other value, `javascript` included, is sent unchanged. */
  lemma ChallengeMethodExact(v: Value)
    ensures IntStep(CreateMaps, "Challenge Method", v) == Emit("rsHttpsFloodProfileChallengeMethod",
      if Str(v) == "httpRedirect" then VInt(1) else if Str(v) == "javaScript" then VInt(2) else v)
  {
    GetAt(NumericMapping, 3, "Challenge Method");
    GetAt(ParamsMap, 4, "Challenge Method");
    var s := Str(v);
    if s != "httpRedirect" && s != "javaScript" {
      GetSome(ChallengeCodes, s);
    }
  }

  /** The rate limit, which has no enum table, is sent as the integer `int()` reads from it when
      its string is all digits, and unchanged otherwise. */
  lemma RateLimitDigits(v: Value)
    ensures IntStep(CreateMaps, "Rate Limit", v) == Emit("rsHttpsFloodProfileRateLimit", DigitsToInt(v))
  {
    GetAt(ParamsMap, 1, "Rate Limit");
    GetSome(NumericMapping, "Rate Limit");
  }

  /** No display name is the name column, and no column is it either. */
  lemma NameFieldUnmapped(k: string)
    ensures GetOr(ParamsMap, k, k) == NameField <==> k == NameField
    ensures Get(NumericMapping, NameField).None?
  {
    GetSome(ParamsMap, k);
    GetSome(NumericMapping, NameField);
  }

  // ---------------------------------------------------------------------------------------------
  // The POST
  // ---------------------------------------------------------------------------------------------

  /** `{"rsHttpsFloodProfileName": name}` updated with the translated parameters. */
  function Body(name: string, api: Dict): Dict
  {
    Update([(NameField, VStr(name))], api)
  }

  /** The translation holds the name column exactly when the parameters carry a key spelled
      as that column, converted like any plain value. */
  lemma TranslatedName(params: Dict)
    requires UniqueKeys(params)
    ensures Get(Translated(CreateMaps, params), NameField) ==
      match Get(params, NameField) case Some(v) => Some(DigitsToInt(v)) case None => None
  {
    var step := IntStepOf(CreateMaps);
    TranslateTotal(params, step);
    TranslateLastWins(params, step, NameField);
    forall i | 0 <= i < |params| ensures StepAt(params, step, i).key == NameField <==> params[i].0 == NameField {
      NameFieldUnmapped(params[i].0);
    }
    GetSome(params, NameField);
    KeysLength(params);
    var d := Translated(CreateMaps, params);
    if Get(d, NameField).Some? {
      var i :| 0 <= i < |params| && StepAt(params, step, i) == Emit(NameField, Get(d, NameField).value);
      GetUnique(params, i);
      NameFieldUnmapped(NameField);
    }
  }

  /** The name column holds the module's `name` unless the parameters carry a key spelled as
      that column, which then overrides it. */
  lemma BodyName(name: string, params: Dict)
    requires UniqueKeys(params)
    ensures Get(Body(name, Translated(CreateMaps, params)), NameField) ==
      match Get(params, NameField) case Some(v) => Some(DigitsToInt(v)) case None => Some(VStr(name))
  {
    TranslateTotal(params, IntStepOf(CreateMaps));
    TranslateContents(params, IntStepOf(CreateMaps));
    TranslatedName(params);
    GetUpdate([(NameField, VStr(name))], Translated(CreateMaps, params), NameField);
  }

  /** `/mgmt/device/byip/{dp_ip}/config/rsHttpsFloodProfileTable/{name}` */
  function ProfilePath(dp: string, name: string): string
  {
    ConfigPath(dp, ProfileTable + "/" + name)
  }

  function CreateRequest(dp: string, name: string, body: Dict): Request
  {
    Request(POST, ProfilePath(dp, name), Some(VDict(body)))
  }

  /** The module: check mode sends nothing and reports no change; otherwise one POST whose
      readable reply, whatever its status, is the response of a change. */
  function Run(m: IntMaps, name: string, params: Dict, checkMode: bool, dp: string, net: Net): Exit
  {
    if checkMode then Exited(false, Some(VDict([])), [])
    else
      var req := CreateRequest(dp, name, Body(name, Translated(m, params)));
      match net(0)
      case Raised(e) => Failed(e, [req])
      case Returned(r) =>
        match BodyByContentType(r)
        case None => Failed(JsonDecodeError, [req])
        case Some(data) => Exited(true, Some(data), [req])
  }

  method RunModule(name: string, params: Dict, checkMode: bool, dp: string, net: Net) returns (r: Exit)
    ensures r == Run(CreateMaps, name, params, checkMode, dp, net)
  {
    if checkMode {
      return Exited(false, Some(VDict([])), []);
    }
    var api := TranslateParams(params);
    var req := CreateRequest(dp, name, Body(name, api));
    var o := net(0);
    if o.Raised? {
      return Failed(o.msg, [req]);
    }
    var data := BodyByContentType(o.reply);
    if data.None? {
      return Failed(JsonDecodeError, [req]);
    }
    r := Exited(true, Some(data.value), [req]);
  }

  /** Check mode sends nothing and reports no change.  Otherwise exactly the one POST of the
      named body is sent, and the run reports a change exactly when the reply is readable,
      whatever its status. */
  lemma RunOutcome(m: IntMaps, name: string, params: Dict, checkMode: bool, dp: string, net: Net)
    ensures var r := Run(m, name, params, checkMode, dp, net);
      (checkMode ==> r == Exited(false, Some(VDict([])), [])) &&
      (!checkMode ==>
        r.sent == [CreateRequest(dp, name, Body(name, Translated(m, params)))] &&
        (r.Exited? <==> net(0).Returned? && BodyByContentType(net(0).reply).Some?) &&
        (r.Exited? ==> r.changed && r.response == BodyByContentType(net(0).reply)))
  {
  }
}

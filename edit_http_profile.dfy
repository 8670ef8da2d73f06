/** HTTPS-flood profile editing from display names (plugins/modules/edit_http_profile.py):
    display-name keys are renamed to device columns, every value is sent as a string
    (enumerated words as their code strings), and the profile is PUT under its name. */
module EditHttpProfile {
  import opened Py
  import opened Http
  import opened Tables
  import opened SingleProfile
  import CreateHttpProfile

  const ProfileTable := "rsHttpsFloodProfileTable"

  const SwitchCodes: Table := [("enable", "1"), ("disable", "2")]
  const ActionCodes: Table := [("report", "0"), ("block & report", "1")]
  const ChallengeCodes: Table := [("httpRedirect", "1"), ("javaScript", "2")]

  /** `PARAMS_MAP`: display name to device column. */
  const ParamsMap: Table := [
    ("Profile Action", "rsHttpsFloodProfileAction"),
    ("Rate Limit", "rsHttpsFloodProfileRateLimit"),
    ("Selective Challenge", "rsHttpsFloodProfileSelectiveChallenge"),
    ("Collective Challenge", "rsHttpsFloodProfileCollectiveChallenge"),
    ("Challenge Method", "rsHttpsFloodProfileChallengeMethod"),
    ("Rate Limit Status", "rsHttpsFloodProfileRateLimitStatus"),
    ("Full Session Decryption", "rsHttpsFloodProfileFullSessionDecryption")
  ]

  /** `NUMERIC_MAPPING`: per display name, its words and their code strings. */
  const NumericMapping: seq<(string, Table)> := [
    ("Profile Action", ActionCodes),
    ("Selective Challenge", SwitchCodes),
    ("Collective Challenge", SwitchCodes),
    ("Challenge Method", ChallengeCodes),
    ("Rate Limit Status", SwitchCodes),
    ("Full Session Decryption", SwitchCodes)
  ]

  const EditMaps := FieldMaps(ParamsMap, NumericMapping)

  // ---------------------------------------------------------------------------------------------
  // The translation
  // ---------------------------------------------------------------------------------------------

  /** `translate_params`: it never raises. */
  function Translated(m: FieldMaps, params: Dict): Dict
  {
    StrTranslation(m, params);
    Translate(params, StrStepOf(m)).value
  }

  method TranslateParams(params: Dict) returns (d: Dict)
    ensures d == Translated(EditMaps, params)
  {
    var r := TranslateLoop(params, StrStepOf(EditMaps));
    StrTranslation(EditMaps, params);
    d := r.value;
  }

  /** Every value sent is a string, and the body holds exactly the renamed keys: a known display
      name under its device column, any other key as given. */
  lemma TranslatedShape(params: Dict)
    ensures var d := Translated(EditMaps, params);
      (forall j :: 0 <= j < |d| ==> d[j].1.VStr?) &&
      forall k :: Get(d, k).Some? <==> exists i :: 0 <= i < |params| && GetOr(ParamsMap, params[i].0, params[i].0) == k
  {
    StrTranslation(EditMaps, params);
  }

  /** The enum lookup is exact and falls back to the value's string. */
  lemma ChallengeMethodExact(v: Value)
    ensures StrStep(EditMaps, "Challenge Method", v) == Emit("rsHttpsFloodProfileChallengeMethod",
      VStr(if Str(v) == "httpRedirect" then "1" else if Str(v) == "javaScript" then "2" else Str(v)))
  {
    GetAt(NumericMapping, 3, "Challenge Method");
    GetAt(ParamsMap, 4, "Challenge Method");
    var s := Str(v);
    if s != "httpRedirect" && s != "javaScript" {
      GetSome(ChallengeCodes, s);
    }
  }

  /** The editor's tables are the creator's with every code written as a string. */
  lemma TablesStringified()
    ensures Stringified(CreateHttpProfile.CreateMaps, EditMaps)
  {
    assert StrCodes(CreateHttpProfile.SwitchCodes) == SwitchCodes;
    assert StrCodes(CreateHttpProfile.ActionCodes) == ActionCodes;
    assert StrCodes(CreateHttpProfile.ChallengeCodes) == ChallengeCodes;
    StringifiedByIndex(CreateHttpProfile.CreateMaps, EditMaps);
  }

  /** The editor sends the string of every value the creator sends, under the same keys, as
      long as no plain value is a zero-padded number (which the creator would shorten to its
      integer). */
  lemma StringsOfCreate(params: Dict)
    requires forall i :: 0 <= i < |params| ==> Unpadded(CreateHttpProfile.CreateMaps, params[i].0, params[i].1)
    ensures Translated(EditMaps, params) == MapValues(CreateHttpProfile.Translated(CreateHttpProfile.CreateMaps, params), StrValue)
  {
    TablesStringified();
    StrOfIntTranslation(CreateHttpProfile.CreateMaps, EditMaps, params);
  }

  // ---------------------------------------------------------------------------------------------
  // The PUT
  // ---------------------------------------------------------------------------------------------

  /** `/mgmt/device/byip/{dp_ip}/config/rsHttpsFloodProfileTable/{name}` */
  function ProfilePath(dp: string, name: string): string
  {
    ConfigPath(dp, ProfileTable + "/" + name)
  }

  function EditRequest(dp: string, name: string, body: Dict): Request
  {
    Request(PUT, ProfilePath(dp, name), Some(VDict(body)))
  }

  /** The module: check mode reports a change without sending; otherwise one PUT, which
      succeeds on status 200 or 204 with a readable reply. */
  function Run(m: FieldMaps, name: string, params: Dict, checkMode: bool, dp: string, net: Net): Exit
  {
    var body := Translated(m, params);
    if checkMode then Exited(true, None, [])
    else
      var req := EditRequest(dp, name, body);
      match net(0)
      case Raised(e) => Failed(e, [req])
      case Returned(r) =>
        match BodyByContentType(r)
        case None => Failed(JsonDecodeError, [req])
        case Some(data) =>
          if r.status == 200 || r.status == 204 then Exited(true, Some(data), [req])
          else Failed("Failed to edit profile: HTTP " + IntToString(r.status), [req])
  }

  method RunModule(name: string, params: Dict, checkMode: bool, dp: string, net: Net) returns (r: Exit)
    ensures r == Run(EditMaps, name, params, checkMode, dp, net)
  {
    var body := TranslateParams(params);
    if checkMode {
      return Exited(true, None, []);
    }
    var req := EditRequest(dp, name, body);
    var o := net(0);
    if o.Raised? {
      return Failed(o.msg, [req]);
    }
    var data := BodyByContentType(o.reply);
    if data.None? {
      return Failed(JsonDecodeError, [req]);
    }
    if o.reply.status == 200 || o.reply.status == 204 {
      r := Exited(true, Some(data.value), [req]);
    } else {
      r := Failed("Failed to edit profile: HTTP " + IntToString(o.reply.status), [req]);
    }
  }

  /** Check mode sends nothing and reports a change.  Otherwise exactly the one PUT of the
      translated body is sent, and the run reports a change exactly when its reply is readable
      with status 200 or 204; any other readable status fails with that status. */
  lemma RunOutcome(m: FieldMaps, name: string, params: Dict, checkMode: bool, dp: string, net: Net)
    ensures var r := Run(m, name, params, checkMode, dp, net);
      (checkMode ==> r == Exited(true, None, [])) &&
      (!checkMode ==>
        r.sent == [EditRequest(dp, name, Translated(m, params))] &&
        (r.Exited? <==> net(0).Returned? && net(0).reply.status in {200, 204} && BodyByContentType(net(0).reply).Some?) &&
        (r.Exited? ==> r.changed && r.response == BodyByContentType(net(0).reply)) &&
        (net(0).Returned? && net(0).reply.status !in {200, 204} && BodyByContentType(net(0).reply).Some? ==>
           r.msg == "Failed to edit profile: HTTP " + IntToString(net(0).reply.status)))
  {
  }
}

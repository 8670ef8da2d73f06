/** Attaching a SYN protection to a SYN profile (plugins/modules/create_syn_profile.py): the
    provider must name the controller and the credentials; the parameters are renamed to
    device columns with `profile_type` `syn_protection` sent as 4, merged over the pair's
    names, and POSTed to `rsIDSSynProfilesTable/{profile}/{protection}`. */
module CreateSynProfile {
  import opened Py
  import opened Http
  import opened Tables
  import opened SingleProfile
  import CreateSynProtection
  import CreateSynConfiguration

  const ProfilesTable := "rsIDSSynProfilesTable"

  /** `FIELD_MAP` and `VALUE_MAP`. */
  const FieldMap: Table := [("profile_type", "rsIDSSynProfileType")]
  const ValueMap: seq<(string, Codes)> := [("profile_type", [("syn_protection", 4)])]

  const CreateMaps := IntMaps(FieldMap, ValueMap)

  const ProviderRequired := "provider.cc_ip, provider.username, and provider.password are required"
  const CheckModeMessage := "Check mode - no changes applied"

  // ---------------------------------------------------------------------------------------------
  // The translation
  // ---------------------------------------------------------------------------------------------

  /** The `translate_params` comprehension: it never raises. */
  function Translated(m: IntMaps, params: Dict): Dict
  {
    TranslateTotal(params, CreateSynProtection.FallbackStepOf(m));
    Translate(params, CreateSynProtection.FallbackStepOf(m)).value
  }

  /** The profile type `syn_protection`, in any case, is sent as 4 under its column; every
      other key and value, strings included, is sent as given. */
  lemma StepAgreesWithConfiguration(k: string, v: Value)
    ensures CreateSynProtection.FallbackStep(CreateMaps, k, v) ==
      Emit(CreateSynConfiguration.ParamKey(k), CreateSynConfiguration.ParamValue(k, v))
  {
    if v.VStr? && k == "profile_type" {
      GetSome([("syn_protection", 4)], Lower(v.s));
    }
  }

  /** The pair's names with the translated parameters over them: the same dict, key by key,
      as the SYN configuration module's merge of the parameters into the pair's names. */
  lemma {:induction false} MergesLikeConfiguration(base: Dict, params: Dict, c: string)
    requires UniqueKeys(base)
    ensures Get(Update(base, Translated(CreateMaps, params)), c) == Get(CreateSynConfiguration.Merge(base, params), c)
    decreases |params|
  {
    var step := CreateSynProtection.FallbackStepOf(CreateMaps);
    TranslateTotal(params, step);
    TranslateContents(params, step);
    GetUpdate(base, Translated(CreateMaps, params), c);
    if params != [] {
      var n := |params| - 1;
      var init := params[..n];
      TranslateTotal(init, step);
      TranslateContents(init, step);
      MergesLikeConfiguration(base, init, c);
      GetUpdate(base, Translated(CreateMaps, init), c);
      StepAgreesWithConfiguration(params[n].0, params[n].1);
      var e := step(params[n].0, params[n].1);
      GetPut(Translated(CreateMaps, init), e.key, e.value, c);
      GetPut(CreateSynConfiguration.Merge(base, init), e.key, e.value, c);
    }
  }

  // ---------------------------------------------------------------------------------------------
  // The POST
  // ---------------------------------------------------------------------------------------------

  /** `{"rsIDSSynProfilesName": profile, "rsIDSSynProfileServiceName": protection}` updated with
      the translated parameters. */
  function Body(profile: string, protection: string, api: Dict): Dict
  {
    Update([("rsIDSSynProfilesName", VStr(profile)), ("rsIDSSynProfileServiceName", VStr(protection))], api)
  }

  function AttachRequest(dp: string, profile: string, protection: string, body: Dict): Request
  {
    Request(POST, ConfigPath(dp, ProfilesTable + "/" + profile + "/" + protection), Some(VDict(body)))
  }

  /** The request is the one the SYN configuration module sends to attach the same protection
      to the same profile with the same parameters: same verb, same path and, key by key, the
      same body. */
  lemma SameRequestAsConfiguration(dp: string, profile: string, protection: string, params: Dict)
    ensures var base := CreateSynConfiguration.PairBase(VStr(profile), VStr(protection));
      var ours := AttachRequest(dp, profile, protection, Body(profile, protection, Translated(CreateMaps, params)));
      var theirs := CreateSynConfiguration.PostRequest(dp,
        CreateSynConfiguration.AttachJob(VStr(profile), VStr(protection), VDict(params), CreateSynConfiguration.Merge(base, params)), Str);
      ours.verb == theirs.verb && ours.path == theirs.path &&
      forall c :: Get(ours.body.value.entries, c) == Get(theirs.body.value.entries, c)
  {
    var base := CreateSynConfiguration.PairBase(VStr(profile), VStr(protection));
    assert Str(VStr(profile)) == profile && Str(VStr(protection)) == protection;
    forall c ensures Get(Body(profile, protection, Translated(CreateMaps, params)), c) == Get(CreateSynConfiguration.Merge(base, params), c) {
      MergesLikeConfiguration(base, params, c);
    }
  }

  /** `all([cc_ip, username, password])` over `provider.get(...)`: all three present and
      truthy. */
  predicate ProviderComplete(provider: Dict)
  {
    Truthy(GetOr(provider, "cc_ip", VNone)) && Truthy(GetOr(provider, "username", VNone)) &&
    Truthy(GetOr(provider, "password", VNone))
  }

  /** The module: an incomplete provider fails before anything else; check mode, after the
      translation, reports a change without sending; otherwise one POST, whose reply must be
      JSON with status 200 or 201. */
  function Run(m: IntMaps, profile: string, protection: string, params: Dict, provider: Dict,
               checkMode: bool, dp: string, net: Net): Exit
  {
    if !ProviderComplete(provider) then Failed(ProviderRequired, [])
    else
      var req := AttachRequest(dp, profile, protection, Body(profile, protection, Translated(m, params)));
      if checkMode then Exited(true, Some(VDict([("msg", VStr(CheckModeMessage))])), [])
      else
        match net(0)
        case Raised(e) => Failed(e, [req])
        case Returned(r) =>
          match JsonOf(r)
          case None => Failed("Invalid JSON response: " + r.text, [req])
          case Some(data) =>
            if r.status != 200 && r.status != 201 then Failed("Failed to create SYN profile: " + Str(data), [req])
            else Exited(true, Some(data), [req])
  }

  method RunModule(profile: string, protection: string, params: Dict, provider: Dict,
                   checkMode: bool, dp: string, net: Net) returns (r: Exit)
    ensures r == Run(CreateMaps, profile, protection, params, provider, checkMode, dp, net)
  {
    if !ProviderComplete(provider) {
      return Failed(ProviderRequired, []);
    }
    var req := AttachRequest(dp, profile, protection, Body(profile, protection, Translated(CreateMaps, params)));
    if checkMode {
      return Exited(true, Some(VDict([("msg", VStr(CheckModeMessage))])), []);
    }
    var o := net(0);
    if o.Raised? {
      return Failed(o.msg, [req]);
    }
    var data := JsonOf(o.reply);
    if data.None? {
      return Failed("Invalid JSON response: " + o.reply.text, [req]);
    }
    if o.reply.status != 200 && o.reply.status != 201 {
      return Failed("Failed to create SYN profile: " + Str(data.value), [req]);
    }
    r := Exited(true, Some(data.value), [req]);
  }

  /** A provider missing the controller, the user or the password, or giving one of them
      empty, fails before any request, in check mode too.  With a complete provider, check mode
      reports a change and sends nothing; otherwise exactly one POST is sent and the run
      reports a change exactly when the reply is JSON with status 200 or 201; any other JSON
      reply fails quoting it. */
  lemma RunOutcome(m: IntMaps, profile: string, protection: string, params: Dict, provider: Dict,
                   checkMode: bool, dp: string, net: Net)
    ensures var r := Run(m, profile, protection, params, provider, checkMode, dp, net);
      (!ProviderComplete(provider) ==> r == Failed(ProviderRequired, [])) &&
      (ProviderComplete(provider) && checkMode ==> r.Exited? && r.changed && r.sent == []) &&
      (ProviderComplete(provider) && !checkMode ==>
        r.sent == [AttachRequest(dp, profile, protection, Body(profile, protection, Translated(m, params)))] &&
        (r.Exited? <==> net(0).Returned? && net(0).reply.json.Some? && net(0).reply.status in {200, 201}) &&
        (r.Exited? ==> r.changed && r.response == net(0).reply.json) &&
        (net(0).Returned? && net(0).reply.json.Some? && net(0).reply.status !in {200, 201} ==>
           r.msg == "Failed to create SYN profile: " + Str(net(0).reply.json.value)))
  {
  }
}

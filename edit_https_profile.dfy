/** HTTPS-flood profile editing (plugins/modules/edit_https_profile.py): the parameters are
    translated to device columns with every value sent as a string, the profile is PUT, and
    when the device's error names the packet-reporting column the PUT is repeated once
    without that column. */
module EditHttpsProfile {
  import opened Py
  import opened Http
  import opened Tables
  import opened SingleProfile
  import CreateHttpsProfile

  const ProfileTable := "rsHttpsFloodProfileTable"
  const PacketReporting := "rsHttpsFloodProfilePacketReporting"

  const SwitchCodes: Table := [("enable", "1"), ("disable", "2")]
  const ActionCodes: Table := [("report_only", "0"), ("block_and_report", "1")]
  const ChallengeCodes: Table := [("redirect_302", "1"), ("javascript", "2")]

  /** `ENUM_MAPS`: per playbook key, its words and their device codes. */
  const EnumCodes: seq<(string, Table)> := [
    ("action", ActionCodes),
    ("https_authentication_on_suspect_sources", SwitchCodes),
    ("https_authentication_on_all_sources", SwitchCodes),
    ("challenge_method", ChallengeCodes),
    ("rate_limit_status", SwitchCodes),
    ("packet_report", SwitchCodes),
    ("full_session_decryption", SwitchCodes)
  ]

  /** `FIELD_MAP`: playbook key to device column. */
  const FieldMap: Table := [
    ("action", "rsHttpsFloodProfileAction"),
    ("rate_limit", "rsHttpsFloodProfileRateLimit"),
    ("https_authentication_on_suspect_sources", "rsHttpsFloodProfileSelectiveChallenge"),
    ("https_authentication_on_all_sources", "rsHttpsFloodProfileCollectiveChallenge"),
    ("challenge_method", "rsHttpsFloodProfileChallengeMethod"),
    ("rate_limit_status", "rsHttpsFloodProfileRateLimitStatus"),
    ("packet_report", "rsHttpsFloodProfilePacketReporting"),
    ("full_session_decryption", "rsHttpsFloodProfileFullSessionDecryption")
  ]

  const EditMaps := FieldMaps(FieldMap, EnumCodes)

  // ---------------------------------------------------------------------------------------------
  // The translation
  // ---------------------------------------------------------------------------------------------

  /** `translate_params`: it never raises. */
  function Translated(m: FieldMaps, params: Dict): Dict
  {
    StrTranslation(m, params);
    Translate(params, StrStepOf(m)).value
  }

  method TranslateParams(params: Dict) returns (d: Dict)
    ensures d == Translated(EditMaps, params)
  {
    var r := TranslateLoop(params, StrStepOf(EditMaps));
    StrTranslation(EditMaps, params);
    d := r.value;
  }

  /** Every value sent is a string, and the body holds exactly the renamed keys: a known key
      under its device column, any other key as given. */
  lemma TranslatedShape(params: Dict)
    ensures var d := Translated(EditMaps, params);
      (forall j :: 0 <= j < |d| ==> d[j].1.VStr?) &&
      forall k :: Get(d, k).Some? <==> exists i :: 0 <= i < |params| && GetOr(FieldMap, params[i].0, params[i].0) == k
  {
    StrTranslation(EditMaps, params);
  }

  /** The editor's tables are the creator's. */
  lemma SameTablesAsCreate()
    ensures EditMaps == CreateHttpsProfile.CreateMaps
  {
  }

  /** The enum lookup is exact: only the lowercase words are coded, and any other string is
      sent as written. */
  lemma ChallengeMethodExact(v: Value)
    ensures StrStep(EditMaps, "challenge_method", v) == Emit("rsHttpsFloodProfileChallengeMethod",
      VStr(if Str(v) == "redirect_302" then "1" else if Str(v) == "javascript" then "2" else Str(v)))
  {
    GetAt(EnumCodes, 3, "challenge_method");
    GetAt(FieldMap, 4, "challenge_method");
    var s := Str(v);
    if s != "redirect_302" && s != "javascript" {
      GetSome(ChallengeCodes, s);
    }
  }

  /** So a spelling of `javascript` in other case, such as `JavaScript`, is sent as written,
      where the creating mapper, with the same tables, lowercases it and sends code `2`. */
  lemma MixedCaseDiffers(v: Value)
    requires Lower(Str(v)) == "javascript" && Str(v) != "javascript"
    ensures StrStep(EditMaps, "challenge_method", v).value == VStr(Str(v))
    ensures CreateStep(EditMaps, CreateHttpsProfile.InvalidPrefix, "challenge_method", v) ==
      Emit("rsHttpsFloodProfileChallengeMethod", VStr("2"))
  {
    ChallengeMethodExact(v);
    GetAt(EnumCodes, 3, "challenge_method");
    GetAt(FieldMap, 4, "challenge_method");
    assert Get(ChallengeCodes, "javascript") == Some("2");
  }

  /** A key the maps do not know is sent under its own name with its string. */
  lemma UnknownKeyKept(k: string, v: Value)
    requires k !in Keys(FieldMap) && k !in Keys(EnumCodes)
    ensures StrStep(EditMaps, k, v) == Emit(k, VStr(Str(v)))
  {
    GetSome(FieldMap, k);
    GetSome(EnumCodes, k);
  }

  /** On known keys and lowercase words the editor sends what the creator sends, and the
      creator's reverse mapper reads that body back as the normalised playbook parameters. */
  lemma AgreesWithCreate(params: Dict)
    requires forall i :: 0 <= i < |params| ==> Agreeable(EditMaps, params[i].0, params[i].1)
    ensures CreateHttpsProfile.MapParams(CreateHttpsProfile.CreateMaps, params) == Ok(Translated(EditMaps, params))
    ensures UniqueKeys(params) ==>
      Ok(CreateHttpsProfile.Friendly(CreateHttpsProfile.ReverseMaps, Translated(EditMaps, params))) ==
      Translate(params, NormalStepOf(CreateHttpsProfile.CreateMaps, CreateHttpsProfile.InvalidPrefix))
  {
    StrAgreesWithCreate(EditMaps, CreateHttpsProfile.InvalidPrefix, params);
    StrTranslation(EditMaps, params);
    if UniqueKeys(params) {
      CreateHttpsProfile.MapperRoundTrip(params);
    }
  }

  // ---------------------------------------------------------------------------------------------
  // The PUT and its retry
  // ---------------------------------------------------------------------------------------------

  /** `/mgmt/device/byip/{dp_ip}/config/rsHttpsFloodProfileTable/{name}` */
  function ProfilePath(dp: string, name: string): string
  {
    ConfigPath(dp, ProfileTable + "/" + name)
  }

  function EditRequest(dp: string, name: string, body: Dict): Request
  {
    Request(PUT, ProfilePath(dp, name), Some(VDict(body)))
  }

  /** The exception raised for a refused PUT: the reply's `message` when it is a dict holding a
      truthy one, otherwise the status and the text. */
  function RefusalText(r: Reply, data: Value): string
  {
    var m := if data.VDict? then GetOr(data.entries, "message", VStr("")) else VStr("");
    if Truthy(m) then Str(m) else "HTTP " + IntToString(r.status) + " - " + r.text
  }

  /** One PUT: the reply's data on status 200 or 204, otherwise the message of the exception
      that ends the attempt (raised by the client, by the JSON parsing, or for the status). */
  function Attempt(o: Outcome): Result<Value>
  {
    match o
    case Raised(e) => Err(e)
    case Returned(r) =>
      match BodyByContentType(r)
      case None => Err(JsonDecodeError)
      case Some(data) => if r.status == 200 || r.status == 204 then Ok(data) else Err(RefusalText(r, data))
  }

  /** An attempt succeeds exactly on a readable reply with status 200 or 204. */
  lemma AttemptSucceeds(o: Outcome)
    ensures Attempt(o).Ok? <==> o.Returned? && o.reply.status in {200, 204} && BodyByContentType(o.reply).Some?
    ensures Attempt(o).Ok? ==> Attempt(o).value == BodyByContentType(o.reply).value
  {
  }

  function RetryException(name: string, e: string): string
  {
    "Exception for profile " + name + " (retry without packet_report): " + e
  }

  /** The module: check mode reports a change without sending; otherwise one PUT, and on an
      error naming the packet-reporting column one more PUT of the body without it. */
  function Run(m: FieldMaps, name: string, params: Dict, checkMode: bool, dp: string, net: Net): Exit
  {
    var body := Translated(m, params);
    if checkMode then Exited(true, None, [])
    else
      var first := EditRequest(dp, name, body);
      match Attempt(net(0))
      case Ok(data) => Exited(true, Some(data), [first])
      case Err(e) =>
        if !Contains(e, PacketReporting) then Failed("Failed to edit profile " + name + ": " + e, [first])
        else
          var sent := [first, EditRequest(dp, name, Remove(body, PacketReporting))];
          match net(1)
          case Raised(e2) => Failed(RetryException(name, e2), sent)
          case Returned(r2) =>
            match BodyByContentType(r2)
            case None => Failed(RetryException(name, JsonDecodeError), sent)
            case Some(data2) =>
              if r2.status == 200 || r2.status == 204 then Exited(true, Some(data2), sent)
              else Failed("Failed to edit profile (retry without packet_report): HTTP " + IntToString(r2.status), sent)
  }

  method RunModule(name: string, params: Dict, checkMode: bool, dp: string, net: Net) returns (r: Exit)
    ensures r == Run(EditMaps, name, params, checkMode, dp, net)
  {
    var body := TranslateParams(params);
    if checkMode {
      return Exited(true, None, []);
    }
    var first := EditRequest(dp, name, body);
    var a := Attempt(net(0));
    if a.Ok? {
      return Exited(true, Some(a.value), [first]);
    }
    if !Contains(a.msg, PacketReporting) {
      return Failed("Failed to edit profile " + name + ": " + a.msg, [first]);
    }
    var sent := [first, EditRequest(dp, name, Remove(body, PacketReporting))];
    var o := net(1);
    if o.Raised? {
      return Failed(RetryException(name, o.msg), sent);
    }
    var data2 := BodyByContentType(o.reply);
    if data2.None? {
      return Failed(RetryException(name, JsonDecodeError), sent);
    }
    if o.reply.status == 200 || o.reply.status == 204 {
      r := Exited(true, Some(data2.value), sent);
    } else {
      r := Failed("Failed to edit profile (retry without packet_report): HTTP " + IntToString(o.reply.status), sent);
    }
  }

  /** Check mode sends nothing and reports a change.  Otherwise the first PUT carries the
      translated body; a second PUT is sent exactly when the first fails with an error naming
      the packet-reporting column, and its body is the first without that column; the run
      succeeds, reporting a change, exactly when the last PUT sent succeeds. */
  lemma RunOutcome(m: FieldMaps, name: string, params: Dict, checkMode: bool, dp: string, net: Net)
    ensures var r := Run(m, name, params, checkMode, dp, net);
      var body := Translated(m, params);
      var retry := Attempt(net(0)).Err? && Contains(Attempt(net(0)).msg, PacketReporting);
      (checkMode ==> r == Exited(true, None, [])) &&
      (!checkMode ==>
        r.sent[..1] == [EditRequest(dp, name, body)] &&
        (|r.sent| == 2 <==> retry) && (|r.sent| == 1 <==> !retry) &&
        (retry ==> r.sent[1] == EditRequest(dp, name, Remove(body, PacketReporting))) &&
        (r.Exited? <==> if retry then Attempt(net(1)).Ok? else Attempt(net(0)).Ok?) &&
        (r.Exited? ==> r.changed && r.response == Some(Attempt(net(|r.sent| - 1)).value)) &&
        (Attempt(net(0)).Err? && !retry ==> r == Failed("Failed to edit profile " + name + ": " + Attempt(net(0)).msg, r.sent)))
  {
  }

  /** The retry body lacks the packet-reporting column and agrees with the first body on
      every other column. */
  lemma RetryBody(m: FieldMaps, params: Dict, k: string)
    ensures Get(Remove(Translated(m, params), PacketReporting), PacketReporting) == None
    ensures k != PacketReporting ==> Get(Remove(Translated(m, params), PacketReporting), k) == Get(Translated(m, params), k)
  {
    GetRemove(Translated(m, params), PacketReporting, k);
    GetRemove(Translated(m, params), PacketReporting, PacketReporting);
  }
}

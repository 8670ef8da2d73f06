/** HTTPS-flood profile creation (plugins/modules/create_https_profile.py): the mapper from
    playbook words to device codes and its reverse, the POST per profile with one retry
    without the packet-reporting column when the device names it in its error, and the
    preview plan. */
module CreateHttpsProfile {
  import opened Py
  import opened Http
  import opened Tables

  const ProfileTable := "rsHttpsFloodProfileTable"
  const NameField := "rsHttpsFloodProfileName"
  const PacketReporting := "rsHttpsFloodProfilePacketReporting"
  const InvalidPrefix := "Invalid value '"

  const SwitchCodes: Table := [("enable", "1"), ("disable", "2")]
  const ActionCodes: Table := [("report_only", "0"), ("block_and_report", "1")]
  const ChallengeCodes: Table := [("redirect_302", "1"), ("javascript", "2")]

  /** `ENUM_MAPS`: per playbook key, its words and their device codes. */
  const EnumCodes: seq<(string, Table)> := [
    ("action", ActionCodes),
    ("https_authentication_on_suspect_sources", SwitchCodes),
    ("https_authentication_on_all_sources", SwitchCodes),
    ("challenge_method", ChallengeCodes),
    ("rate_limit_status", SwitchCodes),
    ("packet_report", SwitchCodes),
    ("full_session_decryption", SwitchCodes)
  ]

  /** `FIELD_MAP`: playbook key to device column. */
  const FieldMap: Table := [
    ("action", "rsHttpsFloodProfileAction"),
    ("rate_limit", "rsHttpsFloodProfileRateLimit"),
    ("https_authentication_on_suspect_sources", "rsHttpsFloodProfileSelectiveChallenge"),
    ("https_authentication_on_all_sources", "rsHttpsFloodProfileCollectiveChallenge"),
    ("challenge_method", "rsHttpsFloodProfileChallengeMethod"),
    ("rate_limit_status", "rsHttpsFloodProfileRateLimitStatus"),
    ("packet_report", "rsHttpsFloodProfilePacketReporting"),
    ("full_session_decryption", "rsHttpsFloodProfileFullSessionDecryption")
  ]

  const SwitchWords: Table := [("1", "enable"), ("2", "disable")]
  const ActionWords: Table := [("0", "report_only"), ("1", "block_and_report")]
  const ChallengeWords: Table := [("1", "redirect_302"), ("2", "javascript")]

  /** `REVERSE_FIELD_MAP`: device column to playbook key. */
  const ReverseFieldMap: Table := [
    ("rsHttpsFloodProfileAction", "action"),
    ("rsHttpsFloodProfileRateLimit", "rate_limit"),
    ("rsHttpsFloodProfileSelectiveChallenge", "https_authentication_on_suspect_sources"),
    ("rsHttpsFloodProfileCollectiveChallenge", "https_authentication_on_all_sources"),
    ("rsHttpsFloodProfileChallengeMethod", "challenge_method"),
    ("rsHttpsFloodProfileRateLimitStatus", "rate_limit_status"),
    ("rsHttpsFloodProfilePacketReporting", "packet_report"),
    ("rsHttpsFloodProfileFullSessionDecryption", "full_session_decryption")
  ]

  /** `REVERSE_ENUM_MAPS`: per device column, its codes and their words. */
  const ReverseEnumMaps: seq<(string, Table)> := [
    ("rsHttpsFloodProfileAction", ActionWords),
    ("rsHttpsFloodProfileSelectiveChallenge", SwitchWords),
    ("rsHttpsFloodProfileCollectiveChallenge", SwitchWords),
    ("rsHttpsFloodProfileChallengeMethod", ChallengeWords),
    ("rsHttpsFloodProfileRateLimitStatus", SwitchWords),
    ("rsHttpsFloodProfilePacketReporting", SwitchWords),
    ("rsHttpsFloodProfileFullSessionDecryption", SwitchWords)
  ]

  const CreateMaps := FieldMaps(FieldMap, EnumCodes)
  const ReverseMaps := FieldMaps(ReverseFieldMap, ReverseEnumMaps)

  // ---------------------------------------------------------------------------------------------
  // The two mappers
  // ---------------------------------------------------------------------------------------------

  /** `map_https_flood_profile_parameters` with the maps as a parameter. */
  function MapParams(m: FieldMaps, params: Dict): Result<Dict>
  {
    Translate(params, CreateStepOf(m, InvalidPrefix))
  }

  /** `map_api_values_to_user_friendly` with the maps as a parameter; it never raises. */
  function Friendly(m: FieldMaps, api: Dict): Dict
  {
    TranslateTotal(api, ReverseStepOf(m));
    Translate(api, ReverseStepOf(m)).value
  }

  method MapHttpsFloodProfileParameters(m: FieldMaps, params: Dict) returns (r: Result<Dict>)
    ensures r == MapParams(m, params)
  {
    r := TranslateLoop(params, CreateStepOf(m, InvalidPrefix));
  }

  method MapApiValuesToUserFriendly(m: FieldMaps, api: Dict) returns (r: Dict)
    ensures Translate(api, ReverseStepOf(m)) == Ok(r)
  {
    TranslateTotal(api, ReverseStepOf(m));
    var t := TranslateLoop(api, ReverseStepOf(m));
    r := t.value;
  }

  /** No column repeats, and none is the name column. */
  lemma FieldMapDistinct()
    ensures UniqueKeys(FieldMap) && UniqueValues(FieldMap)
    ensures forall i :: 0 <= i < |FieldMap| ==> FieldMap[i].1 != NameField
  {
  }

  /** Each enum table is listed once, in both directions. */
  lemma EnumTablesDistinct()
    ensures UniqueKeys(EnumCodes) && UniqueKeys(ReverseEnumMaps)
  {
  }

  /** The reverse column map is the creating one turned around, in the same order. */
  lemma FieldMapsMirror()
    ensures |ReverseFieldMap| == |FieldMap| && UniqueKeys(ReverseFieldMap)
    ensures forall i :: 0 <= i < |FieldMap| ==> ReverseFieldMap[i] == (FieldMap[i].1, FieldMap[i].0)
  {
    FieldMapDistinct();
  }

  /** Each word table read back through its code table gives the word. */
  lemma WordTablesInvert()
    ensures WordsInvert(SwitchCodes, SwitchWords) && WordsInvert(ActionCodes, ActionWords)
    ensures WordsInvert(ChallengeCodes, ChallengeWords)
  {
  }

  /** The enum tables line up: the j-th code table's column is the j-th word table's, and the
      word table reads each code back as its word. */
  lemma EnumTablesMirror()
    ensures |ReverseEnumMaps| == |EnumCodes| == 7
    ensures forall j :: 0 <= j < 7 ==> EnumCodes[j].0 == FieldMap[if j == 0 then 0 else j + 1].0
    ensures forall j :: 0 <= j < 7 ==> ReverseEnumMaps[j].0 == FieldMap[if j == 0 then 0 else j + 1].1
    ensures forall j :: 0 <= j < 7 ==> WordsInvert(EnumCodes[j].1, ReverseEnumMaps[j].1)
  {
    WordTablesInvert();
  }

  /** The reverse maps undo the creating maps at the i-th key. */
  lemma KeyInvertsAt(i: nat)
    requires i < |FieldMap|
    ensures Get(FieldMap, FieldMap[i].0).Some? && KeyInverts(CreateMaps, ReverseMaps, FieldMap[i].0)
  {
    var (key, api) := FieldMap[i];
    FieldMapDistinct();
    FieldMapsMirror();
    EnumTablesDistinct();
    EnumTablesMirror();
    GetAt(FieldMap, i, key);
    GetAt(ReverseFieldMap, i, api);
    if i == 1 {
      KeysLength(EnumCodes);
      KeysLength(ReverseEnumMaps);
      GetSome(EnumCodes, key);
      GetSome(ReverseEnumMaps, api);
    } else {
      var j := if i == 0 then 0 else i - 1;
      GetAt(EnumCodes, j, key);
      GetAt(ReverseEnumMaps, j, api);
    }
  }

  /** The reverse maps undo the creating maps at every key. */
  lemma MapsInvertHere()
    ensures MapsInvert(CreateMaps, ReverseMaps)
  {
    forall key | Get(FieldMap, key).Some? ensures KeyInverts(CreateMaps, ReverseMaps, key) {
      GetSome(FieldMap, key);
      KeysLength(FieldMap);
      var i :| 0 <= i < |FieldMap| && Keys(FieldMap)[i] == key;
      KeyInvertsAt(i);
    }
  }

  /** Round trip: reverse-mapping what the mapper produced gives back the accepted input
      restricted to the known keys, with enumerated words lowercased and other values
      stringified. */
  lemma MapperRoundTrip(params: Dict)
    requires UniqueKeys(params) && MapParams(CreateMaps, params).Ok?
    ensures Ok(Friendly(ReverseMaps, MapParams(CreateMaps, params).value)) == Translate(params, NormalStepOf(CreateMaps, InvalidPrefix))
  {
    FieldMapDistinct();
    MapsInvertHere();
    CreateRoundTrip(CreateMaps, ReverseMaps, InvalidPrefix, params);
  }

  // ---------------------------------------------------------------------------------------------
  // The request body and its retry form
  // ---------------------------------------------------------------------------------------------

  /** `{"rsHttpsFloodProfileName": profile_name, **api_params}` */
  function Body(name: Value, api: Dict): Dict
  {
    Update([(NameField, name)], api)
  }

  /** `api_params_wo_packet_report`: a copy of the parameters without the packet-reporting column. */
  function WithoutPacketReport(api: Dict): Dict
  {
    Remove(api, PacketReporting)
  }

  /** The retry body names the profile, lacks the packet-reporting column and agrees with the
      first body on every other column. */
  lemma RetryBody(name: Value, api: Dict, k: string)
    requires UniqueKeys(api)
    ensures Get(Body(name, WithoutPacketReport(api)), PacketReporting) == None
    ensures k != PacketReporting ==> Get(Body(name, WithoutPacketReport(api)), k) == Get(Body(name, api), k)
    ensures UniqueKeys(WithoutPacketReport(api))
  {
    RemoveKeeps(api, PacketReporting);
    GetUpdate([(NameField, name)], WithoutPacketReport(api), k);
    GetUpdate([(NameField, name)], WithoutPacketReport(api), PacketReporting);
    GetUpdate([(NameField, name)], api, k);
    GetRemove(api, PacketReporting, k);
    GetRemove(api, PacketReporting, PacketReporting);
  }

  // ---------------------------------------------------------------------------------------------
  // The batch loop
  // ---------------------------------------------------------------------------------------------

  /** An entry of `created_profiles`: the name, the parameters applied and their playbook form. */
  datatype Created = Created(name: Value, applied: Dict, friendly: Dict)

  datatype Batch = Batch(changed: bool, created: seq<Created>, errors: seq<string>, sent: seq<Request>)

  const NoBatch := Batch(false, [], [], [])

  /** `.../config/rsHttpsFloodProfileTable/{profile_name}` */
  function ProfilePath(dp: string, name: Value): string
  {
    ConfigPath(dp, ProfileTable + "/" + Str(name))
  }

  function CreateRequest(dp: string, name: Value, api: Dict): Request
  {
    Request(POST, ProfilePath(dp, name), Some(VDict(Body(name, api))))
  }

  /** The message of the exception a refused first attempt raises: the reply's `message` when
      it has a truthy one, else `HTTP {status} - {text}`; reading the body can itself raise. */
  function FailureText(r: Reply): string
  {
    var fallback := "HTTP " + IntToString(r.status) + " - " + r.text;
    if r.text == "" then fallback
    else match r.json
      case None => JsonDecodeError
      case Some(j) =>
        if !j.VDict? then NoGet
        else
          var em := FieldOr(j, "message", VStr(""));
          if Truthy(em) then Str(em) else fallback
  }

  /** The second attempt, without the packet-reporting column. On success the debug line reads
      `resp2.json()`, which raises on a body that is not JSON after the profile was recorded. */
  function Retry(rm: FieldMaps, b: Batch, name: Value, api: Dict, dp: string, net: Net): Batch
  {
    var api2 := WithoutPacketReport(api);
    var b1 := b.(sent := b.sent + [CreateRequest(dp, name, api2)]);
    var failed := "Exception for profile " + Str(name) + " (retry without packet_report): ";
    match net(|b.sent|)
    case Raised(e) => b1.(errors := b1.errors + [failed + e])
    case Returned(r) =>
      if r.status == 200 || r.status == 201 then
        var b2 := b1.(changed := true, created := b1.created + [Created(name, api2, Friendly(rm, api2))]);
        if r.json.None? then b2.(errors := b2.errors + [failed + JsonDecodeError]) else b2
      else
        b1.(errors := b1.errors + ["Error creating profile " + Str(name) + " (retry without packet_report): HTTP " +
                                   IntToString(r.status) + " - " + r.text])
  }

  /** One profile of the loop; `Err` when an exception escapes to the module's outer handler
      (parameters that are not a dict have no `items`). */
  function ProfileStep(m: FieldMaps, rm: FieldMaps, b: Batch, profile: Dict, dp: string, net: Net): Result<Batch>
  {
    var name := GetOr(profile, "name", VNone);
    if !Truthy(name) then Ok(b.(errors := b.errors + ["Profile name is required (use 'name' field)"]))
    else
      var params := GetOr(profile, "params", VDict([]));
      if !params.VDict? then Err(NoItems)
      else match MapParams(m, params.entries)
        case Err(e) => Ok(b.(errors := b.errors + ["Validation failed for profile " + Str(name) + ": " + e]))
        case Ok(api) =>
          var b1 := b.(sent := b.sent + [CreateRequest(dp, name, api)]);
          var o := net(|b.sent|);
          if o.Returned? && (o.reply.status == 200 || o.reply.status == 201) then
            Ok(b1.(changed := true, created := b1.created + [Created(name, api, Friendly(rm, api))]))
          else
            var msg := if o.Raised? then o.msg else FailureText(o.reply);
            if Contains(msg, PacketReporting) then Ok(Retry(rm, b1, name, api, dp, net))
            else Ok(b1.(errors := b1.errors + ["Error creating profile " + Str(name) + ": " + msg]))
  }

  function RunBatch(m: FieldMaps, rm: FieldMaps, profiles: seq<Dict>, dp: string, net: Net): Result<Batch>
    decreases |profiles|
  {
    if profiles == [] then Ok(NoBatch)
    else match RunBatch(m, rm, profiles[..|profiles| - 1], dp, net)
      case Err(e) => Err(e)
      case Ok(b) => ProfileStep(m, rm, b, profiles[|profiles| - 1], dp, net)
  }

  lemma {:induction false} RunBatchStaysErr(m: FieldMaps, rm: FieldMaps, profiles: seq<Dict>, dp: string, net: Net, i: nat)
    requires i <= |profiles| && RunBatch(m, rm, profiles[..i], dp, net).Err?
    ensures RunBatch(m, rm, profiles, dp, net) == RunBatch(m, rm, profiles[..i], dp, net)
    decreases |profiles| - i
  {
    if i < |profiles| {
      assert profiles[..i + 1][..i] == profiles[..i];
      RunBatchStaysErr(m, rm, profiles, dp, net, i + 1);
    } else {
      assert profiles[..i] == profiles;
    }
  }

  method RunBatchLoop(m: FieldMaps, rm: FieldMaps, profiles: seq<Dict>, dp: string, net: Net) returns (r: Result<Batch>)
    ensures r == RunBatch(m, rm, profiles, dp, net)
  {
    var b := NoBatch;
    var i := 0;
    while i < |profiles|
      invariant 0 <= i <= |profiles|
      invariant RunBatch(m, rm, profiles[..i], dp, net) == Ok(b)
    {
      assert profiles[..i + 1][..i] == profiles[..i];
      var step := ProfileStep(m, rm, b, profiles[i], dp, net);
      if step.Err? {
        RunBatchStaysErr(m, rm, profiles, dp, net, i + 1);
        return step;
      }
      b := step.value;
      i := i + 1;
    }
    assert profiles[..i] == profiles;
    return Ok(b);
  }

  /** Whether the first attempt's failure names the packet-reporting column. */
  predicate NamesPacketReport(o: Outcome)
  {
    Contains(if o.Raised? then o.msg else FailureText(o.reply), PacketReporting)
  }

  predicate Succeeded(o: Outcome)
  {
    o.Returned? && (o.reply.status == 200 || o.reply.status == 201)
  }

  /** One profile: without a name or with rejected parameters it adds one error and sends
      nothing. Otherwise it sends its create request; a success records it as created; a failure
      that names the packet-reporting column sends one more request, the same without that
      column, and records the profile as created iff that reply is 200 or 201; any other
      failure adds one error. Each profile is created at most once and ends up created or in
      error (both only when the retried success's body is not JSON). */
  lemma ProfileStepOutcome(m: FieldMaps, rm: FieldMaps, b: Batch, profile: Dict, dp: string, net: Net)
    requires ProfileStep(m, rm, b, profile, dp, net).Ok?
    ensures var s := ProfileStep(m, rm, b, profile, dp, net).value;
      var name, params := GetOr(profile, "name", VNone), GetOr(profile, "params", VDict([]));
      var o := net(|b.sent|);
      if !Truthy(name) || MapParams(m, params.entries).Err? then
        s == b.(errors := s.errors) && |s.errors| == |b.errors| + 1
      else
        var api := MapParams(m, params.entries).value;
        var retried := !Succeeded(o) && NamesPacketReport(o);
        var o2 := net(|b.sent| + 1);
        s.sent == b.sent + [CreateRequest(dp, name, api)] +
                  (if retried then [CreateRequest(dp, name, WithoutPacketReport(api))] else []) &&
        (if Succeeded(o) then
           s.created == b.created + [Created(name, api, Friendly(rm, api))] && s.errors == b.errors
         else if retried && Succeeded(o2) then
           s.created == b.created + [Created(name, WithoutPacketReport(api), Friendly(rm, WithoutPacketReport(api)))] &&
           |s.errors| - |b.errors| == (if o2.reply.json.None? then 1 else 0)
         else s.created == b.created && |s.errors| == |b.errors| + 1) &&
        (s.changed <==> b.changed || s.created != b.created)
  {
  }

  /** Every profile is created at most once and adds at most one error, and each is created or
      in error; `changed` is set exactly when some profile was created; at most two requests are
      sent per profile. */
  lemma {:induction false} BatchAccounts(m: FieldMaps, rm: FieldMaps, profiles: seq<Dict>, dp: string, net: Net)
    requires RunBatch(m, rm, profiles, dp, net).Ok?
    ensures var b := RunBatch(m, rm, profiles, dp, net).value;
      |b.created| <= |profiles| && |b.errors| <= |profiles| && |profiles| <= |b.created| + |b.errors| &&
      (b.changed <==> b.created != []) && |b.sent| <= 2 * |profiles|
    decreases |profiles|
  {
    if profiles != [] {
      var init := profiles[..|profiles| - 1];
      BatchAccounts(m, rm, init, dp, net);
      ProfileStepOutcome(m, rm, RunBatch(m, rm, init, dp, net).value, profiles[|profiles| - 1], dp, net);
    }
  }

  // ---------------------------------------------------------------------------------------------
  // The module run
  // ---------------------------------------------------------------------------------------------

  datatype Planned = Planned(profileName: Value, params: Value)

  datatype Summary = Summary(successful: nat, attempted: nat, errorsCount: nat)

  datatype RunResult =
    | Preview(changed: bool, planned: seq<Planned>, message: string)
    | Applied(failed: bool, msg: string, changed: bool, batch: Batch, summary: Summary)
    | Crashed(msg: string)

  /** The preview's `planned_operations`. */
  function Plan(profiles: seq<Dict>): seq<Planned>
  {
    seq(|profiles|, i requires 0 <= i < |profiles| =>
      Planned(GetOr(profiles[i], "name", VStr("unnamed_profile")), GetOr(profiles[i], "params", VDict([]))))
  }

  function Finish(b: Batch, attempted: nat): RunResult
  {
    var n := |b.errors|;
    Applied(n != 0, if n != 0 then "HTTPS Flood profile creation completed with " + IntToString(n) + " error(s)." else "",
            b.changed, b, Summary(|b.created|, attempted, n))
  }

  function Run(m: FieldMaps, rm: FieldMaps, profiles: seq<Dict>, checkMode: bool, dp: string, net: Net): RunResult
  {
    if checkMode then
      Preview(profiles != [], Plan(profiles), if profiles == [] then "No HTTPS Flood profiles configured for creation" else "")
    else match RunBatch(m, rm, profiles, dp, net)
      case Err(e) => Crashed("HTTPS Flood profile creation failed: " + e)
      case Ok(b) => Finish(b, |profiles|)
  }

  method RunModule(profiles: seq<Dict>, checkMode: bool, dp: string, net: Net) returns (r: RunResult)
    ensures r == Run(CreateMaps, ReverseMaps, profiles, checkMode, dp, net)
  {
    if checkMode {
      return Preview(profiles != [], Plan(profiles), if profiles == [] then "No HTTPS Flood profiles configured for creation" else "");
    }
    var b := RunBatchLoop(CreateMaps, ReverseMaps, profiles, dp, net);
    if b.Err? {
      return Crashed("HTTPS Flood profile creation failed: " + b.msg);
    }
    r := Finish(b.value, |profiles|);
  }

  /** Preview sends nothing and reports a change iff profiles are listed, one planned entry
      each; an applied run fails iff some error was recorded, reports a change iff some profile
      was created, creates at most one entry per profile and sends at most two requests each. */
  lemma RunOutcome(m: FieldMaps, rm: FieldMaps, profiles: seq<Dict>, checkMode: bool, dp: string, net: Net)
    ensures var r := Run(m, rm, profiles, checkMode, dp, net);
      (checkMode ==> r.Preview? && (r.changed <==> profiles != []) && |r.planned| == |profiles|) &&
      (r.Applied? ==> (r.failed <==> r.batch.errors != []) && (r.changed <==> r.batch.created != []) &&
                      r.summary.successful <= r.summary.attempted == |profiles| <=
                      r.summary.successful + r.summary.errorsCount && |r.batch.sent| <= 2 * |profiles|)
  {
    if !checkMode && RunBatch(m, rm, profiles, dp, net).Ok? {
      BatchAccounts(m, rm, profiles, dp, net);
    }
  }
}

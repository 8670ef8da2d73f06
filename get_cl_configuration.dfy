/** Reading the connection-limit configuration (plugins/modules/get_cl_configuration.py): two
    GETs read the profile rows and the protection rows, the protections are indexed by their id,
    and the profile rows are gathered per profile name, each row carrying its protection's
    settings translated back from the device's codes to the playbook's words. */
module GetClConfiguration {
  import opened Py
  import opened Http
  import opened Tables
  import opened Grouping

  const ProfileTable := "rsIDSConnectionLimitProfileTable"
  const AttackTable := "rsIDSConnectionLimitAttackTable"

  const ProfileNameField := "rsIDSConnectionLimitProfileName"
  const ProfileKey := NameKey(ProfileNameField, VStr(""))
  const ProfileAttackIdField := "rsIDSConnectionLimitProfileAttackId"
  const ProfileAttackNameField := "rsIDSConnectionLimitProfileAttackName"

  const AttackIdField := "rsIDSConnectionLimitAttackId"
  const AttackNameField := "rsIDSConnectionLimitAttackName"
  const AttackTypeField := "rsIDSConnectionLimitAttackType"
  const TrackingTypeField := "rsIDSConnectionLimitAttackTrackingType"
  const ProtocolField := "rsIDSConnectionLimitAttackProtocol"
  const ThresholdField := "rsIDSConnectionLimitAttackThreshold"
  const ReportModeField := "rsIDSConnectionLimitAttackReportMode"
  const PacketReportField := "rsIDSConnectionLimitAttackPacketReport"
  const AppPortField := "rsIDSConnectionLimitAttackAppPort"

  /** The five tables that read the device's codes back as the playbook's words. */
  datatype Words = Words(protectionType: Table, trackingType: Table, protocol: Table, action: Table,
                         packetReport: Table)

  const ProtocolWords: Table := [("2", "tcp"), ("3", "udp")]
  const TrackingTypeWords: Table := [("2", "src_ip"), ("3", "dst_ip"), ("4", "src_and_dest_ip"), ("5", "dst_ip_and_port")]
  const ActionWords: Table := [("0", "report_only"), ("10", "drop")]
  const PacketReportWords: Table := [("1", "enable"), ("2", "disable")]
  const ProtectionTypeWords: Table := [("1", "cps"), ("2", "concurrent_connections")]

  const CodeWords := Words(ProtectionTypeWords, TrackingTypeWords, ProtocolWords, ActionWords, PacketReportWords)

  /** `/mgmt/device/byip/{dp_ip}/config/rsIDSConnectionLimitProfileTable` */
  function ProfilesRequest(dp: string): Request
  {
    Request(GET, ConfigPath(dp, ProfileTable), None)
  }

  /** `/mgmt/device/byip/{dp_ip}/config/rsIDSConnectionLimitAttackTable` */
  function ProtectionsRequest(dp: string): Request
  {
    Request(GET, ConfigPath(dp, AttackTable), None)
  }

  // ---------------------------------------------------------------------------------------------
  // One profile row
  // ---------------------------------------------------------------------------------------------

  /** The `prot_settings` dict of one profile row. */
  datatype Settings = Settings(name: Value, id: Value, protectionType: Value, trackingType: Value,
                               protocol: Value, threshold: Value, action: Value, packetReport: Value,
                               appPortGroup: Value)

  function SettingsValue(s: Settings): Value
  {
    VDict([("protection_name", s.name), ("protection_id", s.id), ("protection_type", s.protectionType),
           ("tracking_type", s.trackingType), ("protocol", s.protocol), ("threshold", s.threshold),
           ("action", s.action), ("packet_report", s.packetReport), ("app_port_group", s.appPortGroup)])
  }

  /** `prot_raw.get(field, '')` */
  function Raw(prot: Value, field: string): Value
  {
    FieldOr(prot, field, VStr(""))
  }

  /** The settings of protection `prot` (`{}` when none has the row's id), with the row's own
      protection id and name as fallbacks; a coded field that is a list or dict cannot be read
      back. */
  function SettingsOf(w: Words, prot: Value, protId: Value, protName: Value): Result<Settings>
  {
    match Lookup(w.protectionType, Raw(prot, AttackTypeField))
    case Err(m) => Err(m)
    case Ok(protectionType) =>
      match Lookup(w.trackingType, Raw(prot, TrackingTypeField))
      case Err(m) => Err(m)
      case Ok(trackingType) =>
        match Lookup(w.protocol, Raw(prot, ProtocolField))
        case Err(m) => Err(m)
        case Ok(protocol) =>
          match Lookup(w.action, Raw(prot, ReportModeField))
          case Err(m) => Err(m)
          case Ok(action) =>
            match Lookup(w.packetReport, Raw(prot, PacketReportField))
            case Err(m) => Err(m)
            case Ok(packetReport) =>
              Ok(Settings(FieldOr(prot, AttackNameField, protName), FieldOr(prot, AttackIdField, protId),
                          protectionType, trackingType, protocol, Raw(prot, ThresholdField), action,
                          packetReport, Raw(prot, AppPortField)))
  }

  /** A row whose protection is unknown keeps its own protection id and name, and every other
      setting is the empty string. */
  lemma MissingProtection(protId: Value, protName: Value)
    ensures SettingsOf(CodeWords, VDict([]), protId, protName) ==
      Ok(Settings(protName, protId, VStr(""), VStr(""), VStr(""), VStr(""), VStr(""), VStr(""), VStr("")))
  {
    assert Get(ProtectionTypeWords, "") == None;
    assert Get(TrackingTypeWords, "") == None;
    assert Get(ProtocolWords, "") == None;
    assert Get(ActionWords, "") == None;
    assert Get(PacketReportWords, "") == None;
  }

  /** Reading a known protection back fails only on a list or dict code.  Each coded setting is
      either the raw value or the word its code stands for, the threshold and the application
      port group are copied, and the protection's own name and id win over the row's. */
  lemma ProtectionReadBack(w: Words, prot: Value, protId: Value, protName: Value)
    requires prot.VDict?
    ensures SettingsOf(w, prot, protId, protName).Err? <==>
      !Hashable(Raw(prot, AttackTypeField)) || !Hashable(Raw(prot, TrackingTypeField)) ||
      !Hashable(Raw(prot, ProtocolField)) || !Hashable(Raw(prot, ReportModeField)) ||
      !Hashable(Raw(prot, PacketReportField))
    ensures SettingsOf(w, prot, protId, protName).Ok? ==>
      var s := SettingsOf(w, prot, protId, protName).value;
      ReadsBack(w.protectionType, Raw(prot, AttackTypeField), s.protectionType) &&
      ReadsBack(w.trackingType, Raw(prot, TrackingTypeField), s.trackingType) &&
      ReadsBack(w.protocol, Raw(prot, ProtocolField), s.protocol) &&
      ReadsBack(w.action, Raw(prot, ReportModeField), s.action) &&
      ReadsBack(w.packetReport, Raw(prot, PacketReportField), s.packetReport) &&
      s.threshold == Raw(prot, ThresholdField) && s.appPortGroup == Raw(prot, AppPortField) &&
      (Get(prot.entries, AttackNameField).Some? ==> s.name == Get(prot.entries, AttackNameField).value) &&
      (Get(prot.entries, AttackIdField).Some? ==> s.id == Get(prot.entries, AttackIdField).value)
  {
    LookupReads(w.protectionType, Raw(prot, AttackTypeField));
    LookupReads(w.trackingType, Raw(prot, TrackingTypeField));
    LookupReads(w.protocol, Raw(prot, ProtocolField));
    LookupReads(w.action, Raw(prot, ReportModeField));
    LookupReads(w.packetReport, Raw(prot, PacketReportField));
  }

  /** `word` is what `raw` reads back as through `t`: the raw value itself, or the word of the
      code it holds. */
  predicate ReadsBack(t: Table, raw: Value, word: Value)
  {
    word == raw || (raw.VStr? && word.VStr? && (raw.s, word.s) in t)
  }

  /** What one profile row contributes: its profile name and its protection's settings, or the
      exception raised on the way (a missing key raises `KeyError`). */
  function RowOf(w: Words, byId: seq<(Value, Value)>, entry: Value): Result<(Value, Settings)>
  {
    match Subscript(entry, ProfileNameField)
    case Err(m) => Err(m)
    case Ok(profName) =>
      match Subscript(entry, ProfileAttackIdField)
      case Err(m) => Err(m)
      case Ok(protId) =>
        match Subscript(entry, ProfileAttackNameField)
        case Err(m) => Err(m)
        case Ok(protName) =>
          if !Hashable(profName) || !Hashable(protId) then Err(Unhashable)
          else
            match SettingsOf(w, GetOr(byId, protId, VDict([])), protId, protName)
            case Err(m) => Err(m)
            case Ok(s) => Ok((profName, s))
  }

  /** A profile row that is not a dict raises `TypeError`, and the first of its three keys that
      is missing raises `KeyError` naming it. */
  lemma RowKeyErrors(w: Words, byId: seq<(Value, Value)>, e: Value)
    ensures !e.VDict? ==> RowOf(w, byId, e) == Err(NotSubscriptable)
    ensures e.VDict? && Get(e.entries, ProfileNameField).None? ==>
      RowOf(w, byId, e) == Err(KeyError(ProfileNameField))
    ensures e.VDict? && Get(e.entries, ProfileNameField).Some? && Get(e.entries, ProfileAttackIdField).None? ==>
      RowOf(w, byId, e) == Err(KeyError(ProfileAttackIdField))
    ensures e.VDict? && Get(e.entries, ProfileNameField).Some? && Get(e.entries, ProfileAttackIdField).Some? &&
            Get(e.entries, ProfileAttackNameField).None?
      ==> RowOf(w, byId, e) == Err(KeyError(ProfileAttackNameField))
  {
  }

  // ---------------------------------------------------------------------------------------------
  // The profiles
  // ---------------------------------------------------------------------------------------------

  /** One profile row as the loop files it: its profile name and its protection's settings. */
  function Row(w: Words, byId: seq<(Value, Value)>): Value -> Result<(Value, Value)>
  {
    e => match RowOf(w, byId, e)
         case Err(m) => Err(m)
         case Ok((name, s)) => Ok((name, SettingsValue(s)))
  }

  /** A row that can be read names its profile as the grouping by `rsIDSConnectionLimitProfileName`
      does, so the profile loop groups the rows by profile name (`Grouping.NestShape`). */
  lemma RowNames(w: Words, byId: seq<(Value, Value)>)
    ensures NamesAs(ProfileKey, Row(w, byId))
  {
  }

  // ---------------------------------------------------------------------------------------------
  // The module run
  // ---------------------------------------------------------------------------------------------

  /** How the module ends: `exit_json` with the profiles, `fail_json` with the exception's
      message, or, when the handler itself raises, with that `error` while handling the
      exception whose message is `context`, reporting nothing. */
  datatype RunResult =
    | Exited(profiles: seq<Value>, sent: seq<Request>)
    | Failed(msg: string, sent: seq<Request>)
    | Crashed(error: string, context: string, sent: seq<Request>)

  /** The module run as the handler means it. */
  function Intended(dp: string, net: Net): RunResult
  {
    var sent0 := [ProfilesRequest(dp)];
    match TableRows(net(0), ProfileTable)
    case Err(m) => Failed(m, sent0)
    case Ok(profileRows) =>
      var sent := sent0 + [ProtectionsRequest(dp)];
      match TableRows(net(1), AttackTable)
      case Err(m) => Failed(m, sent)
      case Ok(protectionRows) =>
        match Index(ItemKeyOf(AttackIdField), protectionRows)
        case Err(m) => Failed(m, sent)
        case Ok(byId) =>
          match Nest(Row(CodeWords, byId), profileRows)
          case Err(m) => Failed(m, sent)
          case Ok(g) => Exited(ProfileList(g), sent)
  }

  /** The module run as written: `result` already holds `debug_info`, so the handler's
      `fail_json(msg=str(e), debug_info=debug_info, **result)` raises a TypeError while handling
      the exception, and the module ends with that instead of failing with the message. */
  function Run(dp: string, net: Net): RunResult
  {
    var r := Intended(dp, net);
    if r.Failed? then Crashed(DebugInfoTwice, r.msg, r.sent) else r
  }

  method RunModule(dp: string, net: Net) returns (r: RunResult)
    ensures r == Run(dp, net)
  {
    var sent := [ProfilesRequest(dp)];
    var profileRows := TableRows(net(0), ProfileTable);
    if profileRows.Err? {
      return Crashed(DebugInfoTwice, profileRows.msg, sent);
    }
    sent := sent + [ProtectionsRequest(dp)];
    var protectionRows := TableRows(net(1), AttackTable);
    if protectionRows.Err? {
      return Crashed(DebugInfoTwice, protectionRows.msg, sent);
    }
    var byId := Index(ItemKeyOf(AttackIdField), protectionRows.value);
    if byId.Err? {
      return Crashed(DebugInfoTwice, byId.msg, sent);
    }
    var built := NestRows(Row(CodeWords, byId.value), profileRows.value);
    if built.Err? {
      return Crashed(DebugInfoTwice, built.msg, sent);
    }
    return Exited(ProfileList(built.value), sent);
  }

  /** The protections are fetched only once the profiles were read.  A run is reported iff both
      tables are read, every protection has an id and every profile row can be read; it then
      lists one profile per distinct profile name, in first-occurrence order, holding one
      protection per profile row. */
  lemma RunOutcome(dp: string, net: Net)
    ensures var r := Run(dp, net);
      r.sent == if TableRows(net(0), ProfileTable).Err? then [ProfilesRequest(dp)]
                else [ProfilesRequest(dp), ProtectionsRequest(dp)]
    ensures var r := Run(dp, net);
      r.Exited? <==>
        TableRows(net(0), ProfileTable).Ok? && TableRows(net(1), AttackTable).Ok? &&
        var rows := TableRows(net(0), ProfileTable).value;
        var prots := TableRows(net(1), AttackTable).value;
        (forall i :: 0 <= i < |prots| ==> ItemKey(AttackIdField, prots[i]).Ok?) &&
        Index(ItemKeyOf(AttackIdField), prots).Ok? &&
        forall i :: 0 <= i < |rows| ==> RowOf(CodeWords, Index(ItemKeyOf(AttackIdField), prots).value, rows[i]).Ok?
    ensures var r := Run(dp, net);
      r.Exited? ==>
        var rows := TableRows(net(0), ProfileTable).value;
        var b := Nest(Row(CodeWords, Index(ItemKeyOf(AttackIdField), TableRows(net(1), AttackTable).value).value), rows).value;
        r.profiles == ProfileList(b) && UniqueKeys(b) && Total(b) == |rows| &&
        FirstOccurrenceOrder(ProfileKey, rows, b)
  {
    if TableRows(net(0), ProfileTable).Ok? && TableRows(net(1), AttackTable).Ok? {
      var prots := TableRows(net(1), AttackTable).value;
      IndexRaises(ItemKeyOf(AttackIdField), prots);
      if Index(ItemKeyOf(AttackIdField), prots).Ok? {
        var rows := TableRows(net(0), ProfileTable).value;
        var byId := Index(ItemKeyOf(AttackIdField), prots).value;
        NestRaises(Row(CodeWords, byId), rows);
        if Nest(Row(CodeWords, byId), rows).Ok? {
          RowNames(CodeWords, byId);
          NestShape(ProfileKey, Row(CodeWords, byId), rows);
        }
      }
    }
  }

  /** The message of the exception that stops a run: that of the profile table, of the
      protection table, of a protection without an id, or of a profile row that cannot be read,
      whichever comes first. */
  function StopMessage(dp: string, net: Net): string
  {
    match TableRows(net(0), ProfileTable)
    case Err(m) => m
    case Ok(profileRows) =>
      match TableRows(net(1), AttackTable)
      case Err(m) => m
      case Ok(protectionRows) =>
        match Index(ItemKeyOf(AttackIdField), protectionRows)
        case Err(m) => m
        case Ok(byId) =>
          match Nest(Row(CodeWords, byId), profileRows)
          case Err(m) => m
          case Ok(_) => ""
  }

  /** As meant, a run that is not reported fails with the message of the exception that stopped
      it, after the GETs it sent. */
  lemma IntendedFails(dp: string, net: Net)
    requires !Intended(dp, net).Exited?
    ensures Intended(dp, net) ==
      Failed(StopMessage(dp, net), if TableRows(net(0), ProfileTable).Err? then [ProfilesRequest(dp)]
                                   else [ProfilesRequest(dp), ProtectionsRequest(dp)])
  {
  }

  /** As written, a run that is not reported never fails with a message: after the same GETs it
      ends with the handler's TypeError, raised while handling the exception that stopped it; a
      reported run is the one meant. */
  lemma RunCrashes(dp: string, net: Net)
    ensures !Run(dp, net).Failed?
    ensures Run(dp, net).Exited? ==> Run(dp, net) == Intended(dp, net)
    ensures !Run(dp, net).Exited? ==>
      Run(dp, net) == Crashed(DebugInfoTwice, StopMessage(dp, net),
                              if TableRows(net(0), ProfileTable).Err? then [ProfilesRequest(dp)]
                              else [ProfilesRequest(dp), ProtectionsRequest(dp)])
  {
    if !Intended(dp, net).Exited? {
      IntendedFails(dp, net);
    }
  }
}

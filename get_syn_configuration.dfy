/** Reading the SYN-flood configuration (plugins/modules/get_syn_configuration.py): two GETs read
    the SYN protections and the SYN profile rows, the protections are indexed by name, and the
    profile rows are gathered per profile name, each row carrying the details of the protection
    it names; an optional filter keeps the listed profiles. */
module GetSynConfiguration {
  import opened Py
  import opened Http
  import opened Tables
  import opened Grouping

  const AttackTable := "rsIDSSYNAttackTable"
  const ProfileTable := "rsIDSSynProfilesTable"

  const AttackNameField := "rsIDSSYNAttackName"
  const AttackIdField := "rsIDSSYNAttackId"
  const ActivationField := "rsIDSSYNAttackActivationThreshold"
  const TerminationField := "rsIDSSYNAttackTerminationThreshold"
  const PacketReportField := "rsIDSSYNAttackPacketReport"
  const AppPortGroupField := "rsIDSSYNDestinationAppPortGroup"

  const ProfileNameField := "rsIDSSynProfilesName"
  const ServiceNameField := "rsIDSSynProfileServiceName"
  const DefaultProfile := "DEFAULT_PROFILE"
  const ProfileKey := NameKey(ProfileNameField, VStr(DefaultProfile))

  /** `PACKET_REPORT_MAP`: the device's packet-report codes read back as words. */
  const PacketReportWords: Table := [("1", "enable"), ("2", "disable")]

  /** `/mgmt/device/byip/{dp_ip}/config/rsIDSSYNAttackTable` */
  function ProtectionsRequest(dp: string): Request
  {
    Request(GET, ConfigPath(dp, AttackTable), None)
  }

  /** `/mgmt/device/byip/{dp_ip}/config/rsIDSSynProfilesTable` */
  function ProfilesRequest(dp: string): Request
  {
    Request(GET, ConfigPath(dp, ProfileTable), None)
  }

  // ---------------------------------------------------------------------------------------------
  // One profile row
  // ---------------------------------------------------------------------------------------------

  /** The device's two codes, as strings or integers, read back as `enable` and `disable`, and
      a missing field stays `None`. */
  lemma PacketReportCodes()
    ensures StrLookup(PacketReportWords, VStr("1")) == VStr("enable")
    ensures StrLookup(PacketReportWords, VInt(1)) == VStr("enable")
    ensures StrLookup(PacketReportWords, VStr("2")) == VStr("disable")
    ensures StrLookup(PacketReportWords, VInt(2)) == VStr("disable")
    ensures StrLookup(PacketReportWords, VNone) == VNone
  {
    assert IntToString(1) == "1";
    assert IntToString(2) == "2";
  }

  /** `prot_struct` for a row naming protection `name`, whose details are `details`. */
  function Details(t: Table, name: Value, details: Value): Value
  {
    VDict([("protection_name", name), ("protection_id", FieldOr(details, AttackIdField, VNone)),
           ("activation_threshold", FieldOr(details, ActivationField, VNone)),
           ("termination_threshold", FieldOr(details, TerminationField, VNone)),
           ("packet_report", StrLookup(t, FieldOr(details, PacketReportField, VNone))),
           ("app_port_group", FieldOr(details, AppPortGroupField, VNone))])
  }

  /** What one profile row contributes: its profile name (`DEFAULT_PROFILE` when it has none)
      and the details of the protection it names (`{}` when no protection has that name), or
      the exception raised on the way. */
  function RowOf(t: Table, byName: seq<(Value, Value)>, profile: Value): Result<(Value, Value)>
  {
    if !profile.VDict? then Err(NoGet)
    else
      var profName := FieldOr(profile, ProfileNameField, VStr(DefaultProfile));
      var protName := FieldOr(profile, ServiceNameField, VNone);
      if !Hashable(profName) || !Hashable(protName) then Err(Unhashable)
      else Ok((profName, Details(t, protName, GetOr(byName, protName, VDict([])))))
  }

  function Row(t: Table, byName: seq<(Value, Value)>): Value -> Result<(Value, Value)>
  {
    profile => RowOf(t, byName, profile)
  }

  /** A row that can be read is filed under the name the grouping by `rsIDSSynProfilesName`
      gives it, `DEFAULT_PROFILE` when it has none. */
  lemma RowNames(t: Table, byName: seq<(Value, Value)>)
    ensures NamesAs(ProfileKey, Row(t, byName))
  {
  }

  /** A row that is not a dict has no `.get`, a row named by a list or dict cannot be filed,
      and a row without a profile name is filed under `DEFAULT_PROFILE`. */
  lemma RowReads(t: Table, byName: seq<(Value, Value)>, profile: Value)
    ensures RowOf(t, byName, profile).Err? <==>
      !profile.VDict? || !Hashable(NameOf(ProfileKey, profile)) || !Hashable(FieldOr(profile, ServiceNameField, VNone))
    ensures profile.VDict? && Get(profile.entries, ProfileNameField).None? && RowOf(t, byName, profile).Ok? ==>
      RowOf(t, byName, profile).value.0 == VStr(DefaultProfile)
  {
  }

  /** A row naming no known protection gets `None` details: only its protection name is kept
      (`str(None)` is no packet-report code). */
  lemma UnknownProtection(t: Table, byName: seq<(Value, Value)>, profile: Value)
    requires RowOf(t, byName, profile).Ok?
    requires Get(byName, FieldOr(profile, ServiceNameField, VNone)).None? && Get(t, "None").None?
    ensures RowOf(t, byName, profile).value.1 ==
      VDict([("protection_name", FieldOr(profile, ServiceNameField, VNone)), ("protection_id", VNone),
             ("activation_threshold", VNone), ("termination_threshold", VNone),
             ("packet_report", VNone), ("app_port_group", VNone)])
  {
  }

  /** A row naming a protection gets the details of the last protection of that name: a later
      duplicate replaces an earlier one. */
  lemma KnownProtection(t: Table, prots: seq<Value>, i: nat, profile: Value)
    requires Index(GetKeyOf(AttackNameField), prots).Ok? && RowOf(t, Index(GetKeyOf(AttackNameField), prots).value, profile).Ok?
    requires LastKeyed(GetKeyOf(AttackNameField), prots, i, FieldOr(profile, ServiceNameField, VNone))
    ensures RowOf(t, Index(GetKeyOf(AttackNameField), prots).value, profile).value.1 ==
      Details(t, FieldOr(profile, ServiceNameField, VNone), prots[i])
  {
    IndexLastWins(GetKeyOf(AttackNameField), prots, i, FieldOr(profile, ServiceNameField, VNone));
  }

  // ---------------------------------------------------------------------------------------------
  // The module run
  // ---------------------------------------------------------------------------------------------

  /** `debug_info`: the raw row counts, and whether (and with which names) the filter was
      applied, with the profile counts before and after it. */
  datatype Debug = Debug(protectionsRawCount: Option<nat>, profilesRawCount: Option<nat>,
                         filterApplied: Option<bool>, filterNames: Option<seq<Value>>,
                         filteredCount: Option<nat>, totalCount: Option<nat>)

  /** A failure carries the `debug_info` gathered before the exception. */
  datatype RunResult =
    | Exited(profiles: seq<Value>, debug: Debug, sent: seq<Request>)
    | Failed(msg: string, debug: Debug, sent: seq<Request>)

  const NoDebug := Debug(None, None, None, None, None, None)

  function Run(dp: string, names: seq<Value>, net: Net): RunResult
  {
    var sent0 := [ProtectionsRequest(dp)];
    match TableRows(net(0), AttackTable)
    case Err(m) => Failed(m, NoDebug, sent0)
    case Ok(prots) =>
      var sent := sent0 + [ProfilesRequest(dp)];
      var debug0 := NoDebug.(protectionsRawCount := Some(|prots|));
      match TableRows(net(1), ProfileTable)
      case Err(m) => Failed(m, debug0, sent)
      case Ok(rows) =>
        var debug := debug0.(profilesRawCount := Some(|rows|));
        match Index(GetKeyOf(AttackNameField), prots)
        case Err(m) => Failed(m, debug, sent)
        case Ok(byName) =>
          match Nest(Row(PacketReportWords, byName), rows)
          case Err(m) => Failed(m, debug, sent)
          case Ok(g) =>
            var kept := Listed(g, names);
            if names != [] then
              Exited(ProfileList(kept),
                     debug.(filterApplied := Some(true), filterNames := Some(names),
                            filteredCount := Some(|kept|), totalCount := Some(|g|)), sent)
            else
              Exited(ProfileList(g), debug.(filterApplied := Some(false), totalCount := Some(|g|)), sent)
  }

  method RunModule(dp: string, names: seq<Value>, net: Net) returns (r: RunResult)
    ensures r == Run(dp, names, net)
  {
    var sent := [ProtectionsRequest(dp)];
    var debug := NoDebug;
    var prots := TableRows(net(0), AttackTable);
    if prots.Err? {
      return Failed(prots.msg, debug, sent);
    }
    debug := debug.(protectionsRawCount := Some(|prots.value|));
    sent := sent + [ProfilesRequest(dp)];
    var rows := TableRows(net(1), ProfileTable);
    if rows.Err? {
      return Failed(rows.msg, debug, sent);
    }
    debug := debug.(profilesRawCount := Some(|rows.value|));
    var byName := Index(GetKeyOf(AttackNameField), prots.value);
    if byName.Err? {
      return Failed(byName.msg, debug, sent);
    }
    var nested := NestRows(Row(PacketReportWords, byName.value), rows.value);
    if nested.Err? {
      return Failed(nested.msg, debug, sent);
    }
    var all := nested.value;
    if names != [] {
      var kept := Listed(all, names);
      debug := debug.(filterApplied := Some(true), filterNames := Some(names), filteredCount := Some(|kept|));
      debug := debug.(totalCount := Some(|all|));
      return Exited(ProfileList(kept), debug, sent);
    }
    debug := debug.(filterApplied := Some(false), totalCount := Some(|all|));
    return Exited(ProfileList(all), debug, sent);
  }

  /** The profiles are fetched only once the protections were read, and a failure keeps the
      counts taken so far.  A run is reported iff both tables are read, every protection is a
      dict named by a hashable value and every profile row can be read.  It then lists the
      profiles of the listed names (all of them when none is listed), with distinct names in
      first-occurrence order and one protection per profile row, and counts them before and
      after the filter. */
  lemma RunOutcome(dp: string, names: seq<Value>, net: Net)
    ensures var r := Run(dp, names, net);
      r.sent == if TableRows(net(0), AttackTable).Err? then [ProtectionsRequest(dp)]
                else [ProtectionsRequest(dp), ProfilesRequest(dp)]
    ensures var r := Run(dp, names, net);
      (r.debug.protectionsRawCount.Some? <==> TableRows(net(0), AttackTable).Ok?) &&
      (r.debug.profilesRawCount.Some? <==> TableRows(net(0), AttackTable).Ok? && TableRows(net(1), ProfileTable).Ok?)
    ensures var r := Run(dp, names, net);
      r.Exited? <==>
        TableRows(net(0), AttackTable).Ok? && TableRows(net(1), ProfileTable).Ok? &&
        var prots := TableRows(net(0), AttackTable).value;
        var rows := TableRows(net(1), ProfileTable).value;
        (forall i :: 0 <= i < |prots| ==> GetKey(AttackNameField, prots[i]).Ok?) &&
        Index(GetKeyOf(AttackNameField), prots).Ok? &&
        forall i :: 0 <= i < |rows| ==> RowOf(PacketReportWords, Index(GetKeyOf(AttackNameField), prots).value, rows[i]).Ok?
    ensures var r := Run(dp, names, net);
      r.Exited? ==>
        var rows := TableRows(net(1), ProfileTable).value;
        var g := Nest(Row(PacketReportWords, Index(GetKeyOf(AttackNameField), TableRows(net(0), AttackTable).value).value), rows).value;
        UniqueKeys(g) && Total(g) == |rows| && FirstOccurrenceOrder(ProfileKey, rows, g) &&
        r.profiles == ProfileList(Listed(g, names)) &&
        (forall e :: e in Listed(g, names) <==> e in g && (names == [] || e.0 in names)) &&
        r.debug.filterApplied == Some(names != []) && r.debug.totalCount == Some(|g|) &&
        r.debug.filteredCount == (if names != [] then Some(|Listed(g, names)|) else None) &&
        r.debug.filterNames == (if names != [] then Some(names) else None)
  {
    if TableRows(net(0), AttackTable).Ok? && TableRows(net(1), ProfileTable).Ok? {
      var prots := TableRows(net(0), AttackTable).value;
      IndexRaises(GetKeyOf(AttackNameField), prots);
      if Index(GetKeyOf(AttackNameField), prots).Ok? {
        var rows := TableRows(net(1), ProfileTable).value;
        var byName := Index(GetKeyOf(AttackNameField), prots).value;
        NestRaises(Row(PacketReportWords, byName), rows);
        if Nest(Row(PacketReportWords, byName), rows).Ok? {
          RowNames(PacketReportWords, byName);
          NestShape(ProfileKey, Row(PacketReportWords, byName), rows);
          ListedKeeps(Nest(Row(PacketReportWords, byName), rows).value, names);
        }
      }
    }
  }
}

/** The converter object of scripts/excel_to_yaml_converter.py: it holds the configuration
    being built and fills it sheet by sheet.  The workbook is given as its sheets, already
    read; each parsing method is proved to add exactly what the matching function of module
    `ExcelSheets` describes. */
module ExcelToYaml {
  import opened Py
  import opened ExcelSheets

  /** A workbook: sheets by name, each with its first row and the rows after it as stored. */
  type Workbook = seq<(string, Sheet)>

  /** `any(cell is not None for cell in row)`. */
  predicate HasCell(row: Row)
  {
    exists i :: 0 <= i < |row| && !row[i].VNone?
  }

  /** The rows `read_worksheet` keeps: those with some cell. */
  function NonEmptyRows(rows: seq<Row>): seq<Row>
  {
    if rows == [] then []
    else NonEmptyRows(rows[..|rows| - 1]) + if HasCell(rows[|rows| - 1]) then [rows[|rows| - 1]] else []
  }

  /** `read_worksheet`: a missing sheet reads as no headers and no rows. */
  function ReadSheet(book: Workbook, name: string): Sheet
  {
    match Get(book, name)
    case None => EmptySheet
    case Some(s) => Sheet(s.headers, NonEmptyRows(s.rows))
  }

  /** The rows read are the stored rows with some cell, in order. */
  lemma {:induction false} NonEmptyRowsAre(rows: seq<Row>)
    ensures forall r :: r in NonEmptyRows(rows) <==> r in rows && HasCell(r)
    ensures |NonEmptyRows(rows)| <= |rows|
    decreases |rows|
  {
    if rows != [] {
      var n := |rows| - 1;
      NonEmptyRowsAre(rows[..n]);
      assert rows == rows[..n] + [rows[n]];
    }
  }

  // ---------------------------------------------------------------------------------------------
  // The sheet mappings of `convert`
  // ---------------------------------------------------------------------------------------------

  const BdosMapping: seq<(string, string)> := [
    ("Action", "action"), ("SYN_Flood", "syn_flood"), ("UDP_Flood", "udp_flood"),
    ("IGMP_Flood", "igmp_flood"), ("ICMP_Flood", "icmp_flood"),
    ("TCP_ACK_FIN_Flood", "tcp_ack_fin_flood"), ("TCP_RST_Flood", "tcp_rst_flood"),
    ("TCP_SYN_ACK_Flood", "tcp_syn_ack_flood"), ("TCP_Frag_Flood", "tcp_frag_flood"),
    ("UDP_Frag_Flood", "udp_frag_flood"), ("Inbound_Traffic", "inbound_traffic"),
    ("Outbound_Traffic", "outbound_traffic"), ("TCP_In_Quota", "tcp_in_quota"),
    ("UDP_In_Quota", "udp_in_quota"), ("ICMP_In_Quota", "icmp_in_quota"),
    ("IGMP_In_Quota", "igmp_in_quota"), ("TCP_Out_Quota", "tcp_out_quota"),
    ("UDP_Out_Quota", "udp_out_quota"), ("ICMP_Out_Quota", "icmp_out_quota"),
    ("IGMP_Out_Quota", "igmp_out_quota"), ("Transparent_Optimization", "transparent_optimization"),
    ("Packet_Report", "packet_report"), ("Burst_Attack", "burst_attack"),
    ("Max_Interval_Between_Bursts", "maximum_interval_between_bursts"),
    ("Learning_Suppression_Threshold", "learning_suppression_threshold"),
    ("Footprint_Strictness", "footprint_strictness"),
    ("UDP_Packet_Rate_Detection_Sensitivity", "udp_packet_rate_detection_sensitivity"),
    ("BDOS_Rate_Limit", "bdos_rate_limit"), ("User_Defined_Rate_Limit", "user_defined_rate_limit"),
    ("User_Defined_Rate_Limit_Unit", "user_defined_rate_limit_unit"),
    ("Adv_UDP_Detection", "adv_udp_detection")
  ]

  const DnsMapping: seq<(string, string)> := [
    ("Expected_QPS", "expected_qps"), ("Max_Allow_QPS", "max_allow_qps"),
    ("Footprint_Strictness", "footprint_strictness"), ("Packet_Report", "packet_report"),
    ("Learning_Suppression_Threshold", "learning_suppression_threshold"),
    ("A_Quota", "a_quota"), ("MX_Quota", "mx_quota"), ("PTR_Quota", "ptr_quota"),
    ("AAAA_Quota", "aaaa_quota"), ("Text_Quota", "text_quota"), ("SOA_Quota", "soa_quota"),
    ("NAPTR_Quota", "naptr_quota"), ("SRV_Quota", "srv_quota"), ("Other_Quota", "other_quota"),
    ("A_Status", "a_status"), ("MX_Status", "mx_status"), ("PTR_Status", "ptr_status"),
    ("AAAA_Status", "aaaa_status"), ("Text_Status", "text_status"), ("SOA_Status", "soa_status"),
    ("NAPTR_Status", "naptr_status"), ("SRV_Status", "srv_status"), ("Other_Status", "other_status"),
    ("Manual_Trigger", "manual_trigger"), ("Manual_Trigger_Act_Thresh", "manual_trigger_act_thresh"),
    ("Manual_Trigger_Term_Thresh", "manual_trigger_term_thresh")
  ]

  const HttpsMapping: seq<(string, string)> := [
    ("Action", "action"), ("Rate_Limit", "rate_limit"),
    ("HTTPS_Auth_Suspect_Sources", "https_authentication_on_suspect_sources"),
    ("HTTPS_Auth_All_Sources", "https_authentication_on_all_sources"),
    ("Rate_Limit_Status", "rate_limit_status"), ("Packet_Report", "packet_report"),
    ("Full_Session_Decryption", "full_session_decryption")
  ]

  const OosMapping: seq<(string, string)> := [
    ("Action", "action"), ("SYN_ACK_Allow", "syn_ack_allow"), ("Packet_Report", "packet_report"),
    ("Risk", "risk"), ("Act_Threshold", "act_threshold"), ("Term_Threshold", "term_threshold"),
    ("Idle_State", "idle_state"), ("Idle_State_Bandwidth_Threshold", "idle_state_bandwidth_threshold"),
    ("Idle_State_Timer", "idle_state_timer")
  ]

  /** `convert` without its printing and the YAML file: every sheet in turn. */
  function Converted(config: Dict, book: Workbook): Dict
  {
    var c1 := ConfigSheet(config, ReadSheet(book, "Config"));
    var c2 := NetworkSheet(c1, ReadSheet(book, "Network_Classes"));
    var c3 := ProfileSheet(c2, ReadSheet(book, "BDOS"), "BDOS", "bdos_profiles", BdosMapping);
    var c4 := ProfileSheet(c3, ReadSheet(book, "DNS"), "DNS", "create_dns_profiles", DnsMapping);
    var c5 := ProfileSheet(c4, ReadSheet(book, "HTTPS"), "HTTPS", "create_https_profiles", HttpsMapping);
    var c6 := ProfileSheet(c5, ReadSheet(book, "OOS"), "OOS", "oos_profiles", OosMapping);
    var c7 := ClSheet(c6, ReadSheet(book, "Connection_Limit"));
    PoliciesSheet(c7, ReadSheet(book, "Security_Policies"))
  }

  /** The top-level keys the converter writes. */
  const TopKeys := ["dp_ip", "security_policy_config", "netclasses", "bdos_profiles", "create_dns_profiles",
                    "create_https_profiles", "oos_profiles", "cl_protections", "cl_profiles", "security_policies"]

  lemma SetIfKeys(config: Dict, key: string, v: Value)
    ensures forall k :: k in Keys(SetIf(config, key, v)) ==> k in Keys(config) || k == key
  {
    if Truthy(v) { KeysPut(config, key, v); }
  }

  /** A fresh conversion writes only the known top-level keys. */
  lemma ConvertedKeys(book: Workbook)
    ensures forall k :: k in Keys(Converted([], book)) ==> k in TopKeys
  {
    var c1 := ConfigSheet([], ReadSheet(book, "Config"));
    SetIfKeys([], "dp_ip", StrList(DpIps(ReadSheet(book, "Config").rows)));
    SetIfKeys(SetIf([], "dp_ip", StrList(DpIps(ReadSheet(book, "Config").rows))), "security_policy_config",
              VDict(Switches(ReadSheet(book, "Config").rows)));
    var c2 := NetworkSheet(c1, ReadSheet(book, "Network_Classes"));
    NetworkSheetKeys(c1, ReadSheet(book, "Network_Classes"));
    var c3 := ProfileSheet(c2, ReadSheet(book, "BDOS"), "BDOS", "bdos_profiles", BdosMapping);
    ProfileKeys(c2, ReadSheet(book, "BDOS"), "BDOS", "bdos_profiles", BdosMapping);
    var c4 := ProfileSheet(c3, ReadSheet(book, "DNS"), "DNS", "create_dns_profiles", DnsMapping);
    ProfileKeys(c3, ReadSheet(book, "DNS"), "DNS", "create_dns_profiles", DnsMapping);
    var c5 := ProfileSheet(c4, ReadSheet(book, "HTTPS"), "HTTPS", "create_https_profiles", HttpsMapping);
    ProfileKeys(c4, ReadSheet(book, "HTTPS"), "HTTPS", "create_https_profiles", HttpsMapping);
    var c6 := ProfileSheet(c5, ReadSheet(book, "OOS"), "OOS", "oos_profiles", OosMapping);
    ProfileKeys(c5, ReadSheet(book, "OOS"), "OOS", "oos_profiles", OosMapping);
    var lists := ClRows(ReadSheet(book, "Connection_Limit").rows);
    SetIfKeys(c6, "cl_protections", VList(lists.protections));
    SetIfKeys(SetIf(c6, "cl_protections", VList(lists.protections)), "cl_profiles", VList(lists.profiles));
    var c7 := ClSheet(c6, ReadSheet(book, "Connection_Limit"));
    SetIfKeys(c7, "security_policies", VList(Policies(ReadSheet(book, "Security_Policies").rows)));
  }

  lemma NetworkSheetKeys(config: Dict, sheet: Sheet)
    ensures forall k :: k in Keys(NetworkSheet(config, sheet)) ==> k in Keys(config) || k == "netclasses"
  {
    if |sheet.headers| >= 2 {
      var cols := Columns(sheet.headers, HeaderKey);
      var none: seq<Group> := [];
      var s := NetRows(NetState(Init(cols, none), [], []), cols, sheet.rows);
      SetIfKeys(config, "netclasses", VList(Emitted(Pair(s.classes, cols, s.addresses, s.masks), HasGroups, ClassValue)));
    }
  }

  lemma ProfileKeys(config: Dict, sheet: Sheet, sheetName: string, configKey: string, mapping: seq<(string, string)>)
    ensures forall k :: k in Keys(ProfileSheet(config, sheet, sheetName, configKey, mapping)) ==> k in Keys(config) || k == configKey
  {
    if |sheet.headers| >= 2 {
      var cols := Columns(sheet.headers, StrKey);
      var none: Dict := [];
      var e := ProfileRows(Init(cols, none), cols, sheet.rows, mapping, Lower(sheetName));
      SetIfKeys(config, configKey, VList(Emitted(e, HasParams, ProfileValue)));
    }
  }

  /** Every numeric field of the bdos sheet type is a key the BDOS mapping produces. */
  lemma BdosNumericMapped(p: string)
    requires p in BdosNumeric
    ensures exists q :: (q, p) in BdosMapping
  {
    var fields := BdosNumeric;
    var j :| 0 <= j < |fields| && fields[j] == p;
    if j == 0 {
      assert BdosMapping[10].1 == fields[0];
    } else if j == 1 {
      assert BdosMapping[11].1 == fields[1];
    } else if j == 2 {
      assert BdosMapping[12].1 == fields[2];
    } else if j == 3 {
      assert BdosMapping[13].1 == fields[3];
    } else if j == 4 {
      assert BdosMapping[14].1 == fields[4];
    } else if j == 5 {
      assert BdosMapping[15].1 == fields[5];
    } else if j == 6 {
      assert BdosMapping[16].1 == fields[6];
    } else if j == 7 {
      assert BdosMapping[17].1 == fields[7];
    } else if j == 8 {
      assert BdosMapping[18].1 == fields[8];
    } else if j == 9 {
      assert BdosMapping[19].1 == fields[9];
    } else if j == 10 {
      assert BdosMapping[23].1 == fields[10];
    } else if j == 11 {
      assert BdosMapping[24].1 == fields[11];
    } else {
      assert BdosMapping[28].1 == fields[12];
    }
  }


  /** Every numeric field of the dns sheet type is a key the DNS mapping produces. */
  lemma DnsNumericMapped(p: string)
    requires p in DnsNumeric
    ensures exists q :: (q, p) in DnsMapping
  {
    var fields := DnsNumeric;
    var j :| 0 <= j < |fields| && fields[j] == p;
    if j == 0 {
      assert DnsMapping[0].1 == fields[0];
    } else if j == 1 {
      assert DnsMapping[1].1 == fields[1];
    } else if j == 2 {
      assert DnsMapping[4].1 == fields[2];
    } else if j == 3 {
      assert DnsMapping[5].1 == fields[3];
    } else if j == 4 {
      assert DnsMapping[6].1 == fields[4];
    } else if j == 5 {
      assert DnsMapping[7].1 == fields[5];
    } else if j == 6 {
      assert DnsMapping[8].1 == fields[6];
    } else if j == 7 {
      assert DnsMapping[9].1 == fields[7];
    } else if j == 8 {
      assert DnsMapping[10].1 == fields[8];
    } else if j == 9 {
      assert DnsMapping[11].1 == fields[9];
    } else if j == 10 {
      assert DnsMapping[12].1 == fields[10];
    } else if j == 11 {
      assert DnsMapping[13].1 == fields[11];
    } else if j == 12 {
      assert DnsMapping[24].1 == fields[12];
    } else {
      assert DnsMapping[25].1 == fields[13];
    }
  }


  /** Every numeric field of the https sheet type is a key the HTTPS mapping produces. */
  lemma HttpsNumericMapped(p: string)
    requires p in HttpsNumeric
    ensures exists q :: (q, p) in HttpsMapping
  {
    var fields := HttpsNumeric;
    var j :| 0 <= j < |fields| && fields[j] == p;
    assert HttpsMapping[1].1 == fields[0];
  }


  /** Every numeric field of the oos sheet type is a key the OOS mapping produces. */
  lemma OosNumericMapped(p: string)
    requires p in OosNumeric
    ensures exists q :: (q, p) in OosMapping
  {
    var fields := OosNumeric;
    var j :| 0 <= j < |fields| && fields[j] == p;
    if j == 0 {
      assert OosMapping[4].1 == fields[0];
    } else if j == 1 {
      assert OosMapping[5].1 == fields[1];
    } else if j == 2 {
      assert OosMapping[7].1 == fields[2];
    } else {
      assert OosMapping[8].1 == fields[3];
    }
  }


  /** No numeric rule is dead: every field `should_be_numeric` lists for a profile sheet (the
      sheet's name lower-cased) is a key that sheet's mapping produces. */
  lemma NumericFieldsMapped(p: string)
    ensures ShouldBeNumeric(p, Lower("BDOS")) ==> exists q :: (q, p) in BdosMapping
    ensures ShouldBeNumeric(p, Lower("DNS")) ==> exists q :: (q, p) in DnsMapping
    ensures ShouldBeNumeric(p, Lower("HTTPS")) ==> exists q :: (q, p) in HttpsMapping
    ensures ShouldBeNumeric(p, Lower("OOS")) ==> exists q :: (q, p) in OosMapping
  {
    assert Lower("BDOS") == "bdos" && Lower("DNS") == "dns" && Lower("HTTPS") == "https" && Lower("OOS") == "oos";
    GetAt(NumericFields, 0, "bdos");
    GetAt(NumericFields, 1, "dns");
    GetAt(NumericFields, 2, "https");
    GetAt(NumericFields, 3, "oos");
    if p in BdosNumeric {
      BdosNumericMapped(p);
    }
    if p in DnsNumeric {
      DnsNumericMapped(p);
    }
    if p in HttpsNumeric {
      HttpsNumericMapped(p);
    }
    if p in OosNumeric {
      OosNumericMapped(p);
    }
  }

  // ---------------------------------------------------------------------------------------------
  // The loops
  // ---------------------------------------------------------------------------------------------

  /** The header loop collecting entity columns. */
  method EntityColumns(headers: seq<Value>, keyOf: Value -> Value) returns (cols: seq<Column>)
    ensures cols == Columns(headers, keyOf)
  {
    cols := [];
    var i := 0;
    while i < |headers|
      invariant 0 <= i <= |headers|
      invariant cols == Columns(headers[..i], keyOf)
    {
      assert headers[..i + 1][..i] == headers[..i];
      if EntityHeader(headers[i]) {
        cols := cols + [(i, keyOf(headers[i]))];
      }
      i := i + 1;
    }
    assert headers[..i] == headers;
  }

  /** The loop creating one entity per column. */
  method InitEntities<T>(cols: seq<Column>, empty: T) returns (e: Entities<T>)
    ensures e == Init(cols, empty)
  {
    e := [];
    var i := 0;
    while i < |cols|
      invariant 0 <= i <= |cols|
      invariant e == Init(cols[..i], empty)
    {
      assert cols[..i + 1][..i] == cols[..i];
      e := Put(e, cols[i].1, Entity(cols[i].1, empty));
      i := i + 1;
    }
    assert cols[..i] == cols;
  }

  /** The `Name` row's loop over the columns. */
  method RenameEntities<T>(e: Entities<T>, cols: seq<Column>, row: Row) returns (r: Entities<T>)
    ensures r == Rename(e, cols, row)
  {
    r := e;
    var i := 0;
    while i < |cols|
      invariant 0 <= i <= |cols|
      invariant r == Rename(e, cols[..i], row)
    {
      assert cols[..i + 1][..i] == cols[..i];
      var (c, k) := cols[i];
      if c < |row| && Truthy(row[c]) {
        r := Relabel(r, k, VStr(Str(row[c])));
      }
      i := i + 1;
    }
    assert cols[..i] == cols;
  }

  /** A parameter row's loop over the columns. */
  method SetParamsLoop(e: Entities<Dict>, cols: seq<Column>, row: Row, key: string, numeric: bool) returns (r: Entities<Dict>)
    ensures r == SetParams(e, cols, row, key, numeric)
  {
    r := e;
    var i := 0;
    while i < |cols|
      invariant 0 <= i <= |cols|
      invariant r == SetParams(e, cols[..i], row, key, numeric)
    {
      assert cols[..i + 1][..i] == cols[..i];
      var (c, k) := cols[i];
      if c < |row| {
        var v := CellValue(row[c], numeric);
        if v.Some? {
          r := SetParam(r, k, key, v.value);
        }
      }
      i := i + 1;
    }
    assert cols[..i] == cols;
  }

  /** An address row and its mask row, column by column. */
  method AddGroupsLoop(e: Entities<seq<Group>>, cols: seq<Column>, addressRow: Row, maskRow: Row) returns (r: Entities<seq<Group>>)
    ensures r == AddGroups(e, cols, addressRow, maskRow)
  {
    r := e;
    var i := 0;
    while i < |cols|
      invariant 0 <= i <= |cols|
      invariant r == AddGroups(e, cols[..i], addressRow, maskRow)
    {
      assert cols[..i + 1][..i] == cols[..i];
      var g := PairCells(addressRow, maskRow, cols[i].0);
      if g.Some? {
        r := AddGroup(r, cols[i].1, g.value);
      }
      i := i + 1;
    }
    assert cols[..i] == cols;
  }

  /** The loop keeping the entities whose body is not empty. */
  method KeepFilled<T>(e: Entities<T>, has: T -> bool, render: Entity<T> -> Value) returns (result: seq<Value>)
    ensures result == Emitted(e, has, render)
  {
    result := [];
    var i := 0;
    while i < |e|
      invariant 0 <= i <= |e|
      invariant result == Emitted(e[..i], has, render)
    {
      assert e[..i + 1][..i] == e[..i];
      if has(e[i].1.body) {
        result := result + [render(e[i].1)];
      }
      i := i + 1;
    }
    assert e[..i] == e;
  }

  /** The loop over a policy's columns. */
  method PolicyFieldsLoop(policy: Dict, row: Row, cols: seq<(nat, string)>) returns (p: Dict)
    ensures p == PolicyFields(policy, row, cols)
  {
    p := policy;
    var i := 0;
    while i < |cols|
      invariant 0 <= i <= |cols|
      invariant p == PolicyFields(policy, row, cols[..i])
    {
      assert cols[..i + 1][..i] == cols[..i];
      var (idx, field) := cols[i];
      if idx < |row| && Truthy(row[idx]) {
        var value := Strip(Str(row[idx]));
        if value != "" {
          p := Put(p, field, VStr(if field == "priority" then Priority(value) else value));
        }
      }
      i := i + 1;
    }
    assert cols[..i] == cols;
  }

  /** One row of the network-classes sheet. */
  method NetStep(s: NetState, cols: seq<Column>, row: Row) returns (r: NetState)
    ensures r == NetRow(s, cols, row)
  {
    r := s;
    if row != [] && Truthy(row[0]) {
      var param := Str(row[0]);
      if param == "Name" {
        var classes := RenameEntities(s.classes, cols, row);
        r := s.(classes := classes);
      } else if IsPrefix("Address_", param) {
        r := s.(addresses := Put(s.addresses, GroupNumber(param), row));
      } else if IsPrefix("Mask_", param) {
        r := s.(masks := Put(s.masks, GroupNumber(param), row));
      }
    }
  }

  /** One row of a profile sheet. */
  method ProfileStep(e: Entities<Dict>, cols: seq<Column>, row: Row, mapping: seq<(string, string)>, sheetType: string)
    returns (r: Entities<Dict>)
    ensures r == ProfileRow(e, cols, row, mapping, sheetType)
  {
    r := e;
    if row != [] && Truthy(row[0]) {
      var param := Str(row[0]);
      if param == "Name" {
        r := RenameEntities(e, cols, row);
      } else {
        var key := GetOr(mapping, param, "");
        if key != "" {
          r := SetParamsLoop(e, cols, row, key, ShouldBeNumeric(key, sheetType));
        }
      }
    }
  }

  /** One row of the security-policies sheet. */
  method PolicyStep(policies: seq<Value>, row: Row) returns (r: seq<Value>)
    ensures r == policies + if row != [] && Truthy(row[0]) && |Policy(row)| > 1 then [VDict(Policy(row))] else []
  {
    r := policies;
    if row != [] && Truthy(row[0]) {
      var policy := PolicyFieldsLoop([("policy_name", VStr(Str(row[0])))], row, PolicyColumns);
      if |policy| > 1 {
        r := policies + [VDict(policy)];
      }
    }
  }

  // ---------------------------------------------------------------------------------------------
  // The converter
  // ---------------------------------------------------------------------------------------------

  class Converter {
    /** `self.config`: the YAML document being built, key by key. */
    var config: Dict

    constructor ()
      ensures config == []
    {
      config := [];
    }

    /** `parse_config_sheet`. */
    method ParseConfigSheet(book: Workbook)
      modifies this
      ensures config == ConfigSheet(old(config), ReadSheet(book, "Config"))
    {
      var rows := ReadSheet(book, "Config").rows;
      var dpIps: seq<string> := [];
      var policyConfig: Dict := [];
      var i := 0;
      while i < |rows|
        invariant 0 <= i <= |rows|
        invariant dpIps == DpIps(rows[..i]) && policyConfig == Switches(rows[..i])
      {
        assert rows[..i + 1][..i] == rows[..i];
        var row := rows[i];
        if |row| >= 2 {
          var setting := Lower(Text(row[0]));
          var value := Text(row[1]);
          if setting == "dp_ip" && value != "" {
            dpIps := dpIps + [value];
          } else if IsSwitch(setting) {
            if Lower(value) == "true" || Lower(value) == "false" {
              policyConfig := Put(policyConfig, setting, VBool(Lower(value) == "true"));
            }
          }
        }
        i := i + 1;
      }
      assert rows[..i] == rows;
      if dpIps != [] {
        config := Put(config, "dp_ip", StrList(dpIps));
      }
      if policyConfig != [] {
        config := Put(config, "security_policy_config", VDict(policyConfig));
      }
    }

    /** `parse_network_classes_sheet`. */
    method ParseNetworkClassesSheet(book: Workbook)
      modifies this
      ensures config == NetworkSheet(old(config), ReadSheet(book, "Network_Classes"))
    {
      var sheet := ReadSheet(book, "Network_Classes");
      if |sheet.headers| < 2 {
        return;
      }
      var cols := EntityColumns(sheet.headers, HeaderKey);
      if cols == [] {
        return;
      }
      var none: seq<Group> := [];
      var classes := InitEntities(cols, none);
      var addresses: seq<(string, Row)> := [];
      var masks: seq<(string, Row)> := [];
      var rows := sheet.rows;
      var i := 0;
      while i < |rows|
        invariant 0 <= i <= |rows|
        invariant NetState(classes, addresses, masks) == NetRows(NetState(Init(cols, none), [], []), cols, rows[..i])
        invariant config == old(config)
      {
        assert rows[..i + 1][..i] == rows[..i];
        var next := NetStep(NetState(classes, addresses, masks), cols, rows[i]);
        classes, addresses, masks := next.classes, next.addresses, next.masks;
        i := i + 1;
      }
      assert rows[..i] == rows;
      var named := classes;
      var j := 0;
      while j < |addresses|
        invariant 0 <= j <= |addresses|
        invariant classes == Pair(named, cols, addresses[..j], masks)
        invariant config == old(config)
      {
        assert addresses[..j + 1][..j] == addresses[..j];
        var maskRow := Get(masks, addresses[j].0);
        if maskRow.Some? {
          classes := AddGroupsLoop(classes, cols, addresses[j].1, maskRow.value);
        }
        j := j + 1;
      }
      assert addresses[..j] == addresses;
      var result := KeepFilled(classes, HasGroups, ClassValue);
      if result != [] {
        config := Put(config, "netclasses", VList(result));
      }
    }

    /** `parse_transposed_profile_sheet`. */
    method ParseTransposedProfileSheet(book: Workbook, sheetName: string, configKey: string, mapping: seq<(string, string)>)
      modifies this
      ensures config == ProfileSheet(old(config), ReadSheet(book, sheetName), sheetName, configKey, mapping)
    {
      var sheet := ReadSheet(book, sheetName);
      if |sheet.headers| < 2 {
        return;
      }
      var cols := EntityColumns(sheet.headers, StrKey);
      if cols == [] {
        return;
      }
      var none: Dict := [];
      var profiles := InitEntities(cols, none);
      var rows := sheet.rows;
      var i := 0;
      while i < |rows|
        invariant 0 <= i <= |rows|
        invariant profiles == ProfileRows(Init(cols, none), cols, rows[..i], mapping, Lower(sheetName))
        invariant config == old(config)
      {
        assert rows[..i + 1][..i] == rows[..i];
        profiles := ProfileStep(profiles, cols, rows[i], mapping, Lower(sheetName));
        i := i + 1;
      }
      assert rows[..i] == rows;
      var result := KeepFilled(profiles, HasParams, ProfileValue);
      if result != [] {
        config := Put(config, configKey, VList(result));
      }
    }

    /** `parse_connection_limit_sheet`. */
    method ParseConnectionLimitSheet(book: Workbook)
      modifies this
      ensures config == ClSheet(old(config), ReadSheet(book, "Connection_Limit"))
    {
      var rows := ReadSheet(book, "Connection_Limit").rows;
      var protections: seq<Value> := [];
      var profiles: seq<Value> := [];
      var i := 0;
      while i < |rows|
        invariant 0 <= i <= |rows|
        invariant ClLists(protections, profiles) == ClRows(rows[..i])
      {
        assert rows[..i + 1][..i] == rows[..i];
        var row := rows[i];
        if |row| >= 2 {
          var rowType := Lower(Text(row[0]));
          var name := Text(row[1]);
          if name != "" {
            if rowType == "protection" {
              var protection := Protection(row, name);
              if |protection| > 1 {
                protections := protections + [VDict(protection)];
              }
            } else if rowType == "profile" {
              if |row| > 9 && Truthy(row[9]) {
                var list := Pieces(Str(row[9]));
                if list != [] {
                  profiles := profiles + [VDict([("name", VStr(name)), ("protections", StrList(list))])];
                }
              }
            }
          }
        }
        i := i + 1;
      }
      assert rows[..i] == rows;
      if protections != [] {
        config := Put(config, "cl_protections", VList(protections));
      }
      if profiles != [] {
        config := Put(config, "cl_profiles", VList(profiles));
      }
    }

    /** `parse_security_policies_sheet`. */
    method ParseSecurityPoliciesSheet(book: Workbook)
      modifies this
      ensures config == PoliciesSheet(old(config), ReadSheet(book, "Security_Policies"))
    {
      var rows := ReadSheet(book, "Security_Policies").rows;
      var policies: seq<Value> := [];
      var i := 0;
      while i < |rows|
        invariant 0 <= i <= |rows|
        invariant policies == Policies(rows[..i])
        invariant config == old(config)
      {
        assert rows[..i + 1][..i] == rows[..i];
        policies := PolicyStep(policies, rows[i]);
        i := i + 1;
      }
      assert rows[..i] == rows;
      if policies != [] {
        config := Put(config, "security_policies", VList(policies));
      }
    }

    /** `convert`, without its printing and the YAML file. */
    method Convert(book: Workbook)
      modifies this
      ensures config == Converted(old(config), book)
    {
      ParseConfigSheet(book);
      ParseNetworkClassesSheet(book);
      ParseTransposedProfileSheet(book, "BDOS", "bdos_profiles", BdosMapping);
      ParseTransposedProfileSheet(book, "DNS", "create_dns_profiles", DnsMapping);
      ParseTransposedProfileSheet(book, "HTTPS", "create_https_profiles", HttpsMapping);
      ParseTransposedProfileSheet(book, "OOS", "oos_profiles", OosMapping);
      ParseConnectionLimitSheet(book);
      ParseSecurityPoliciesSheet(book);
    }
  }
}

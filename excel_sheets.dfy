/** The sheet parsers of scripts/excel_to_yaml_converter.py, on worksheets already read into a
    header row and data rows: what each parser adds to the configuration, as functions of the
    rows, with the properties the converter relies on.  The class that holds the configuration
    and runs the parsers in turn is in module `ExcelToYaml`. */
module ExcelSheets {
  import opened Py

  /** A worksheet row: openpyxl cell values (`None`, booleans, integers, strings). */
  type Row = seq<Value>

  /** What `read_worksheet` returns: the first row's cells, and the rows after it. */
  datatype Sheet = Sheet(headers: seq<Value>, rows: seq<Row>)

  const EmptySheet := Sheet([], [])

  /** The guard `i < len(row) and row[i]`: the cell exists and is truthy. */
  predicate Filled(row: Row, i: nat)
  {
    i < |row| && Truthy(row[i])
  }

  /** `str(v) if v else ''`. */
  function Text(v: Value): string
  {
    if Truthy(v) then Str(v) else ""
  }

  /** `if x: self.config[key] = x`. */
  function SetIf(config: Dict, key: string, v: Value): Dict
  {
    if Truthy(v) then Put(config, key, v) else config
  }

  // ---------------------------------------------------------------------------------------------
  // The Config sheet
  // ---------------------------------------------------------------------------------------------

  /** A setting that names a security-policy switch. */
  predicate IsSwitch(setting: string)
  {
    IsPrefix("create_", setting) || setting == "apply_policies_after_creation"
  }

  /** The `dp_ip` a row of at least two cells contributes: its non-empty value. */
  function DpIpOf(row: Row): Option<string>
  {
    if |row| >= 2 && Lower(Text(row[0])) == "dp_ip" && Text(row[1]) != "" then Some(Text(row[1])) else None
  }

  /** The switch a row sets, when it is not a `dp_ip` row and its value is `true` or `false` in
      any case. */
  function SwitchOf(row: Row): Option<(string, bool)>
  {
    if |row| < 2 || DpIpOf(row).Some? then None
    else
      var setting := Lower(Text(row[0]));
      var value := Lower(Text(row[1]));
      if IsSwitch(setting) && (value == "true" || value == "false") then Some((setting, value == "true")) else None
  }

  /** `dp_ips` after the rows. */
  function DpIps(rows: seq<Row>): seq<string>
  {
    if rows == [] then []
    else
      DpIps(rows[..|rows| - 1]) + match DpIpOf(rows[|rows| - 1]) case Some(ip) => [ip] case None => []
  }

  /** `policy_config` after the rows, each row read as the switch `f` finds in it. */
  function SwitchesBy(rows: seq<Row>, f: Row -> Option<(string, bool)>): Dict
  {
    if rows == [] then []
    else
      var d := SwitchesBy(rows[..|rows| - 1], f);
      match f(rows[|rows| - 1])
      case Some(s) => Put(d, s.0, VBool(s.1))
      case None => d
  }

  /** `policy_config` after the rows. */
  function Switches(rows: seq<Row>): Dict
  {
    SwitchesBy(rows, SwitchOf)
  }

  function StrList(items: seq<string>): Value
  {
    VList(seq(|items|, i requires 0 <= i < |items| => VStr(items[i])))
  }

  /** `parse_config_sheet`: `dp_ip` and `security_policy_config`, each only when non-empty. */
  function ConfigSheet(config: Dict, sheet: Sheet): Dict
  {
    SetIf(SetIf(config, "dp_ip", StrList(DpIps(sheet.rows))), "security_policy_config", VDict(Switches(sheet.rows)))
  }

  /** The addresses are collected in row order: those of two blocks of rows are those of the
      first block followed by those of the second. */
  lemma {:induction false} DpIpsAppend(a: seq<Row>, b: seq<Row>)
    ensures DpIps(a + b) == DpIps(a) + DpIps(b)
    decreases |b|
  {
    if b != [] {
      var n := |b| - 1;
      assert (a + b)[..|a + b| - 1] == a + b[..n];
      assert (a + b)[|a + b| - 1] == b[n];
      DpIpsAppend(a, b[..n]);
      var last := match DpIpOf(b[n]) case Some(ip) => [ip] case None => [];
      assert DpIps(b) == DpIps(b[..n]) + last;
      assert DpIps(a + b) == DpIps(a) + DpIps(b[..n]) + last;
    } else {
      assert a + b == a;
    }
  }

  /** An address is collected exactly when some `dp_ip` row gives it. */
  lemma {:induction false} DpIpsFrom(rows: seq<Row>, ip: string)
    ensures ip in DpIps(rows) <==> exists i :: 0 <= i < |rows| && DpIpOf(rows[i]) == Some(ip)
    decreases |rows|
  {
    if rows != [] {
      var n := |rows| - 1;
      DpIpsFrom(rows[..n], ip);
      forall i | 0 <= i < n ensures rows[..n][i] == rows[i] {
      }
    }
  }

  /** The row sets switch `k`, as `f` reads it. */
  predicate SetsBy(f: Row -> Option<(string, bool)>, row: Row, k: string)
  {
    f(row).Some? && f(row).value.0 == k
  }

  /** The row sets switch `k`. */
  predicate SetsSwitch(row: Row, k: string)
  {
    SetsBy(SwitchOf, row, k)
  }

  /** The last row decides switch `k` when it sets it, and leaves it as before otherwise. */
  lemma SwitchesLast(rows: seq<Row>, f: Row -> Option<(string, bool)>, k: string)
    requires rows != []
    ensures var n := |rows| - 1;
      Get(SwitchesBy(rows, f), k) ==
        if SetsBy(f, rows[n], k) then Some(VBool(f(rows[n]).value.1)) else Get(SwitchesBy(rows[..n], f), k)
  {
    var n := |rows| - 1;
    match f(rows[n])
    case Some(s) => GetPut(SwitchesBy(rows[..n], f), s.0, VBool(s.1), k);
    case None =>
  }

  lemma {:induction false} StoredBy(rows: seq<Row>, f: Row -> Option<(string, bool)>, k: string)
    ensures Get(SwitchesBy(rows, f), k).Some? <==> exists i :: 0 <= i < |rows| && SetsBy(f, rows[i], k)
    decreases |rows|
  {
    if rows != [] {
      var n := |rows| - 1;
      var init := rows[..n];
      StoredBy(init, f, k);
      SwitchesLast(rows, f, k);
      if !SetsBy(f, rows[n], k) {
        if Get(SwitchesBy(init, f), k).Some? {
          var i :| 0 <= i < n && SetsBy(f, init[i], k);
          assert init[i] == rows[i];
        }
        if exists i :: 0 <= i < |rows| && SetsBy(f, rows[i], k) {
          var i :| 0 <= i < |rows| && SetsBy(f, rows[i], k);
          assert i < n && init[i] == rows[i];
        }
      }
    }
  }

  lemma {:induction false} LastWinsBy(rows: seq<Row>, f: Row -> Option<(string, bool)>, k: string)
    ensures forall i :: 0 <= i < |rows| && SetsBy(f, rows[i], k) && (forall j :: i < j < |rows| ==> !SetsBy(f, rows[j], k)) ==>
      Get(SwitchesBy(rows, f), k) == Some(VBool(f(rows[i]).value.1))
    decreases |rows|
  {
    if rows != [] {
      var n := |rows| - 1;
      var init := rows[..n];
      LastWinsBy(init, f, k);
      SwitchesLast(rows, f, k);
      forall i | 0 <= i < |rows| && SetsBy(f, rows[i], k) && (forall j :: i < j < |rows| ==> !SetsBy(f, rows[j], k))
        ensures Get(SwitchesBy(rows, f), k) == Some(VBool(f(rows[i]).value.1))
      {
        if i < n {
          assert !SetsBy(f, rows[n], k);
          assert init[i] == rows[i];
          forall j | i < j < n ensures !SetsBy(f, init[j], k) {
            assert init[j] == rows[j];
          }
        }
      }
    }
  }

  /** A switch is stored exactly when some row sets it. */
  lemma SwitchesStored(rows: seq<Row>, k: string)
    ensures Get(Switches(rows), k).Some? <==> exists i :: 0 <= i < |rows| && SetsSwitch(rows[i], k)
  {
    StoredBy(rows, SwitchOf, k);
  }

  /** A stored switch holds the boolean of the last row that sets it. */
  lemma SwitchesLastWins(rows: seq<Row>, k: string)
    ensures forall i :: 0 <= i < |rows| && SetsSwitch(rows[i], k) && (forall j :: i < j < |rows| ==> !SetsSwitch(rows[j], k)) ==>
      Get(Switches(rows), k) == Some(VBool(SwitchOf(rows[i]).value.1))
  {
    LastWinsBy(rows, SwitchOf, k);
  }

  /** Every stored switch is a `create_*` or `apply_policies_after_creation` setting, never
      `dp_ip`, and comes from a `true`/`false` value. */
  lemma SwitchOfShape(row: Row)
    ensures SwitchOf(row).Some? ==>
      IsSwitch(SwitchOf(row).value.0) && SwitchOf(row).value.0 != "dp_ip" &&
      (SwitchOf(row).value.1 <==> Lower(Text(row[1])) == "true") && Lower(Text(row[1])) in {"true", "false"}
  {
    if SwitchOf(row).Some? {
      assert !IsPrefix("create_", "dp_ip");
    }
  }

  /** The sheet sets `dp_ip` exactly when some address was collected and
      `security_policy_config` exactly when some switch was stored; everything else is kept. */
  lemma ConfigSheetKeys(config: Dict, sheet: Sheet, k: string)
    ensures var c := ConfigSheet(config, sheet);
      Get(c, k) ==
        if k == "security_policy_config" && Switches(sheet.rows) != [] then Some(VDict(Switches(sheet.rows)))
        else if k == "dp_ip" && DpIps(sheet.rows) != [] then Some(StrList(DpIps(sheet.rows)))
        else Get(config, k)
  {
    var ips := StrList(DpIps(sheet.rows));
    var c1 := SetIf(config, "dp_ip", ips);
    if Truthy(ips) { GetPut(config, "dp_ip", ips, k); }
    var sw := VDict(Switches(sheet.rows));
    if Truthy(sw) { GetPut(c1, "security_policy_config", sw, k); }
  }

  // ---------------------------------------------------------------------------------------------
  // Transposed sheets: entity columns and the Name row
  // ---------------------------------------------------------------------------------------------

  /** A header that names an entity: non-empty, and mentioning neither "parameter" nor
      "required" in any case. */
  predicate EntityHeader(h: Value)
  {
    Truthy(h) && !Contains(Lower(Str(h)), "parameter") && !Contains(Lower(Str(h)), "required")
  }

  /** A column index with the key of its entity. */
  type Column = (nat, Value)

  /** The entity columns in header order, keyed by `keyOf` of their header. */
  function Columns(headers: seq<Value>, keyOf: Value -> Value): seq<Column>
  {
    if headers == [] then []
    else
      var n := |headers| - 1;
      Columns(headers[..n], keyOf) + if EntityHeader(headers[n]) then [(n, keyOf(headers[n]))] else []
  }

  /** The columns are exactly the entity headers' indices, in increasing order, each with the
      key of its own header. */
  lemma {:induction false} ColumnsExact(headers: seq<Value>, keyOf: Value -> Value)
    ensures var cols := Columns(headers, keyOf);
      (forall j :: 0 <= j < |cols| ==>
         cols[j].0 < |headers| && EntityHeader(headers[cols[j].0]) && cols[j].1 == keyOf(headers[cols[j].0])) &&
      (forall i :: 0 <= i < |headers| && EntityHeader(headers[i]) ==> exists j :: 0 <= j < |cols| && cols[j].0 == i) &&
      (forall j1, j2 :: 0 <= j1 < j2 < |cols| ==> cols[j1].0 < cols[j2].0)
    decreases |headers|
  {
    if headers != [] {
      var n := |headers| - 1;
      var init := Columns(headers[..n], keyOf);
      ColumnsExact(headers[..n], keyOf);
      forall i | 0 <= i < n ensures headers[..n][i] == headers[i] {
      }
      var cols := Columns(headers, keyOf);
      forall i | 0 <= i < |headers| && EntityHeader(headers[i]) ensures exists j :: 0 <= j < |cols| && cols[j].0 == i {
        if i == n {
          assert cols[|init|].0 == n;
        } else {
          var j :| 0 <= j < |init| && init[j].0 == i;
          assert cols[j] == init[j];
        }
      }
    }
  }

  /** An entity of a transposed sheet: its name and what the rows gave it. */
  datatype Entity<T> = Entity(name: Value, body: T)

  /** The entities by key, in first-column order. */
  type Entities<T> = seq<(Value, Entity<T>)>

  /** The initial entities: one per column key, named by its key, with an empty body. */
  function Init<T>(cols: seq<Column>, empty: T): Entities<T>
  {
    if cols == [] then []
    else
      var n := |cols| - 1;
      Put(Init(cols[..n], empty), cols[n].1, Entity(cols[n].1, empty))
  }

  /** Every column's key has an entity. */
  ghost predicate Keyed<T>(e: Entities<T>, cols: seq<Column>)
  {
    forall j :: 0 <= j < |cols| ==> Get(e, cols[j].1).Some?
  }

  /** The initial entities are exactly the column keys, each named by its key with an empty
      body. */
  lemma {:induction false} InitGet<T>(cols: seq<Column>, empty: T, k: Value)
    ensures Get(Init(cols, empty), k) ==
      if exists j :: 0 <= j < |cols| && cols[j].1 == k then Some(Entity(k, empty)) else None
    decreases |cols|
  {
    if cols != [] {
      var n := |cols| - 1;
      InitGet(cols[..n], empty, k);
      GetPut(Init(cols[..n], empty), cols[n].1, Entity(cols[n].1, empty), k);
      forall j | 0 <= j < n ensures cols[..n][j] == cols[j] {
      }
      if exists j :: 0 <= j < n && cols[j].1 == k {
        var j :| 0 <= j < n && cols[j].1 == k;
        assert cols[..n][j].1 == k;
      }
    }
  }

  lemma InitKeyed<T>(cols: seq<Column>, empty: T)
    ensures Keyed(Init(cols, empty), cols)
  {
    forall j | 0 <= j < |cols| ensures Get(Init(cols, empty), cols[j].1).Some? {
      InitGet(cols, empty, cols[j].1);
    }
  }

  /** `entities[k]['name'] = name`. */
  function Relabel<T>(e: Entities<T>, k: Value, name: Value): Entities<T>
  {
    match Get(e, k)
    case Some(x) => Put(e, k, Entity(name, x.body))
    case None => e
  }

  /** The `Name` row: every column whose cell is filled renames its entity to the cell's text. */
  function Rename<T>(e: Entities<T>, cols: seq<Column>, row: Row): Entities<T>
  {
    if cols == [] then e
    else
      var n := |cols| - 1;
      var e' := Rename(e, cols[..n], row);
      if Filled(row, cols[n].0) then Relabel(e', cols[n].1, VStr(Str(row[cols[n].0]))) else e'
  }

  /** Renaming keeps every entity and its body. */
  lemma {:induction false} RenameKeeps<T>(e: Entities<T>, cols: seq<Column>, row: Row, k: Value)
    ensures Get(Rename(e, cols, row), k).Some? == Get(e, k).Some?
    ensures Get(e, k).Some? ==> Get(Rename(e, cols, row), k).value.body == Get(e, k).value.body
    decreases |cols|
  {
    if cols != [] {
      var n := |cols| - 1;
      RenameKeeps(e, cols[..n], row, k);
      var e' := Rename(e, cols[..n], row);
      if Filled(row, cols[n].0) && Get(e', cols[n].1).Some? {
        GetPut(e', cols[n].1, Entity(VStr(Str(row[cols[n].0])), Get(e', cols[n].1).value.body), k);
      }
    }
  }

  /** An entity none of whose columns is filled in the `Name` row keeps its name. */
  lemma {:induction false} RenameUnnamed<T>(e: Entities<T>, cols: seq<Column>, row: Row, k: Value)
    requires forall j :: 0 <= j < |cols| && cols[j].1 == k ==> !Filled(row, cols[j].0)
    ensures Get(Rename(e, cols, row), k) == Get(e, k)
    decreases |cols|
  {
    if cols != [] {
      var n := |cols| - 1;
      RenameUnnamed(e, cols[..n], row, k);
      var e' := Rename(e, cols[..n], row);
      if Filled(row, cols[n].0) && Get(e', cols[n].1).Some? {
        GetPut(e', cols[n].1, Entity(VStr(Str(row[cols[n].0])), Get(e', cols[n].1).value.body), k);
      }
    }
  }

  /** An entity takes the text of the last of its columns filled in the `Name` row. */
  lemma {:induction false} RenameLast<T>(e: Entities<T>, cols: seq<Column>, row: Row, j: nat)
    requires j < |cols| && Filled(row, cols[j].0) && Get(e, cols[j].1).Some?
    requires forall j' :: j < j' < |cols| && cols[j'].1 == cols[j].1 ==> !Filled(row, cols[j'].0)
    ensures Get(Rename(e, cols, row), cols[j].1) == Some(Entity(VStr(Str(row[cols[j].0])), Get(e, cols[j].1).value.body))
    decreases |cols|
  {
    var n := |cols| - 1;
    var k := cols[j].1;
    var e' := Rename(e, cols[..n], row);
    RenameKeeps(e, cols[..n], row, k);
    if j == n {
      GetPut(e', k, Entity(VStr(Str(row[cols[n].0])), Get(e', k).value.body), k);
    } else {
      RenameLast(e, cols[..n], row, j);
      assert cols[n].1 != k || !Filled(row, cols[n].0);
      if Filled(row, cols[n].0) && Get(e', cols[n].1).Some? {
        GetPut(e', cols[n].1, Entity(VStr(Str(row[cols[n].0])), Get(e', cols[n].1).value.body), k);
      }
    }
  }

  /** `[entity for entity in entities.values() if entity[body]]`, rendered. */
  function Emitted<T>(e: Entities<T>, has: T -> bool, render: Entity<T> -> Value): seq<Value>
  {
    if e == [] then []
    else
      var n := |e| - 1;
      Emitted(e[..n], has, render) + if has(e[n].1.body) then [render(e[n].1)] else []
  }

  /** Exactly the entities with something in their body are emitted, in order. */
  lemma {:induction false} EmittedExactly<T>(e: Entities<T>, has: T -> bool, render: Entity<T> -> Value, x: Value)
    ensures x in Emitted(e, has, render) <==> exists i :: 0 <= i < |e| && has(e[i].1.body) && render(e[i].1) == x
    ensures |Emitted(e, has, render)| <= |e|
    decreases |e|
  {
    if e != [] {
      var n := |e| - 1;
      EmittedExactly(e[..n], has, render, x);
      forall i | 0 <= i < n ensures e[..n][i] == e[i] {
      }
    }
  }

  // ---------------------------------------------------------------------------------------------
  // Transposed profile sheets (BDOS, DNS, HTTPS, OOS)
  // ---------------------------------------------------------------------------------------------

  /** The numeric fields of each profile sheet type. */
  const BdosNumeric: seq<string> := [
    "inbound_traffic", "outbound_traffic", "tcp_in_quota", "udp_in_quota", "icmp_in_quota", "igmp_in_quota", "tcp_out_quota", "udp_out_quota",
    "icmp_out_quota", "igmp_out_quota", "maximum_interval_between_bursts",
    "learning_suppression_threshold", "user_defined_rate_limit"]
  const DnsNumeric: seq<string> := [
    "expected_qps", "max_allow_qps", "learning_suppression_threshold",
    "a_quota", "mx_quota", "ptr_quota", "aaaa_quota", "text_quota",
    "soa_quota", "naptr_quota", "srv_quota", "other_quota",
    "manual_trigger_act_thresh", "manual_trigger_term_thresh"]
  const HttpsNumeric: seq<string> := ["rate_limit"]
  const OosNumeric: seq<string> := ["act_threshold", "term_threshold", "idle_state_bandwidth_threshold", "idle_state_timer"]

  /** `should_be_numeric`'s fields, per sheet type. */
  const NumericFields: seq<(string, seq<string>)> :=
    [("bdos", BdosNumeric), ("dns", DnsNumeric), ("https", HttpsNumeric), ("oos", OosNumeric)]

  /** `should_be_numeric`: the key is listed for the sheet type; an unknown type lists nothing. */
  predicate ShouldBeNumeric(param: string, sheetType: string)
  {
    param in GetOr(NumericFields, sheetType, [])
  }

  /** Only the four profile sheet types have numeric fields. */
  lemma NumericSheets(param: string, sheetType: string)
    ensures ShouldBeNumeric(param, sheetType) ==> sheetType in {"bdos", "dns", "https", "oos"}
  {
    GetSome(NumericFields, sheetType);
  }

  /** The profile key of a header: `str(header)`. */
  function StrKey(h: Value): Value
  {
    VStr(Str(h))
  }

  /** A cell as a profile parameter: `None` and blank strings are skipped and strings are
      stripped; a numeric key takes `int(value)` when that succeeds and `str(value)` otherwise;
      any other key takes `str(value)`. */
  function CellValue(v: Value, numeric: bool): Option<Value>
  {
    if v.VNone? then None
    else
      var w := if v.VStr? then VStr(Strip(v.s)) else v;
      if w == VStr("") then None
      else if numeric && ToInt(w).IntOk? then Some(VInt(ToInt(w).n))
      else Some(VStr(Str(w)))
  }

  /** `str(v)` is empty only for the empty string. */
  lemma StrNonEmpty(v: Value)
    requires v != VStr("")
    ensures Str(v) != ""
  {
    match v
    case VInt(i) =>
      var n: nat := if i < 0 then -i else i;
      assert |NatToString(n)| > 0;
    case _ =>
  }

  /** A cell is skipped exactly when it is `None` or blank; a kept cell becomes an integer
      exactly when the key is numeric and `int()` accepts the stripped cell, and otherwise a
      non-empty string. */
  lemma CellValueIs(v: Value, numeric: bool)
    ensures CellValue(v, numeric).None? <==> v.VNone? || (v.VStr? && Strip(v.s) == "")
    ensures var w := if v.VStr? then VStr(Strip(v.s)) else v;
      CellValue(v, numeric).Some? ==>
        (CellValue(v, numeric).value.VInt? <==> numeric && ToInt(w).IntOk?) &&
        (CellValue(v, numeric).value.VInt? ==> ToInt(w) == IntOk(CellValue(v, numeric).value.i)) &&
        (!CellValue(v, numeric).value.VInt? ==> CellValue(v, numeric).value == VStr(Str(w)) && Str(w) != "")
  {
    var w := if v.VStr? then VStr(Strip(v.s)) else v;
    if !v.VNone? && w != VStr("") {
      StrNonEmpty(w);
    }
  }

  /** `entities[k]['params'][key] = v`. */
  function SetParam(e: Entities<Dict>, k: Value, key: string, v: Value): Entities<Dict>
  {
    match Get(e, k)
    case Some(x) => Put(e, k, Entity(x.name, Put(x.body, key, v)))
    case None => e
  }

  /** A parameter row's cells: every column with a storable cell sets `key` in its entity. */
  function SetParams(e: Entities<Dict>, cols: seq<Column>, row: Row, key: string, numeric: bool): Entities<Dict>
  {
    if cols == [] then e
    else
      var n := |cols| - 1;
      var e' := SetParams(e, cols[..n], row, key, numeric);
      var c := cols[n].0;
      if c < |row| && CellValue(row[c], numeric).Some? then SetParam(e', cols[n].1, key, CellValue(row[c], numeric).value) else e'
  }

  /** One row of a profile sheet: the `Name` row renames; a row whose first cell the mapping
      renames sets that key; any other row is ignored. */
  function ProfileRow(e: Entities<Dict>, cols: seq<Column>, row: Row, mapping: seq<(string, string)>, sheetType: string): Entities<Dict>
  {
    if row == [] || !Truthy(row[0]) then e
    else
      var param := Str(row[0]);
      if param == "Name" then Rename(e, cols, row)
      else
        var key := GetOr(mapping, param, "");
        if key == "" then e else SetParams(e, cols, row, key, ShouldBeNumeric(key, sheetType))
  }

  function ProfileRows(e: Entities<Dict>, cols: seq<Column>, rows: seq<Row>, mapping: seq<(string, string)>, sheetType: string): Entities<Dict>
  {
    if rows == [] then e
    else
      var n := |rows| - 1;
      ProfileRow(ProfileRows(e, cols, rows[..n], mapping, sheetType), cols, rows[n], mapping, sheetType)
  }

  predicate HasParams(d: Dict)
  {
    d != []
  }

  /** `{'name': ..., 'params': {...}}`. */
  function ProfileValue(x: Entity<Dict>): Value
  {
    VDict([("name", x.name), ("params", VDict(x.body))])
  }

  /** `parse_transposed_profile_sheet`: the profiles of the sheet's entity columns that got some
      parameter, under `configKey`, when there are any. */
  function ProfileSheet(config: Dict, sheet: Sheet, sheetName: string, configKey: string, mapping: seq<(string, string)>): Dict
  {
    if |sheet.headers| < 2 then config
    else
      var cols := Columns(sheet.headers, StrKey);
      if cols == [] then config
      else
        var e := ProfileRows(Init(cols, []), cols, sheet.rows, mapping, Lower(sheetName));
        SetIf(config, configKey, VList(Emitted(e, HasParams, ProfileValue)))
  }

  /** A stored parameter: a key the mapping produces, holding an integer only when the key is
      numeric for the sheet, and otherwise a non-empty string. */
  ghost predicate StoredParam(p: (string, Value), mapping: seq<(string, string)>, sheetType: string)
  {
    (exists q :: (q, p.0) in mapping) &&
    (p.1.VInt? || p.1.VStr?) && (p.1.VInt? ==> ShouldBeNumeric(p.0, sheetType)) && (p.1.VStr? ==> p.1.s != "")
  }

  ghost predicate Clean(e: Entities<Dict>, mapping: seq<(string, string)>, sheetType: string)
  {
    forall k :: Get(e, k).Some? ==> forall p :: p in Get(e, k).value.body ==> StoredParam(p, mapping, sheetType)
  }

  lemma SetParamClean(e: Entities<Dict>, k: Value, key: string, v: Value, mapping: seq<(string, string)>, sheetType: string)
    requires Clean(e, mapping, sheetType) && StoredParam((key, v), mapping, sheetType)
    ensures Clean(SetParam(e, k, key, v), mapping, sheetType)
    ensures forall k' :: Get(SetParam(e, k, key, v), k').Some? == Get(e, k').Some?
  {
    if Get(e, k).Some? {
      var x := Get(e, k).value;
      forall k' ensures Get(SetParam(e, k, key, v), k') == if k' == k then Some(Entity(x.name, Put(x.body, key, v))) else Get(e, k') {
        GetPut(e, k, Entity(x.name, Put(x.body, key, v)), k');
      }
      forall p | p in Put(x.body, key, v) ensures StoredParam(p, mapping, sheetType) {
        PutMembers(x.body, key, v, p);
      }
    }
  }

  lemma {:induction false} SetParamsClean(e: Entities<Dict>, cols: seq<Column>, row: Row, key: string, mapping: seq<(string, string)>, sheetType: string)
    requires Clean(e, mapping, sheetType) && exists q :: (q, key) in mapping
    ensures Clean(SetParams(e, cols, row, key, ShouldBeNumeric(key, sheetType)), mapping, sheetType)
    ensures forall k :: Get(SetParams(e, cols, row, key, ShouldBeNumeric(key, sheetType)), k).Some? == Get(e, k).Some?
    decreases |cols|
  {
    if cols != [] {
      var n := |cols| - 1;
      var numeric := ShouldBeNumeric(key, sheetType);
      SetParamsClean(e, cols[..n], row, key, mapping, sheetType);
      var e' := SetParams(e, cols[..n], row, key, numeric);
      var c := cols[n].0;
      if c < |row| && CellValue(row[c], numeric).Some? {
        CellValueIs(row[c], numeric);
        SetParamClean(e', cols[n].1, key, CellValue(row[c], numeric).value, mapping, sheetType);
      }
    }
  }

  lemma ProfileRowClean(e: Entities<Dict>, cols: seq<Column>, row: Row, mapping: seq<(string, string)>, sheetType: string)
    requires Clean(e, mapping, sheetType)
    ensures Clean(ProfileRow(e, cols, row, mapping, sheetType), mapping, sheetType)
    ensures forall k :: Get(ProfileRow(e, cols, row, mapping, sheetType), k).Some? == Get(e, k).Some?
  {
    if row != [] && Truthy(row[0]) {
      var param := Str(row[0]);
      if param == "Name" {
        forall k ensures Get(Rename(e, cols, row), k).Some? == Get(e, k).Some? &&
                         (Get(e, k).Some? ==> Get(Rename(e, cols, row), k).value.body == Get(e, k).value.body) {
          RenameKeeps(e, cols, row, k);
        }
      } else {
        var key := GetOr(mapping, param, "");
        if key != "" {
          GetSome(mapping, param);
          assert (param, key) in mapping;
          SetParamsClean(e, cols, row, key, mapping, sheetType);
        }
      }
    }
  }

  /** Parameter rows keep the entities of the columns and store only mapped keys, holding an
      integer only for a key numeric for the sheet and otherwise a non-empty string. */
  lemma {:induction false} ProfileRowsClean(e: Entities<Dict>, cols: seq<Column>, rows: seq<Row>, mapping: seq<(string, string)>, sheetType: string)
    requires Clean(e, mapping, sheetType)
    ensures Clean(ProfileRows(e, cols, rows, mapping, sheetType), mapping, sheetType)
    ensures forall k :: Get(ProfileRows(e, cols, rows, mapping, sheetType), k).Some? == Get(e, k).Some?
    decreases |rows|
  {
    if rows != [] {
      var n := |rows| - 1;
      ProfileRowsClean(e, cols, rows[..n], mapping, sheetType);
      ProfileRowClean(ProfileRows(e, cols, rows[..n], mapping, sheetType), cols, rows[n], mapping, sheetType);
    }
  }

  /** The profiles of a sheet are exactly its entity columns' profiles that got a parameter;
      each such parameter is a mapped key with an integer only where the key is numeric for the
      sheet type, and a non-empty string otherwise. */
  lemma ProfileSheetIs(sheet: Sheet, mapping: seq<(string, string)>, sheetType: string, x: Value)
    requires |sheet.headers| >= 2
    ensures var cols := Columns(sheet.headers, StrKey);
      var e := ProfileRows(Init(cols, []), cols, sheet.rows, mapping, sheetType);
      Clean(e, mapping, sheetType) &&
      (forall k :: Get(e, k).Some? <==> exists j :: 0 <= j < |cols| && cols[j].1 == k) &&
      (x in Emitted(e, HasParams, ProfileValue) <==> exists i :: 0 <= i < |e| && e[i].1.body != [] && ProfileValue(e[i].1) == x)
  {
    var cols := Columns(sheet.headers, StrKey);
    var none: Dict := [];
    var e0 := Init(cols, none);
    forall k ensures Get(e0, k) == if exists j :: 0 <= j < |cols| && cols[j].1 == k then Some(Entity(k, none)) else None {
      InitGet(cols, none, k);
    }
    ProfileRowsClean(e0, cols, sheet.rows, mapping, sheetType);
    EmittedExactly(ProfileRows(e0, cols, sheet.rows, mapping, sheetType), HasParams, ProfileValue, x);
  }

  // ---------------------------------------------------------------------------------------------
  // The Network_Classes sheet
  // ---------------------------------------------------------------------------------------------

  /** An address and its mask. */
  type Group = (string, string)

  /** `param.split('_')[1] if '_' in param else '1'` (`split` gives two pieces or more exactly
      when `'_'` occurs). */
  function GroupNumber(param: string): string
  {
    var parts := Split(param, '_');
    if |parts| >= 2 then parts[1] else "1"
  }

  /** The classes so far, and the last `Address_n` and `Mask_n` row of each number `n`. */
  datatype NetState = NetState(classes: Entities<seq<Group>>, addresses: seq<(string, Row)>, masks: seq<(string, Row)>)

  /** One row of the sheet: the `Name` row renames, `Address_n` and `Mask_n` rows are kept by
      number, any other row is ignored. */
  function NetRow(s: NetState, cols: seq<Column>, row: Row): NetState
  {
    if row == [] || !Truthy(row[0]) then s
    else
      var param := Str(row[0]);
      if param == "Name" then s.(classes := Rename(s.classes, cols, row))
      else if IsPrefix("Address_", param) then s.(addresses := Put(s.addresses, GroupNumber(param), row))
      else if IsPrefix("Mask_", param) then s.(masks := Put(s.masks, GroupNumber(param), row))
      else s
  }

  function NetRows(s: NetState, cols: seq<Column>, rows: seq<Row>): NetState
  {
    if rows == [] then s
    else
      var n := |rows| - 1;
      NetRow(NetRows(s, cols, rows[..n]), cols, rows[n])
  }

  /** The group a column of an address row and a mask row gives: both cells filled and both
      non-empty once stripped. */
  function PairCells(addressRow: Row, maskRow: Row, c: nat): Option<Group>
  {
    if Filled(addressRow, c) && Filled(maskRow, c) then
      var address := Strip(Str(addressRow[c]));
      var mask := Strip(Str(maskRow[c]));
      if address != "" && mask != "" then Some((address, mask)) else None
    else None
  }

  /** `classes[k]['groups'].append(g)`. */
  function AddGroup(e: Entities<seq<Group>>, k: Value, g: Group): Entities<seq<Group>>
  {
    match Get(e, k)
    case Some(x) => Put(e, k, Entity(x.name, x.body + [g]))
    case None => e
  }

  /** One address row and its mask row, column by column. */
  function AddGroups(e: Entities<seq<Group>>, cols: seq<Column>, addressRow: Row, maskRow: Row): Entities<seq<Group>>
  {
    if cols == [] then e
    else
      var n := |cols| - 1;
      var e' := AddGroups(e, cols[..n], addressRow, maskRow);
      match PairCells(addressRow, maskRow, cols[n].0)
      case Some(g) => AddGroup(e', cols[n].1, g)
      case None => e'
  }

  /** Every address number, in first-seen order, with the mask row of the same number. */
  function Pair(e: Entities<seq<Group>>, cols: seq<Column>, addresses: seq<(string, Row)>, masks: seq<(string, Row)>): Entities<seq<Group>>
  {
    if addresses == [] then e
    else
      var n := |addresses| - 1;
      var e' := Pair(e, cols, addresses[..n], masks);
      match Get(masks, addresses[n].0)
      case Some(maskRow) => AddGroups(e', cols, addresses[n].1, maskRow)
      case None => e'
  }

  predicate HasGroups(groups: seq<Group>)
  {
    groups != []
  }

  function GroupValue(g: Group): Value
  {
    VDict([("address", VStr(g.0)), ("mask", VStr(g.1))])
  }

  /** `{'name': ..., 'groups': [...]}`. */
  function ClassValue(x: Entity<seq<Group>>): Value
  {
    VDict([("name", x.name), ("groups", VList(seq(|x.body|, i requires 0 <= i < |x.body| => GroupValue(x.body[i]))))])
  }

  /** The key of a class column: the header itself. */
  function HeaderKey(h: Value): Value
  {
    h
  }

  /** `parse_network_classes_sheet`: the classes that got a group, under `netclasses`, when
      there are any. */
  function NetworkSheet(config: Dict, sheet: Sheet): Dict
  {
    if |sheet.headers| < 2 then config
    else
      var cols := Columns(sheet.headers, HeaderKey);
      if cols == [] then config
      else
        var none: seq<Group> := [];
        var s := NetRows(NetState(Init(cols, none), [], []), cols, sheet.rows);
        SetIf(config, "netclasses", VList(Emitted(Pair(s.classes, cols, s.addresses, s.masks), HasGroups, ClassValue)))
  }

  lemma AddGroupGet(e: Entities<seq<Group>>, k: Value, g: Group, k': Value)
    ensures Get(AddGroup(e, k, g), k') ==
      if k' == k && Get(e, k).Some? then Some(Entity(Get(e, k).value.name, Get(e, k).value.body + [g])) else Get(e, k')
  {
    if Get(e, k).Some? {
      GetPut(e, k, Entity(Get(e, k).value.name, Get(e, k).value.body + [g]), k');
    }
  }

  /** The rows of the sheet rename classes but give none a group. */
  lemma {:induction false} NetRowsKeep(s: NetState, cols: seq<Column>, rows: seq<Row>, k: Value)
    ensures Get(NetRows(s, cols, rows).classes, k).Some? == Get(s.classes, k).Some?
    ensures Get(s.classes, k).Some? ==> Get(NetRows(s, cols, rows).classes, k).value.body == Get(s.classes, k).value.body
    decreases |rows|
  {
    if rows != [] {
      var n := |rows| - 1;
      NetRowsKeep(s, cols, rows[..n], k);
      RenameKeeps(NetRows(s, cols, rows[..n]).classes, cols, rows[n], k);
    }
  }

  /** An address row and its mask row add to a class exactly the groups of its columns, after
      the ones it had, and keep its name. */
  lemma {:induction false} AddGroupsHas(e: Entities<seq<Group>>, cols: seq<Column>, addressRow: Row, maskRow: Row, k: Value, g: Group)
    ensures Get(AddGroups(e, cols, addressRow, maskRow), k).Some? == Get(e, k).Some?
    ensures Get(e, k).Some? ==>
      var x := Get(AddGroups(e, cols, addressRow, maskRow), k).value;
      x.name == Get(e, k).value.name &&
      (g in x.body <==> g in Get(e, k).value.body ||
                        exists j :: 0 <= j < |cols| && cols[j].1 == k && PairCells(addressRow, maskRow, cols[j].0) == Some(g))
    decreases |cols|
  {
    if cols != [] {
      var n := |cols| - 1;
      AddGroupsHas(e, cols[..n], addressRow, maskRow, k, g);
      var e' := AddGroups(e, cols[..n], addressRow, maskRow);
      forall j | 0 <= j < n ensures cols[..n][j] == cols[j] {
      }
      match PairCells(addressRow, maskRow, cols[n].0)
      case Some(g') => AddGroupGet(e', cols[n].1, g', k);
      case None =>
    }
  }

  /** A group of a class from one address number: the number has a mask row, and a column of
      the class has address and mask cells both filled and non-empty once stripped. */
  ghost predicate PairedIn(cols: seq<Column>, address: (string, Row), masks: seq<(string, Row)>, k: Value, g: Group)
  {
    Get(masks, address.0).Some? &&
    exists j :: 0 <= j < |cols| && cols[j].1 == k && PairCells(address.1, Get(masks, address.0).value, cols[j].0) == Some(g)
  }

  /** A group of a class from some address number. */
  ghost predicate PairedAt(cols: seq<Column>, addresses: seq<(string, Row)>, masks: seq<(string, Row)>, k: Value, g: Group)
  {
    exists i :: 0 <= i < |addresses| && PairedIn(cols, addresses[i], masks, k, g)
  }

  /** The groups paired at a class's columns are those of all address numbers but the last,
      and those of the last. */
  lemma PairedAtLast(cols: seq<Column>, addresses: seq<(string, Row)>, masks: seq<(string, Row)>, k: Value, g: Group)
    requires addresses != []
    ensures PairedAt(cols, addresses, masks, k, g) <==>
      PairedAt(cols, addresses[..|addresses| - 1], masks, k, g) || PairedIn(cols, addresses[|addresses| - 1], masks, k, g)
  {
    var n := |addresses| - 1;
    var init := addresses[..n];
    if PairedAt(cols, addresses, masks, k, g) {
      var i :| 0 <= i < |addresses| && PairedIn(cols, addresses[i], masks, k, g);
      if i < n {
        assert init[i] == addresses[i];
      }
    }
    if PairedAt(cols, init, masks, k, g) {
      var i :| 0 <= i < |init| && PairedIn(cols, init[i], masks, k, g);
      assert init[i] == addresses[i];
    }
  }

  /** Pairing adds to a class exactly the groups paired at its columns and keeps its name. */
  lemma {:induction false} PairHas(e: Entities<seq<Group>>, cols: seq<Column>, addresses: seq<(string, Row)>, masks: seq<(string, Row)>, k: Value, g: Group)
    ensures Get(Pair(e, cols, addresses, masks), k).Some? == Get(e, k).Some?
    ensures Get(e, k).Some? ==>
      var x := Get(Pair(e, cols, addresses, masks), k).value;
      x.name == Get(e, k).value.name &&
      (g in x.body <==> g in Get(e, k).value.body || PairedAt(cols, addresses, masks, k, g))
    decreases |addresses|
  {
    if addresses != [] {
      var n := |addresses| - 1;
      PairHas(e, cols, addresses[..n], masks, k, g);
      PairedAtLast(cols, addresses, masks, k, g);
      match Get(masks, addresses[n].0)
      case Some(maskRow) =>
        AddGroupsHas(Pair(e, cols, addresses[..n], masks), cols, addresses[n].1, maskRow, k, g);
      case None =>
    }
  }

  /** Every class of a column holds exactly the groups paired at its columns, from the last
      `Address_n` and `Mask_n` rows of each number; only classes holding a group are emitted. */
  lemma NetworkClasses(sheet: Sheet, k: Value, g: Group, x: Value)
    requires |sheet.headers| >= 2
    ensures var cols := Columns(sheet.headers, HeaderKey);
      var none: seq<Group> := [];
      var s := NetRows(NetState(Init(cols, none), [], []), cols, sheet.rows);
      var e := Pair(s.classes, cols, s.addresses, s.masks);
      (Get(e, k).Some? <==> exists j :: 0 <= j < |cols| && cols[j].1 == k) &&
      (Get(e, k).Some? ==> (g in Get(e, k).value.body <==> PairedAt(cols, s.addresses, s.masks, k, g))) &&
      (x in Emitted(e, HasGroups, ClassValue) <==> exists i :: 0 <= i < |e| && e[i].1.body != [] && ClassValue(e[i].1) == x)
  {
    var cols := Columns(sheet.headers, HeaderKey);
    var none: seq<Group> := [];
    var s0 := NetState(Init(cols, none), [], []);
    var s := NetRows(s0, cols, sheet.rows);
    InitGet(cols, none, k);
    NetRowsKeep(s0, cols, sheet.rows, k);
    PairHas(s.classes, cols, s.addresses, s.masks, k, g);
    EmittedExactly(Pair(s.classes, cols, s.addresses, s.masks), HasGroups, ClassValue, x);
  }

  // ---------------------------------------------------------------------------------------------
  // The Connection_Limit sheet
  // ---------------------------------------------------------------------------------------------

  /** `str(int(v))` when `int()` accepts the cell, `str(v)` otherwise. */
  function Threshold(v: Value): string
  {
    match ToInt(v)
    case IntOk(n) => IntToString(n)
    case _ => Str(v)
  }

  /** `protection[field] = str(row[i])` when the cell is filled. */
  function CellField(row: Row, i: nat, field: string): Dict
  {
    if Filled(row, i) then [(field, VStr(Str(row[i])))] else []
  }

  /** The threshold column, normalised. */
  function ThresholdField(row: Row): Dict
  {
    if Filled(row, 4) then [("threshold", VStr(Threshold(row[4])))] else []
  }

  /** The protection a `protection` row describes: its name, then each filled column. */
  function Protection(row: Row, name: string): Dict
  {
    [("name", VStr(name))] + CellField(row, 2, "protection_type") + CellField(row, 3, "protocol") + ThresholdField(row) +
    CellField(row, 5, "app_port_group") + CellField(row, 6, "tracking_type") + CellField(row, 7, "action") +
    CellField(row, 8, "packet_report")
  }

  /** `[p.strip() for p in parts if p.strip()]`. */
  function Trimmed(parts: seq<string>): seq<string>
  {
    if parts == [] then []
    else (if Strip(parts[0]) != "" then [Strip(parts[0])] else []) + Trimmed(parts[1..])
  }

  /** The protections column of a `profile` row: split on commas, stripped, empties dropped. */
  function Pieces(s: string): seq<string>
  {
    Trimmed(Split(s, ','))
  }

  /** The protections and profiles collected so far. */
  datatype ClLists = ClLists(protections: seq<Value>, profiles: seq<Value>)

  /** One row of the sheet: a named `protection` row with some field adds a protection; a named
      `profile` row whose protections column lists something adds a profile. */
  function ClRow(acc: ClLists, row: Row): ClLists
  {
    if |row| < 2 then acc
    else
      var rowType := Lower(Text(row[0]));
      var name := Text(row[1]);
      if name == "" then acc
      else if rowType == "protection" then
        var p := Protection(row, name);
        if |p| > 1 then acc.(protections := acc.protections + [VDict(p)]) else acc
      else if rowType == "profile" && Filled(row, 9) then
        var list := Pieces(Str(row[9]));
        if list != [] then acc.(profiles := acc.profiles + [VDict([("name", VStr(name)), ("protections", StrList(list))])]) else acc
      else acc
  }

  function ClRows(rows: seq<Row>): ClLists
  {
    if rows == [] then ClLists([], [])
    else ClRow(ClRows(rows[..|rows| - 1]), rows[|rows| - 1])
  }

  /** `parse_connection_limit_sheet`: `cl_protections` and `cl_profiles`, each only when
      non-empty. */
  function ClSheet(config: Dict, sheet: Sheet): Dict
  {
    var lists := ClRows(sheet.rows);
    SetIf(SetIf(config, "cl_protections", VList(lists.protections)), "cl_profiles", VList(lists.profiles))
  }

  /** The fields before the threshold. */
  function ProtectionHead(row: Row, name: string): Dict
  {
    [("name", VStr(name))] + CellField(row, 2, "protection_type") + CellField(row, 3, "protocol")
  }

  /** The fields after the threshold. */
  function ProtectionTail(row: Row): Dict
  {
    CellField(row, 5, "app_port_group") + CellField(row, 6, "tracking_type") + CellField(row, 7, "action") +
    CellField(row, 8, "packet_report")
  }

  lemma ProtectionParts(row: Row, name: string)
    ensures Protection(row, name) == ProtectionHead(row, name) + (ThresholdField(row) + ProtectionTail(row))
  {
  }

  /** A protection is kept exactly when one of its columns 2 to 8 is filled. */
  lemma ProtectionKept(row: Row, name: string)
    ensures |Protection(row, name)| > 1 <==> exists i :: 2 <= i <= 8 && Filled(row, i)
  {
    ProtectionParts(row, name);
    if exists i :: 2 <= i <= 8 && Filled(row, i) {
      var i :| 2 <= i <= 8 && Filled(row, i);
      assert i in {2, 3, 4, 5, 6, 7, 8};
    }
  }

  lemma HeadNoThreshold(row: Row, name: string)
    ensures Get(ProtectionHead(row, name), "threshold").None?
    ensures Get(ProtectionHead(row, name), "name") == Some(VStr(name))
  {
    var h := [("name", VStr(name))] + CellField(row, 2, "protection_type");
    GetAppend(h, CellField(row, 3, "protocol"), "threshold");
    GetAppend([("name", VStr(name))], CellField(row, 2, "protection_type"), "threshold");
    GetAppend(h, CellField(row, 3, "protocol"), "name");
    GetAppend([("name", VStr(name))], CellField(row, 2, "protection_type"), "name");
  }

  lemma TailNoThreshold(row: Row)
    ensures Get(ProtectionTail(row), "threshold").None?
  {
    var b1 := CellField(row, 5, "app_port_group") + CellField(row, 6, "tracking_type");
    GetAppend(b1 + CellField(row, 7, "action"), CellField(row, 8, "packet_report"), "threshold");
    GetAppend(b1, CellField(row, 7, "action"), "threshold");
    GetAppend(CellField(row, 5, "app_port_group"), CellField(row, 6, "tracking_type"), "threshold");
  }

  /** A protection is named by its row, and its threshold is the normalised cell. */
  lemma ProtectionFields(row: Row, name: string)
    ensures Get(Protection(row, name), "threshold") == if Filled(row, 4) then Some(VStr(Threshold(row[4]))) else None
    ensures Get(Protection(row, name), "name") == Some(VStr(name))
  {
    ProtectionParts(row, name);
    HeadNoThreshold(row, name);
    TailNoThreshold(row);
    GetAppend(ProtectionHead(row, name), ThresholdField(row) + ProtectionTail(row), "threshold");
    GetAppend(ThresholdField(row), ProtectionTail(row), "threshold");
    GetAppend(ProtectionHead(row, name), ThresholdField(row) + ProtectionTail(row), "name");
  }

  /** A threshold that `int()` accepts is stored in canonical decimal form: it reads back as the
      same integer and normalising it again changes nothing. */
  lemma ThresholdNormal(v: Value)
    requires ToInt(v).IntOk?
    ensures ParseInt(Threshold(v)) == Some(ToInt(v).n)
    ensures Threshold(VStr(Threshold(v))) == Threshold(v)
  {
    IntToStringRoundTrip(ToInt(v).n);
  }

  lemma {:induction false} SplitNoSeparator(s: string, c: char)
    ensures forall p :: p in Split(s, c) ==> c !in p
    decreases |s|
  {
    if s != [] {
      SplitNoSeparator(s[1..], c);
    }
  }

  lemma StripSlice(s: string)
    ensures forall ch :: ch in Strip(s) ==> ch in s
  {
    StripLeftShape(s);
    StripRightShape(StripLeft(s));
  }

  /** Every listed protection is non-empty, already stripped and free of commas. */
  lemma {:induction false} TrimmedClean(parts: seq<string>)
    ensures forall p :: p in Trimmed(parts) ==> p != "" && Strip(p) == p && exists q :: q in parts && p == Strip(q)
    decreases |parts|
  {
    if parts != [] {
      TrimmedClean(parts[1..]);
      StripTwice(parts[0]);
    }
  }

  lemma PiecesClean(s: string)
    ensures forall p :: p in Pieces(s) ==> p != "" && Strip(p) == p && ',' !in p
  {
    TrimmedClean(Split(s, ','));
    SplitNoSeparator(s, ',');
    forall q | q in Split(s, ',') ensures ',' !in Strip(q) {
      StripSlice(q);
    }
  }

  /** Splitting a comma-free prefix followed by the rest. */
  lemma {:induction false} SplitPrefix(p: string, rest: string)
    requires ',' !in p
    ensures Split(p + "," + rest, ',') == [p] + Split(rest, ',')
    decreases |p|
  {
    if p == [] {
      assert p + "," + rest == [','] + rest;
      assert ([','] + rest)[1..] == rest;
    } else {
      SplitPrefix(p[1..], rest);
      assert (p + "," + rest)[1..] == p[1..] + "," + rest;
      assert [p[0]] + p[1..] == p;
    }
  }

  lemma {:induction false} SplitJoin(ps: seq<string>)
    requires ps != [] && forall p :: p in ps ==> ',' !in p
    ensures Split(Join(",", ps), ',') == ps
    decreases |ps|
  {
    if |ps| == 1 {
      SplitNone(ps[0]);
    } else {
      SplitJoin(ps[1..]);
      SplitPrefix(ps[0], Join(",", ps[1..]));
    }
  }

  lemma {:induction false} SplitNone(p: string)
    requires ',' !in p
    ensures Split(p, ',') == [p]
    decreases |p|
  {
    if p != [] {
      SplitNone(p[1..]);
      assert [p[0]] + p[1..] == p;
    }
  }

  lemma {:induction false} TrimmedKeeps(ps: seq<string>)
    requires forall p :: p in ps ==> p != "" && Strip(p) == p
    ensures Trimmed(ps) == ps
    decreases |ps|
  {
    if ps != [] {
      assert forall p :: p in ps[1..] ==> p in ps;
      TrimmedKeeps(ps[1..]);
    }
  }

  /** A protections cell written as the protections joined by commas lists them back, for
      non-empty, stripped, comma-free names. */
  lemma PiecesJoin(ps: seq<string>)
    requires forall p :: p in ps ==> p != "" && Strip(p) == p && ',' !in p
    ensures Pieces(Join(",", ps)) == ps
  {
    if ps == [] {
      assert Split("", ',') == [""];
      assert Strip("") == "";
    } else {
      SplitJoin(ps);
      TrimmedKeeps(ps);
    }
  }

  // ---------------------------------------------------------------------------------------------
  // The Security_Policies sheet
  // ---------------------------------------------------------------------------------------------

  /** The policy columns: index and field. */
  const PolicyColumns: seq<(nat, string)> := [
    (1, "state"), (2, "action"), (3, "priority"), (4, "src_network"),
    (5, "dst_network"), (6, "direction"), (7, "packet_reporting_status"),
    (8, "connection_limit_profile"), (9, "bdos_profile"),
    (10, "dns_flood_profile"), (11, "https_flood_profile"),
    (12, "signature_protection_profile"), (13, "ert_attackers_feed_profile"),
    (14, "geo_feed_profile"), (15, "out_of_state_profile")
  ]

  /** `str(int(v))` when `int()` accepts the text, the text otherwise. */
  function Priority(v: string): string
  {
    match ParseInt(v)
    case Some(n) => IntToString(n)
    case None => v
  }

  /** The value a policy column stores: the stripped text of a filled cell, when non-empty;
      the priority normalised. */
  function PolicyCell(row: Row, i: nat, field: string): Option<string>
  {
    if Filled(row, i) then
      var v := Strip(Str(row[i]));
      if v == "" then None else Some(if field == "priority" then Priority(v) else v)
    else None
  }

  /** The field loop over the policy columns. */
  function PolicyFields(policy: Dict, row: Row, cols: seq<(nat, string)>): Dict
  {
    if cols == [] then policy
    else
      var n := |cols| - 1;
      var p := PolicyFields(policy, row, cols[..n]);
      match PolicyCell(row, cols[n].0, cols[n].1)
      case Some(v) => Put(p, cols[n].1, VStr(v))
      case None => p
  }

  function Policy(row: Row): Dict
    requires row != []
  {
    PolicyFields([("policy_name", VStr(Str(row[0])))], row, PolicyColumns)
  }

  /** The policies of the rows: a row with a filled first cell and some field. */
  function Policies(rows: seq<Row>): seq<Value>
  {
    if rows == [] then []
    else
      var row := rows[|rows| - 1];
      Policies(rows[..|rows| - 1]) +
        if row != [] && Truthy(row[0]) && |Policy(row)| > 1 then [VDict(Policy(row))] else []
  }

  /** `parse_security_policies_sheet`. */
  function PoliciesSheet(config: Dict, sheet: Sheet): Dict
  {
    SetIf(config, "security_policies", VList(Policies(sheet.rows)))
  }

  /** A priority keeps its integer value, and normalising twice is normalising once. */
  lemma PriorityNormal(v: string)
    ensures ParseInt(Priority(v)) == ParseInt(v)
    ensures Priority(Priority(v)) == Priority(v)
  {
    if ParseInt(v).Some? {
      IntToStringRoundTrip(ParseInt(v).value);
    }
  }

  /** The field loop adds a field exactly when some column stores a value, provided no column's
      field is already in the policy. */
  lemma {:induction false} PolicyFieldsGrow(policy: Dict, row: Row, cols: seq<(nat, string)>)
    requires forall j :: 0 <= j < |cols| ==> cols[j].1 !in Keys(policy)
    ensures |PolicyFields(policy, row, cols)| > |policy| <==> exists j :: 0 <= j < |cols| && PolicyCell(row, cols[j].0, cols[j].1).Some?
    ensures |PolicyFields(policy, row, cols)| >= |policy|
    ensures (forall j :: 0 <= j < |cols| ==> PolicyCell(row, cols[j].0, cols[j].1).None?) ==> PolicyFields(policy, row, cols) == policy
    decreases |cols|
  {
    if cols != [] {
      var n := |cols| - 1;
      PolicyFieldsGrow(policy, row, cols[..n]);
      forall j | 0 <= j < n ensures cols[..n][j] == cols[j] {
      }
      var p := PolicyFields(policy, row, cols[..n]);
      match PolicyCell(row, cols[n].0, cols[n].1)
      case Some(v) =>
        KeysPut(p, cols[n].1, VStr(v));
        KeysLength(p);
        KeysLength(Put(p, cols[n].1, VStr(v)));
      case None =>
    }
  }

  /** A field none of whose columns stores a value keeps what the policy held. */
  lemma {:induction false} PolicyFieldsUnset(policy: Dict, row: Row, cols: seq<(nat, string)>, f: string)
    requires forall j :: 0 <= j < |cols| && cols[j].1 == f ==> PolicyCell(row, cols[j].0, f).None?
    ensures Get(PolicyFields(policy, row, cols), f) == Get(policy, f)
    decreases |cols|
  {
    if cols != [] {
      var n := |cols| - 1;
      assert forall j :: 0 <= j < n ==> cols[..n][j] == cols[j];
      PolicyFieldsUnset(policy, row, cols[..n], f);
      var p := PolicyFields(policy, row, cols[..n]);
      match PolicyCell(row, cols[n].0, cols[n].1)
      case Some(v) => GetPut(p, cols[n].1, VStr(v), f);
      case None =>
    }
  }

  /** A field holds the value of the last of its columns that stores one. */
  lemma {:induction false} PolicyFieldsLast(policy: Dict, row: Row, cols: seq<(nat, string)>, j: nat)
    requires j < |cols| && PolicyCell(row, cols[j].0, cols[j].1).Some?
    requires forall j' :: j < j' < |cols| && cols[j'].1 == cols[j].1 ==> PolicyCell(row, cols[j'].0, cols[j'].1).None?
    ensures Get(PolicyFields(policy, row, cols), cols[j].1) == Some(VStr(PolicyCell(row, cols[j].0, cols[j].1).value))
    decreases |cols|
  {
    var n := |cols| - 1;
    var f := cols[j].1;
    var p := PolicyFields(policy, row, cols[..n]);
    if j < n {
      PolicyFieldsLast(policy, row, cols[..n], j);
    }
    match PolicyCell(row, cols[n].0, cols[n].1)
    case Some(v) => GetPut(p, cols[n].1, VStr(v), f);
    case None =>
  }

  /** Only the third policy column is `priority`, and none is `policy_name`. */
  lemma PolicyColumnFields(j: nat)
    requires j < |PolicyColumns|
    ensures PolicyColumns[j].1 != "policy_name"
    ensures PolicyColumns[j].1 == "priority" <==> j == 2
  {
  }

  /** A policy is kept exactly when some column stores a value. */
  lemma PolicyKept(row: Row)
    requires row != []
    ensures |Policy(row)| > 1 <==> exists j :: 0 <= j < |PolicyColumns| && PolicyCell(row, PolicyColumns[j].0, PolicyColumns[j].1).Some?
  {
    var base := [("policy_name", VStr(Str(row[0])))];
    forall j | 0 <= j < |PolicyColumns| ensures PolicyColumns[j].1 !in Keys(base) {
      PolicyColumnFields(j);
    }
    PolicyFieldsGrow(base, row, PolicyColumns);
  }

  /** A policy is named by its first cell's text, and its priority, when given, is the
      normalised stripped cell. */
  lemma PolicyNamePriority(row: Row)
    requires row != []
    ensures Get(Policy(row), "policy_name") == Some(VStr(Str(row[0])))
    ensures Get(Policy(row), "priority") ==
      if PolicyCell(row, 3, "priority").Some? then Some(VStr(Priority(Strip(Str(row[3]))))) else None
  {
    var base := [("policy_name", VStr(Str(row[0])))];
    forall j | 0 <= j < |PolicyColumns| && PolicyColumns[j].1 == "policy_name" ensures false {
      PolicyColumnFields(j);
    }
    PolicyFieldsUnset(base, row, PolicyColumns, "policy_name");
    forall j | 0 <= j < |PolicyColumns| && PolicyColumns[j].1 == "priority" ensures j == 2 {
      PolicyColumnFields(j);
    }
    if PolicyCell(row, 3, "priority").Some? {
      PolicyFieldsLast(base, row, PolicyColumns, 2);
    } else {
      PolicyFieldsUnset(base, row, PolicyColumns, "priority");
    }
  }

  /** The policies keep row order: those of two blocks of rows are those of the first block
      followed by those of the second. */
  lemma {:induction false} PoliciesAppend(a: seq<Row>, b: seq<Row>)
    ensures Policies(a + b) == Policies(a) + Policies(b)
    decreases |b|
  {
    if b != [] {
      var n := |b| - 1;
      assert (a + b)[..|a + b| - 1] == a + b[..n];
      assert (a + b)[|a + b| - 1] == b[n];
      PoliciesAppend(a, b[..n]);
    } else {
      assert a + b == a;
    }
  }
}

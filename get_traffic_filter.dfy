/** Reading traffic-filter profiles (plugins/modules/get_traffic_filter.py): two GETs read the
    profile rows and the filter (protection) rows; the profiles are collected by name, the first
    row of each name giving its header, the protections are attached to the profiles they name,
    and the result is optionally restricted to listed profile names and summarised. */
module GetTrafficFilter {
  import opened Py
  import opened Http
  import opened Tables
  import opened Grouping

  const ProfileTable := "rsNewTrafficProfileTable"
  const FilterTable := "rsNewTrafficFilterTable"
  const ProfileNameField := "rsNewTrafficProfileName"
  const FilterProfileNameField := "rsNewTrafficFilterProfileName"

  /** The device's codes read back as the playbook's words. */
  const EnabledDisabledWords: Table := [("1", "enabled"), ("2", "disabled")]
  const ProtocolWords: Table :=
    [("0", "any"), ("1", "tcp"), ("2", "udp"), ("3", "icmp"), ("4", "igmp"), ("5", "sctp"),
     ("6", "icmpv6"), ("7", "gre"), ("8", "ipinip")]
  const ActionWords: Table := [("0", "report_only"), ("1", "report_only"), ("10", "drop")]

  /** A profile of the `profiles` dict, without its name: the rule count, the action and the
      protections attached so far. */
  datatype Profile = Profile(numOfRules: int, action: Value, protections: seq<Value>)

  /** The `profiles` dict: profile name to profile, in insertion order. */
  type Profiles = seq<(Value, Profile)>

  /** `row.get(key)`: the name a row gives, `None` when it gives none. */
  function Name(key: string, row: Value): Value
  {
    FieldOr(row, key, VNone)
  }

  /** `row.get(field, '')` */
  function Raw(row: Value, field: string): Value
  {
    FieldOr(row, field, VStr(""))
  }

  // ---------------------------------------------------------------------------------------------
  // The profiles, by name
  // ---------------------------------------------------------------------------------------------

  /** The header the first row of a profile gives it: `int()` of its rule count (0 when absent)
      and its action read back through `actionWords`. */
  function Header(actionWords: Table, row: Value): Result<Profile>
  {
    match IntOf(FieldOr(row, "rsNewTrafficProfileNumOfRules", VInt(0)))
    case Err(m) => Err(m)
    case Ok(n) =>
      match Lookup(actionWords, Raw(row, "rsNewTrafficProfileAction"))
      case Err(m) => Err(m)
      case Ok(action) => Ok(Profile(n, action, []))
  }

  /** Action codes "0" and "1" both read as `report_only`, "10" as `drop`, and any other string
      is kept. */
  lemma ActionReadBack(code: string)
    ensures Lookup(ActionWords, VStr(code)) ==
      Ok(VStr(if code == "0" || code == "1" then "report_only" else if code == "10" then "drop" else code))
  {
  }

  function HeaderOf(actionWords: Table): Value -> Result<Profile>
  {
    row => Header(actionWords, row)
  }

  /** The first loop: a new name gets a profile with the header of its row, a name seen before
      is skipped; a row that is not a dict or names its profile by a list or dict raises. */
  function Collect(key: string, header: Value -> Result<Profile>, rows: seq<Value>): Result<Profiles>
    decreases |rows|
  {
    if rows == [] then Ok([])
    else
      var d := Collect(key, header, rows[..|rows| - 1]);
      var row := rows[|rows| - 1];
      var name := Name(key, row);
      if d.Err? then d
      else if !row.VDict? then Err(NoGet)
      else if !Hashable(name) then Err(Unhashable)
      else if name in Keys(d.value) then d
      else if header(row).Err? then Err(header(row).msg)
      else Ok(d.value + [(name, header(row).value)])
  }

  method CollectProfiles(key: string, header: Value -> Result<Profile>, rows: seq<Value>) returns (r: Result<Profiles>)
    ensures r == Collect(key, header, rows)
  {
    var profiles: Profiles := [];
    var i := 0;
    while i < |rows|
      invariant 0 <= i <= |rows|
      invariant Collect(key, header, rows[..i]) == Ok(profiles)
    {
      assert rows[..i + 1][..i] == rows[..i];
      var row := rows[i];
      if !row.VDict? {
        CollectStaysErr(key, header, rows, i + 1);
        return Err(NoGet);
      }
      var name := Name(key, row);
      if !Hashable(name) {
        CollectStaysErr(key, header, rows, i + 1);
        return Err(Unhashable);
      }
      if name !in Keys(profiles) {
        var h := header(row);
        if h.Err? {
          CollectStaysErr(key, header, rows, i + 1);
          return Err(h.msg);
        }
        profiles := profiles + [(name, h.value)];
      }
      i := i + 1;
    }
    assert rows[..i] == rows;
    return Ok(profiles);
  }

  lemma {:induction false} CollectStaysErr(key: string, header: Value -> Result<Profile>, rows: seq<Value>, i: nat)
    requires i <= |rows| && Collect(key, header, rows[..i]).Err?
    ensures Collect(key, header, rows) == Collect(key, header, rows[..i])
    decreases |rows| - i
  {
    if i < |rows| {
      assert rows[..i + 1][..i] == rows[..i];
      CollectStaysErr(key, header, rows, i + 1);
    } else {
      assert rows[..i] == rows;
    }
  }

  /** The names of `rows` with every repetition of an earlier name dropped. */
  function FirstOccurrences(names: seq<Value>): seq<Value>
  {
    if names == [] then []
    else
      var init := names[..|names| - 1];
      FirstOccurrences(init) + if names[|names| - 1] in init then [] else [names[|names| - 1]]
  }

  function Names(key: string, rows: seq<Value>): seq<Value>
  {
    seq(|rows|, i requires 0 <= i < |rows| => Name(key, rows[i]))
  }

  /** Row `i` is the first row naming its profile. */
  predicate FirstNamed(key: string, rows: seq<Value>, i: int)
  {
    0 <= i < |rows| && forall j :: 0 <= j < i ==> Name(key, rows[j]) != Name(key, rows[i])
  }

  /** Row `i` makes collecting raise: it is not a dict, names its profile by a list or dict,
      or is the first of its name and has a header that cannot be read. */
  predicate BadRow(key: string, header: Value -> Result<Profile>, rows: seq<Value>, i: int)
  {
    0 <= i < |rows| &&
    (!rows[i].VDict? || !Hashable(Name(key, rows[i])) || (FirstNamed(key, rows, i) && header(rows[i]).Err?))
  }

  /** Collecting raises iff some row is bad; the headers of later rows of a name are never
      read. */
  lemma {:induction false} CollectRaises(key: string, header: Value -> Result<Profile>, rows: seq<Value>)
    ensures Collect(key, header, rows).Err? <==> exists i :: BadRow(key, header, rows, i)
    decreases |rows|
  {
    if rows != [] {
      var n := |rows| - 1;
      var init := rows[..n];
      CollectRaises(key, header, init);
      BadRowPrefix(key, header, rows);
      if Collect(key, header, init).Err? {
        var i :| BadRow(key, header, init, i);
        assert BadRow(key, header, rows, i);
      } else {
        assert forall i :: BadRow(key, header, rows, i) ==> i == n;
        LastRowDecides(key, header, rows);
        if Collect(key, header, rows).Err? {
          assert BadRow(key, header, rows, n);
        }
      }
    }
  }

  /** After a prefix that collects, the last row makes collecting raise iff it is bad. */
  lemma LastRowDecides(key: string, header: Value -> Result<Profile>, rows: seq<Value>)
    requires rows != [] && Collect(key, header, rows[..|rows| - 1]).Ok?
    ensures Collect(key, header, rows).Err? <==> BadRow(key, header, rows, |rows| - 1)
  {
    var n := |rows| - 1;
    var init := rows[..n];
    CollectKeys(key, header, init);
    var x := Name(key, rows[n]);
    assert x in Names(key, init) <==> !FirstNamed(key, rows, n) by {
      assert forall j :: 0 <= j < n ==> Names(key, init)[j] == Name(key, rows[j]);
    }
    CollectLast(key, header, rows);
  }

  /** Collecting one more row after a successful prefix. */
  lemma CollectLast(key: string, header: Value -> Result<Profile>, rows: seq<Value>)
    requires rows != [] && Collect(key, header, rows[..|rows| - 1]).Ok?
    ensures var d := Collect(key, header, rows[..|rows| - 1]).value;
      var row := rows[|rows| - 1];
      var name := Name(key, row);
      Collect(key, header, rows) ==
        if !row.VDict? then Err(NoGet)
        else if !Hashable(name) then Err(Unhashable)
        else if name in Keys(d) then Ok(d)
        else if header(row).Err? then Err(header(row).msg)
        else Ok(d + [(name, header(row).value)])
  {
  }

  lemma BadRowPrefix(key: string, header: Value -> Result<Profile>, rows: seq<Value>)
    requires rows != []
    ensures forall i :: 0 <= i < |rows| - 1 ==>
      (BadRow(key, header, rows[..|rows| - 1], i) <==> BadRow(key, header, rows, i))
  {
    var init := rows[..|rows| - 1];
    forall i | 0 <= i < |rows| - 1
      ensures BadRow(key, header, init, i) <==> BadRow(key, header, rows, i)
    {
      assert init[i] == rows[i];
      assert FirstNamed(key, init, i) <==> FirstNamed(key, rows, i) by {
        assert forall j :: 0 <= j < i ==> init[j] == rows[j];
      }
    }
  }

  /** The profiles are named exactly once each, in the order the rows first name them. */
  lemma {:induction false} CollectKeys(key: string, header: Value -> Result<Profile>, rows: seq<Value>)
    requires Collect(key, header, rows).Ok?
    ensures Keys(Collect(key, header, rows).value) == FirstOccurrences(Names(key, rows))
    ensures forall x :: x in Keys(Collect(key, header, rows).value) <==> x in Names(key, rows)
    decreases |rows|
  {
    if rows != [] {
      var n := |rows| - 1;
      var init := rows[..n];
      CollectKeys(key, header, init);
      assert Names(key, rows) == Names(key, init) + [Name(key, rows[n])];
      assert Names(key, rows)[..n] == Names(key, init);
      var d := Collect(key, header, init).value;
      if Name(key, rows[n]) !in Keys(d) {
        KeysAppend(d, Name(key, rows[n]), header(rows[n]).value);
      }
    }
  }

  lemma KeysAppend<K, V>(d: seq<(K, V)>, k: K, v: V)
    ensures Keys(d + [(k, v)]) == Keys(d) + [k]
  {
    KeysLength(d);
    KeysLength(d + [(k, v)]);
  }

  /** The first row of each name gives that profile its header; later rows of the name change
      nothing. */
  lemma {:induction false} CollectFirstWins(key: string, header: Value -> Result<Profile>, rows: seq<Value>, i: nat)
    requires Collect(key, header, rows).Ok? && FirstNamed(key, rows, i)
    ensures header(rows[i]).Ok? && Get(Collect(key, header, rows).value, Name(key, rows[i])) == Some(header(rows[i]).value)
    decreases |rows|
  {
    var n := |rows| - 1;
    var init := rows[..n];
    assert Collect(key, header, init).Ok?;
    var d := Collect(key, header, init).value;
    CollectLast(key, header, rows);
    var x := Name(key, rows[i]);
    var last := Name(key, rows[n]);
    GetSome(d, x);
    if i < n {
      assert FirstNamed(key, init, i) by {
        assert forall j :: 0 <= j <= i ==> init[j] == rows[j];
      }
      CollectFirstWins(key, header, init, i);
      if last !in Keys(d) {
        GetAppend(d, last, header(rows[n]).value, x);
      }
    } else {
      CollectKeys(key, header, init);
      assert x !in Names(key, init) by {
        assert forall j :: 0 <= j < n ==> Names(key, init)[j] == Name(key, rows[j]);
      }
      GetAppend(d, x, header(rows[n]).value, x);
    }
  }

  lemma {:induction false} GetAppend<K, V>(d: seq<(K, V)>, k: K, v: V, k': K)
    requires k' == k ==> Get(d, k).None?
    ensures Get(d + [(k, v)], k') == if Get(d, k').Some? then Get(d, k') else if k' == k then Some(v) else None
  {
    if d != [] {
      assert (d + [(k, v)])[1..] == d[1..] + [(k, v)];
      GetAppend(d[1..], k, v, k');
    }
  }

  // ---------------------------------------------------------------------------------------------
  // Attaching the protections
  // ---------------------------------------------------------------------------------------------

  /** The entry of one protection row: names, priority, thresholds, VLAN, networks and ports
      copied, the state, protocol, packet report and TCP flags read back as words. */
  function Entry(enabledWords: Table, protocolWords: Table, row: Value): Result<Value>
  {
    var state := Lookup(enabledWords, Raw(row, "rsNewTrafficFilterState"));
    var protocol := Lookup(protocolWords, Raw(row, "rsNewTrafficFilterProtocol"));
    var packetReport := Lookup(enabledWords, Raw(row, "rsNewTrafficFilterPacketReport"));
    var syn := Lookup(enabledWords, Raw(row, "rsNewTrafficFilterTCPFlagsSyn"));
    var ack := Lookup(enabledWords, Raw(row, "rsNewTrafficFilterTCPFlagsAck"));
    var rst := Lookup(enabledWords, Raw(row, "rsNewTrafficFilterTCPFlagsRst"));
    var synAck := Lookup(enabledWords, Raw(row, "rsNewTrafficFilterTCPFlagsSynAck"));
    var finAck := Lookup(enabledWords, Raw(row, "rsNewTrafficFilterTCPFlagsFinAck"));
    var pshAck := Lookup(enabledWords, Raw(row, "rsNewTrafficFilterTCPFlagsPshAck"));
    if state.Err? || protocol.Err? || packetReport.Err? || syn.Err? || ack.Err? || rst.Err? ||
       synAck.Err? || finAck.Err? || pshAck.Err?
    then Err(Unhashable)
    else Ok(VDict([
      ("protection_name", FieldOr(row, "rsNewTrafficFilterName", VNone)),
      ("protection_id", FieldOr(row, "rsNewTrafficFilterID", VNone)),
      ("state", state.value),
      ("priority", FieldOr(row, "rsNewTrafficFilterPriority", VStr("0"))),
      ("protocol", protocol.value),
      ("threshold_pps", FieldOr(row, "rsNewTrafficFilterThresholdPPS", VStr("0"))),
      ("threshold_bps", FieldOr(row, "rsNewTrafficFilterThresholdBPS", VStr("0"))),
      ("packet_report", packetReport.value),
      ("vlan", FieldOr(row, "rsNewTrafficFilterVLAN", VStr("Any"))),
      ("src_network", Raw(row, "rsNewTrafficFilterSrcNetwork")),
      ("src_port", Raw(row, "rsNewTrafficFilterSrcPort")),
      ("dst_network", Raw(row, "rsNewTrafficFilterDstNetwork")),
      ("dst_port", Raw(row, "rsNewTrafficFilterDstPort")),
      ("tcp_syn", syn.value),
      ("tcp_ack", ack.value),
      ("tcp_rst", rst.value),
      ("tcp_synack", synAck.value),
      ("tcp_finack", finAck.value),
      ("tcp_pshack", pshAck.value)]))
  }

  function EntryOf(enabledWords: Table, protocolWords: Table): Value -> Result<Value>
  {
    row => Entry(enabledWords, protocolWords, row)
  }

  /** The second loop: a protection naming a known profile is appended to its protections, any
      other protection is dropped; a row that is not a dict or names its profile by a list or
      dict raises, and so does an attached row whose entry cannot be read. */
  function Attach(key: string, entry: Value -> Result<Value>, d: Profiles, rows: seq<Value>): Result<Profiles>
    decreases |rows|
  {
    if rows == [] then Ok(d)
    else
      var a := Attach(key, entry, d, rows[..|rows| - 1]);
      var row := rows[|rows| - 1];
      var name := Name(key, row);
      if a.Err? then a
      else if !row.VDict? then Err(NoGet)
      else if !Hashable(name) then Err(Unhashable)
      else match Get(a.value, name)
        case None => a
        case Some(p) =>
          if entry(row).Err? then Err(entry(row).msg)
          else Ok(Put(a.value, name, p.(protections := p.protections + [entry(row).value])))
  }

  method AttachProtections(key: string, entry: Value -> Result<Value>, d: Profiles, rows: seq<Value>)
    returns (r: Result<Profiles>)
    ensures r == Attach(key, entry, d, rows)
  {
    var profiles := d;
    var i := 0;
    while i < |rows|
      invariant 0 <= i <= |rows|
      invariant Attach(key, entry, d, rows[..i]) == Ok(profiles)
    {
      assert rows[..i + 1][..i] == rows[..i];
      var row := rows[i];
      if !row.VDict? {
        AttachStaysErr(key, entry, d, rows, i + 1);
        return Err(NoGet);
      }
      var name := Name(key, row);
      if !Hashable(name) {
        AttachStaysErr(key, entry, d, rows, i + 1);
        return Err(Unhashable);
      }
      var known := Get(profiles, name);
      if known.Some? {
        var e := entry(row);
        if e.Err? {
          AttachStaysErr(key, entry, d, rows, i + 1);
          return Err(e.msg);
        }
        var p := known.value;
        profiles := Put(profiles, name, p.(protections := p.protections + [e.value]));
      }
      i := i + 1;
    }
    assert rows[..i] == rows;
    return Ok(profiles);
  }

  lemma {:induction false} AttachStaysErr(key: string, entry: Value -> Result<Value>, d: Profiles, rows: seq<Value>, i: nat)
    requires i <= |rows| && Attach(key, entry, d, rows[..i]).Err?
    ensures Attach(key, entry, d, rows) == Attach(key, entry, d, rows[..i])
    decreases |rows| - i
  {
    if i < |rows| {
      assert rows[..i + 1][..i] == rows[..i];
      AttachStaysErr(key, entry, d, rows, i + 1);
    } else {
      assert rows[..i] == rows;
    }
  }

  /** The entries of the rows naming `x`, in row order. */
  function EntriesFor(key: string, entry: Value -> Result<Value>, rows: seq<Value>, x: Value): seq<Value>
  {
    if rows == [] then []
    else
      var row := rows[|rows| - 1];
      EntriesFor(key, entry, rows[..|rows| - 1], x) +
        if Name(key, row) == x && entry(row).Ok? then [entry(row).value] else []
  }

  /** Attaching keeps the profile names, their order and their headers, and appends to each
      profile the entries of exactly the protection rows naming it, in row order. */
  lemma {:induction false} AttachContents(key: string, entry: Value -> Result<Value>, d: Profiles, rows: seq<Value>, x: Value)
    requires Attach(key, entry, d, rows).Ok?
    ensures Keys(Attach(key, entry, d, rows).value) == Keys(d)
    ensures Get(Attach(key, entry, d, rows).value, x) ==
      match Get(d, x)
      case None => None
      case Some(p) => Some(p.(protections := p.protections + EntriesFor(key, entry, rows, x)))
    decreases |rows|
  {
    if rows != [] {
      var n := |rows| - 1;
      var init := rows[..n];
      var row := rows[n];
      var name := Name(key, row);
      assert Attach(key, entry, d, init).Ok?;
      AttachLast(key, entry, d, rows);
      AttachContents(key, entry, d, init, x);
      var a := Attach(key, entry, d, init).value;
      var more := if name == x && entry(row).Ok? then [entry(row).value] else [];
      assert EntriesFor(key, entry, rows, x) == EntriesFor(key, entry, init, x) + more;
      if name != x {
        assert EntriesFor(key, entry, rows, x) == EntriesFor(key, entry, init, x);
      }
      if Get(a, name).Some? {
        AttachContents(key, entry, d, init, name);
        var p := Get(a, name).value;
        var p' := p.(protections := p.protections + [entry(row).value]);
        GetPut(a, name, p', x);
        KeysPut(a, name, p');
        GetSome(a, name);
        if name == x {
          var p0 := Get(d, x).value;
          assert p0.protections + EntriesFor(key, entry, rows, x) ==
            (p0.protections + EntriesFor(key, entry, init, x)) + [entry(row).value];
        }
      } else if name == x {
        assert Get(d, x).None?;
      }
    } else if Get(d, x).Some? {
      assert Get(d, x).value.protections + [] == Get(d, x).value.protections;
    }
  }

  /** Attaching one more protection row after a successful prefix. */
  lemma AttachLast(key: string, entry: Value -> Result<Value>, d: Profiles, rows: seq<Value>)
    requires rows != [] && Attach(key, entry, d, rows[..|rows| - 1]).Ok?
    ensures var a := Attach(key, entry, d, rows[..|rows| - 1]).value;
      var row := rows[|rows| - 1];
      var name := Name(key, row);
      Attach(key, entry, d, rows) ==
        if !row.VDict? then Err(NoGet)
        else if !Hashable(name) then Err(Unhashable)
        else if Get(a, name).None? then Ok(a)
        else if entry(row).Err? then Err(entry(row).msg)
        else Ok(Put(a, name, Get(a, name).value.(protections := Get(a, name).value.protections + [entry(row).value])))
  {
  }

  /** Protection row `i` makes attaching raise: it is not a dict, names its profile by a list or
      dict, or names a known profile and has an entry that cannot be read. */
  predicate BadProtection(key: string, entry: Value -> Result<Value>, d: Profiles, rows: seq<Value>, i: int)
  {
    0 <= i < |rows| &&
    (!rows[i].VDict? || !Hashable(Name(key, rows[i])) || (Name(key, rows[i]) in Keys(d) && entry(rows[i]).Err?))
  }

  /** Attaching raises iff some protection row is bad; the entries of dropped rows are never
      read. */
  lemma {:induction false} AttachRaises(key: string, entry: Value -> Result<Value>, d: Profiles, rows: seq<Value>)
    ensures Attach(key, entry, d, rows).Err? <==> exists i :: BadProtection(key, entry, d, rows, i)
    decreases |rows|
  {
    if rows != [] {
      var n := |rows| - 1;
      var init := rows[..n];
      AttachRaises(key, entry, d, init);
      assert forall i :: 0 <= i < n ==> init[i] == rows[i];
      assert forall i :: 0 <= i < n ==> (BadProtection(key, entry, d, init, i) <==> BadProtection(key, entry, d, rows, i));
      if Attach(key, entry, d, init).Err? {
        var i :| BadProtection(key, entry, d, init, i);
        assert BadProtection(key, entry, d, rows, i);
      } else {
        assert forall i :: BadProtection(key, entry, d, rows, i) ==> i == n;
        var a := Attach(key, entry, d, init).value;
        AttachContents(key, entry, d, init, Name(key, rows[n]));
        GetSome(a, Name(key, rows[n]));
        AttachLast(key, entry, d, rows);
        assert Attach(key, entry, d, rows).Err? <==> BadProtection(key, entry, d, rows, n);
      }
    }
  }

  /** Number of protections held by the profiles. */
  function ProtectionCount(d: Profiles): nat
  {
    if d == [] then 0 else ProtectionCount(d[..|d| - 1]) + |d[|d| - 1].1.protections|
  }

  /** Number of rows naming one of `names`. */
  function CountNaming(key: string, rows: seq<Value>, names: seq<Value>): nat
  {
    if rows == [] then 0
    else CountNaming(key, rows[..|rows| - 1], names) + if Name(key, rows[|rows| - 1]) in names then 1 else 0
  }

  /** Every protection row naming a known profile is attached once; the others are dropped. */
  lemma {:induction false} AttachCount(key: string, entry: Value -> Result<Value>, d: Profiles, rows: seq<Value>)
    requires Attach(key, entry, d, rows).Ok?
    ensures ProtectionCount(Attach(key, entry, d, rows).value) == ProtectionCount(d) + CountNaming(key, rows, Keys(d))
    decreases |rows|
  {
    if rows != [] {
      var n := |rows| - 1;
      var init := rows[..n];
      var row := rows[n];
      var name := Name(key, row);
      AttachCount(key, entry, d, init);
      AttachContents(key, entry, d, init, name);
      var a := Attach(key, entry, d, init).value;
      GetSome(a, name);
      if name in Keys(a) {
        var p := Get(a, name).value;
        var i := FirstIndex(a, name);
        GetAt(a, i, name);
        PutAt(a, i, name, p.(protections := p.protections + [entry(row).value]));
        CountUpdate(a, i, p.(protections := p.protections + [entry(row).value]), entry(row).value);
      }
    }
  }

  lemma {:induction false} CountUpdate(d: Profiles, i: nat, p: Profile, v: Value)
    requires i < |d| && p.protections == d[i].1.protections + [v]
    ensures ProtectionCount(d[i := (d[i].0, p)]) == ProtectionCount(d) + 1
    decreases |d|
  {
    var n := |d| - 1;
    var d' := d[i := (d[i].0, p)];
    if i < n {
      assert d'[..n] == d[..n][i := (d[i].0, p)];
      CountUpdate(d[..n], i, p, v);
    } else {
      assert d'[..n] == d[..n];
    }
  }

  // ---------------------------------------------------------------------------------------------
  // Filter, summary and the module run
  // ---------------------------------------------------------------------------------------------

  /** The dict returned for one profile. */
  function ProfileValue(e: (Value, Profile)): Value
  {
    VDict([("profile_name", e.0), ("num_of_rules", VInt(e.1.numOfRules)), ("action", e.1.action),
           ("protections", VList(e.1.protections))])
  }

  datatype Summary = Summary(totalProfiles: nat, totalProtections: nat)

  datatype RunResult =
    | Exited(profiles: seq<Value>, summary: Summary, sent: seq<Request>)
    | Failed(msg: string, sent: seq<Request>)

  function ProfilesRequest(dp: string): Request
  {
    Request(GET, ConfigPath(dp, ProfileTable), None)
  }

  function FiltersRequest(dp: string): Request
  {
    Request(GET, ConfigPath(dp, FilterTable), None)
  }

  /** The profile dict after both loops, or the exception raised on the way. */
  function Gather(profileRows: Value, filterRows: Value): Result<Profiles>
  {
    match Iter(profileRows)
    case None => Err(NotIterable)
    case Some(rows) =>
      match Collect(ProfileNameField, HeaderOf(ActionWords), rows)
      case Err(m) => Err(m)
      case Ok(d) =>
        match Iter(filterRows)
        case None => Err(NotIterable)
        case Some(prots) => Attach(FilterProfileNameField, EntryOf(EnabledDisabledWords, ProtocolWords), d, prots)
  }

  function Run(dp: string, names: seq<Value>, net: Net): RunResult
  {
    var sent0 := [ProfilesRequest(dp)];
    match TableOf(net(0), ProfileTable)
    case Err(m) => Failed(m, sent0)
    case Ok(profileRows) =>
      var sent := sent0 + [FiltersRequest(dp)];
      match TableOf(net(1), FilterTable)
      case Err(m) => Failed(m, sent)
      case Ok(filterRows) =>
        match Gather(profileRows, filterRows)
        case Err(m) => Failed(m, sent)
        case Ok(d) =>
          var kept := Listed(d, names);
          Exited(seq(|kept|, i requires 0 <= i < |kept| => ProfileValue(kept[i])),
                 Summary(|kept|, ProtectionCount(kept)), sent)
  }

  method RunModule(dp: string, names: seq<Value>, net: Net) returns (r: RunResult)
    ensures r == Run(dp, names, net)
  {
    var sent := [ProfilesRequest(dp)];
    var profileRows := TableOf(net(0), ProfileTable);
    if profileRows.Err? {
      return Failed(profileRows.msg, sent);
    }
    sent := sent + [FiltersRequest(dp)];
    var filterRows := TableOf(net(1), FilterTable);
    if filterRows.Err? {
      return Failed(filterRows.msg, sent);
    }
    if Iter(profileRows.value).None? {
      return Failed(NotIterable, sent);
    }
    var d := CollectProfiles(ProfileNameField, HeaderOf(ActionWords), Iter(profileRows.value).value);
    if d.Err? {
      return Failed(d.msg, sent);
    }
    if Iter(filterRows.value).None? {
      return Failed(NotIterable, sent);
    }
    var a := AttachProtections(FilterProfileNameField, EntryOf(EnabledDisabledWords, ProtocolWords), d.value,
                               Iter(filterRows.value).value);
    if a.Err? {
      return Failed(a.msg, sent);
    }
    var kept := Listed(a.value, names);
    return Exited(seq(|kept|, i requires 0 <= i < |kept| => ProfileValue(kept[i])),
                  Summary(|kept|, ProtectionCount(kept)), sent);
  }

  /** The filter rows are fetched only once the profile table was read.  Without a name filter,
      a reported run lists one profile per distinct profile name, in first-occurrence order,
      and counts exactly the protections naming one of them. */
  lemma RunOutcome(dp: string, names: seq<Value>, net: Net)
    ensures var r := Run(dp, names, net);
      r.sent == if TableOf(net(0), ProfileTable).Err? then [ProfilesRequest(dp)]
                else [ProfilesRequest(dp), FiltersRequest(dp)]
    ensures var r := Run(dp, names, net);
      r.Exited? && names == [] ==>
        var rows := Iter(TableOf(net(0), ProfileTable).value).value;
        var prots := Iter(TableOf(net(1), FilterTable).value).value;
        r.summary.totalProfiles == |r.profiles| == |FirstOccurrences(Names(ProfileNameField, rows))| &&
        r.summary.totalProtections ==
          CountNaming(FilterProfileNameField, prots, FirstOccurrences(Names(ProfileNameField, rows)))
  {
    var r := Run(dp, names, net);
    if r.Exited? && names == [] {
      var rows := Iter(TableOf(net(0), ProfileTable).value).value;
      var prots := Iter(TableOf(net(1), FilterTable).value).value;
      var d := Collect(ProfileNameField, HeaderOf(ActionWords), rows).value;
      CollectKeys(ProfileNameField, HeaderOf(ActionWords), rows);
      CollectEmpty(ProfileNameField, HeaderOf(ActionWords), rows);
      AttachCount(FilterProfileNameField, EntryOf(EnabledDisabledWords, ProtocolWords), d, prots);
      AttachContents(FilterProfileNameField, EntryOf(EnabledDisabledWords, ProtocolWords), d, prots, VNone);
      KeysLength(d);
      KeysLength(Attach(FilterProfileNameField, EntryOf(EnabledDisabledWords, ProtocolWords), d, prots).value);
    }
  }

  /** Freshly collected profiles hold no protections yet. */
  lemma {:induction false} CollectEmpty(key: string, header: Value -> Result<Profile>, rows: seq<Value>)
    requires Collect(key, header, rows).Ok?
    requires forall row :: header(row).Ok? ==> header(row).value.protections == []
    ensures ProtectionCount(Collect(key, header, rows).value) == 0
    decreases |rows|
  {
    if rows != [] {
      var n := |rows| - 1;
      CollectEmpty(key, header, rows[..n]);
      var d := Collect(key, header, rows[..n]).value;
      if Name(key, rows[n]) !in Keys(d) {
        assert (d + [(Name(key, rows[n]), header(rows[n]).value)])[..|d|] == d;
      }
    }
  }
}

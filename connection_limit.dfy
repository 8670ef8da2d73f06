/** The connection-limit protection vocabulary shared by plugins/modules/edit_cl_configuration.py,
    plugins/modules/edit_cl_protection.py and plugins/modules/create_cl_protection.py: the five
    word-to-code tables, the `MAP[value]` lookup, and the partial update the two edit modules
    build by inserting one column per given parameter, in a fixed order. */
module ConnectionLimit {
  import opened Py
  import opened Http
  import opened Tables

  const AttackTable := "rsIDSConnectionLimitAttackTable"

  const Protocols: Table := [("tcp", "2"), ("udp", "3")]
  const AttackTypes: Table := [("cps", "1"), ("concurrent_connections", "2")]
  const TrackingTypes: Table := [("src_ip", "2"), ("dst_ip", "3"), ("src_and_dest_ip", "4"), ("dst_ip_and_port", "5")]
  const Actions: Table := [("report_only", "0"), ("drop", "10")]
  const PacketReports: Table := [("enable", "1"), ("disable", "2")]

  /** `MAP[v]`: the code of a listed word, `None` for any other hashable value (`KeyError`), and
      a `TypeError` for a list or a dict. */
  function Code(t: Table, v: Value): Result<Option<string>>
  {
    if !Hashable(v) then Err(Unhashable)
    else if v.VStr? then Ok(Get(t, v.s))
    else Ok(None)
  }

  /** The lookup is exact: it yields a code exactly for a string spelled as a listed word, and
      then the code listed for that word; it raises only for an unhashable value. */
  lemma CodeExact(t: Table, v: Value)
    ensures Code(t, v).Err? <==> !Hashable(v)
    ensures Code(t, v).Ok? && Code(t, v).value.Some? <==> v.VStr? && v.s in Keys(t)
    ensures Code(t, v).Ok? && Code(t, v).value.Some? ==> (v.s, Code(t, v).value.value) in t
  {
    if v.VStr? {
      GetSome(t, v.s);
    }
  }

  /** A word with different capitalisation from the table's is not a word of the table. */
  lemma CodesCaseSensitive()
    ensures Code(Protocols, VStr("TCP")) == Ok(None)
    ensures Code(Actions, VStr("Drop")) == Ok(None)
    ensures Code(Protocols, VStr("tcp")) == Ok(Some("2")) && Code(Actions, VStr("drop")) == Ok(Some("10"))
  {
    assert Protocols[0].0 == "tcp" && Protocols[1].0 == "udp";
    assert "TCP"[0] != "tcp"[0] && "TCP"[0] != "udp"[0];
    assert "Drop"[0] != "report_only"[0] && "Drop"[0] != "drop"[0];
  }

  /** The GET of the whole protection table that the create modules send only to refresh the
      device state; its reply is never read. */
  function RefreshRequest(dp: string): Request
  {
    Request(GET, ConfigPath(dp, AttackTable), None)
  }

  function Column(suffix: string): string
  {
    "rsIDSConnectionLimitAttack" + suffix
  }

  lemma ColumnInjective(a: string, b: string)
    requires Column(a) == Column(b)
    ensures a == b
  {
    var n := |"rsIDSConnectionLimitAttack"|;
    assert a == Column(a)[n..] && b == Column(b)[n..];
  }

  /** One column of a partial update: the playbook key, the device column suffix, and the table
      that translates its value, if any. */
  datatype Param = Param(key: string, suffix: string, codes: Option<Table>)

  /** The order in which both edit modules insert the columns. */
  const EditParams: seq<Param> := [
    Param("protection_name", "Name", None),
    Param("protocol", "Protocol", Some(Protocols)),
    Param("app_port_group", "AppPort", None),
    Param("threshold", "Threshold", None),
    Param("tracking_type", "TrackingType", Some(TrackingTypes)),
    Param("action", "ReportMode", Some(Actions)),
    Param("packet_report", "PacketReport", Some(PacketReports)),
    Param("protection_type", "Type", Some(AttackTypes))
  ]

  predicate SuffixesDistinct(ps: seq<Param>)
  {
    forall i, j :: 0 <= i < j < |ps| ==> ps[i].suffix != ps[j].suffix
  }

  lemma EditSuffixesDistinct()
    ensures SuffixesDistinct(EditParams)
  {
    var s := seq(|EditParams|, i requires 0 <= i < |EditParams| => EditParams[i].suffix);
    assert s == ["Name", "Protocol", "AppPort", "Threshold", "TrackingType", "ReportMode", "PacketReport", "Type"];
    forall i, j | 0 <= i < j < |s| ensures s[i] != s[j] {
      assert |s[i]| != |s[j]| || s[i][0] != s[j][0];
    }
  }

  /** What one parameter contributes: nothing when it is not given, its value (translated through
      its table, if it has one) under its column, an `Invalid ... value` message for a value the
      table does not list, or the `TypeError` of an unhashable value. */
  function ParamStep(given: string -> Option<Value>, p: Param): Result<Emit>
  {
    match given(p.key)
    case None => Ok(Skip)
    case Some(v) =>
      match p.codes
      case None => Ok(Emit(Column(p.suffix), v))
      case Some(t) =>
        match Code(t, v)
        case Err(e) => Err(e)
        case Ok(None) => Ok(Reject("Invalid " + p.key + " value: " + Str(v)))
        case Ok(Some(c)) => Ok(Emit(Column(p.suffix), VStr(c)))
  }

  predicate Accepted(s: Result<Emit>)
  {
    s.Ok? && !s.value.Reject?
  }

  /** An update body, or the message of the value that invalidates the item. */
  datatype Partial = Body(body: Dict) | Invalid(msg: string)

  /** The body built parameter by parameter; the first rejected value abandons it, and the first
      unhashable value raises. */
  function PartialBody(given: string -> Option<Value>, ps: seq<Param>): Result<Partial>
  {
    if ps == [] then Ok(Body([]))
    else match PartialBody(given, ps[..|ps| - 1])
      case Err(e) => Err(e)
      case Ok(Invalid(m)) => Ok(Invalid(m))
      case Ok(Body(b)) =>
        match ParamStep(given, ps[|ps| - 1])
        case Err(e) => Err(e)
        case Ok(Skip) => Ok(Body(b))
        case Ok(Emit(k, v)) => Ok(Body(Put(b, k, v)))
        case Ok(Reject(m)) => Ok(Invalid(m))
  }

  lemma {:induction false} PartialStaysFailed(given: string -> Option<Value>, ps: seq<Param>, i: nat)
    requires i <= |ps| && !(PartialBody(given, ps[..i]).Ok? && PartialBody(given, ps[..i]).value.Body?)
    ensures PartialBody(given, ps) == PartialBody(given, ps[..i])
    decreases |ps| - i
  {
    if i < |ps| {
      assert ps[..i + 1][..i] == ps[..i];
      PartialStaysFailed(given, ps, i + 1);
    } else {
      assert ps[..i] == ps;
    }
  }

  /** The successive `if key in item: body[column] = ...` insertions. */
  method PartialLoop(given: string -> Option<Value>, ps: seq<Param>) returns (r: Result<Partial>)
    ensures r == PartialBody(given, ps)
  {
    var body: Dict := [];
    var i := 0;
    while i < |ps|
      invariant 0 <= i <= |ps|
      invariant PartialBody(given, ps[..i]) == Ok(Body(body))
    {
      assert ps[..i + 1][..i] == ps[..i];
      var step := ParamStep(given, ps[i]);
      if step.Err? {
        PartialStaysFailed(given, ps, i + 1);
        return Err(step.msg);
      }
      match step.value {
        case Skip =>
        case Emit(k, v) => body := Put(body, k, v);
        case Reject(m) =>
          PartialStaysFailed(given, ps, i + 1);
          return Ok(Invalid(m));
      }
      i := i + 1;
    }
    assert ps[..i] == ps;
    return Ok(Body(body));
  }

  /** The outcome of a parameter that stops the build. */
  function Stop(s: Result<Emit>): Result<Partial>
    requires !Accepted(s)
  {
    match s
    case Err(e) => Err(e)
    case Ok(e) => Ok(Invalid(e.msg))
  }

  /** A body is built exactly when every parameter is accepted; otherwise the build stops at the
      first parameter that is not, with its exception or its message. */
  lemma {:induction false} PartialFirstFailure(given: string -> Option<Value>, ps: seq<Param>)
    ensures PartialBody(given, ps).Ok? && PartialBody(given, ps).value.Body? <==>
      forall i :: 0 <= i < |ps| ==> Accepted(ParamStep(given, ps[i]))
    ensures !(PartialBody(given, ps).Ok? && PartialBody(given, ps).value.Body?) ==>
      exists j :: 0 <= j < |ps| && !Accepted(ParamStep(given, ps[j])) &&
        (forall i :: 0 <= i < j ==> Accepted(ParamStep(given, ps[i]))) &&
        PartialBody(given, ps) == Stop(ParamStep(given, ps[j]))
    decreases |ps|
  {
    if ps != [] {
      var init := ps[..|ps| - 1];
      var n := |ps| - 1;
      PartialFirstFailure(given, init);
      assert forall i :: 0 <= i < n ==> init[i] == ps[i];
      var r := PartialBody(given, init);
      if !(r.Ok? && r.value.Body?) {
        var j :| 0 <= j < |init| && !Accepted(ParamStep(given, init[j])) &&
          (forall i :: 0 <= i < j ==> Accepted(ParamStep(given, init[i]))) && r == Stop(ParamStep(given, init[j]));
        assert init[j] == ps[j];
      } else if !Accepted(ParamStep(given, ps[n])) {
        assert forall i :: 0 <= i < n ==> Accepted(ParamStep(given, ps[i]));
      }
    }
  }

  /** The columns of the given parameters, in order. */
  function Emitted(given: string -> Option<Value>, ps: seq<Param>): seq<string>
  {
    if ps == [] then []
    else Emitted(given, ps[..|ps| - 1]) + if given(ps[|ps| - 1].key).Some? then [Column(ps[|ps| - 1].suffix)] else []
  }

  /** The value a given parameter puts in the body: the value itself, or its table's code. */
  function Sent(given: string -> Option<Value>, p: Param): Option<Value>
  {
    match given(p.key)
    case None => None
    case Some(v) =>
      match p.codes
      case None => Some(v)
      case Some(t) => if v.VStr? && Get(t, v.s).Some? then Some(VStr(Get(t, v.s).value)) else None
  }

  /** A built body holds a column exactly for each given parameter, in the parameters' order,
      and under it the given value or its code. */
  lemma {:induction false} PartialContents(given: string -> Option<Value>, ps: seq<Param>)
    requires SuffixesDistinct(ps)
    requires PartialBody(given, ps).Ok? && PartialBody(given, ps).value.Body?
    ensures var b := PartialBody(given, ps).value.body;
      Keys(b) == Emitted(given, ps) &&
      forall i :: 0 <= i < |ps| ==> Get(b, Column(ps[i].suffix)) == Sent(given, ps[i])
    decreases |ps|
  {
    if ps != [] {
      var init := ps[..|ps| - 1];
      var n := |ps| - 1;
      var p := ps[n];
      assert SuffixesDistinct(init) by {
        forall i, j | 0 <= i < j < |init| ensures init[i].suffix != init[j].suffix {
          assert init[i] == ps[i] && init[j] == ps[j];
        }
      }
      PartialContents(given, init);
      forall i | 0 <= i < n ensures Column(init[i].suffix) != Column(p.suffix) {
        assert init[i] == ps[i];
        if Column(ps[i].suffix) == Column(p.suffix) {
          ColumnInjective(ps[i].suffix, p.suffix);
        }
      }
      PartialFirstFailure(given, ps);
      ContentsExtend(given, init, p, PartialBody(given, init).value.body, PartialBody(given, ps).value.body);
      assert forall i :: 0 <= i < n ==> init[i] == ps[i];
    }
  }

  /** One accepted parameter added to a body built from the ones before it. */
  lemma ContentsExtend(given: string -> Option<Value>, init: seq<Param>, p: Param, b0: Dict, b: Dict)
    requires forall i :: 0 <= i < |init| ==> Column(init[i].suffix) != Column(p.suffix)
    requires Keys(b0) == Emitted(given, init)
    requires forall i :: 0 <= i < |init| ==> Get(b0, Column(init[i].suffix)) == Sent(given, init[i])
    requires Accepted(ParamStep(given, p))
    requires b == if ParamStep(given, p).value.Emit? then Put(b0, ParamStep(given, p).value.key, ParamStep(given, p).value.value) else b0
    ensures Keys(b) == Emitted(given, init) + if given(p.key).Some? then [Column(p.suffix)] else []
    ensures forall i :: 0 <= i < |init| ==> Get(b, Column(init[i].suffix)) == Sent(given, init[i])
    ensures Get(b, Column(p.suffix)) == Sent(given, p)
  {
    var col := Column(p.suffix);
    SentStep(given, p);
    EmittedColumns(given, init, col);
    if given(p.key).Some? {
      var x := ParamStep(given, p).value.value;
      KeysPut(b0, col, x);
      forall i | 0 <= i < |init| ensures Get(b, Column(init[i].suffix)) == Sent(given, init[i]) {
        GetPut(b0, col, x, Column(init[i].suffix));
      }
      GetPut(b0, col, x, col);
    } else {
      GetSome(b0, col);
    }
  }

  /** An accepted parameter emits exactly when it is given, and then emits what Sent names. */
  lemma SentStep(given: string -> Option<Value>, p: Param)
    requires Accepted(ParamStep(given, p))
    ensures ParamStep(given, p).value.Emit? <==> given(p.key).Some?
    ensures given(p.key).Some? ==>
      ParamStep(given, p).value.key == Column(p.suffix) && Sent(given, p) == Some(ParamStep(given, p).value.value)
    ensures given(p.key).None? ==> Sent(given, p) == None
  {
    if given(p.key).Some? && p.codes.Some? {
      CodeExact(p.codes.value, given(p.key).value);
    }
  }

  /** Every emitted column belongs to some parameter. */
  lemma {:induction false} EmittedColumns(given: string -> Option<Value>, ps: seq<Param>, col: string)
    requires forall i :: 0 <= i < |ps| ==> Column(ps[i].suffix) != col
    ensures col !in Emitted(given, ps)
    decreases |ps|
  {
    if ps != [] {
      var init := ps[..|ps| - 1];
      assert forall i :: 0 <= i < |init| ==> init[i] == ps[i];
      EmittedColumns(given, init, col);
    }
  }
}

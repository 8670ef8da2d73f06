/** Reading network classes (plugins/modules/get_network_class.py, the upstream variant at lines
    71-184): one GET of `rsBWMNetworkTable` through the v2 item-list API, an optional filter on
    class names and a grouping of the rows by class name. */
module GetNetworkClass {
  import opened Py
  import opened Http
  import opened Grouping

  const NameField := "rsBWMNetworkName"
  const ByName := NameKey(NameField, VStr(""))
  const ClassTable := "rsBWMNetworkTable"

  datatype Summary = Summary(totalEntries: nat, uniqueClasses: nat, classNames: seq<Value>,
                             filtered: bool, filterApplied: Option<seq<Value>>)

  /** `result['response']`: the (filtered) rows, the summary and the groups.  The module never
      reports a change. */
  datatype Response = Response(table: Value, summary: Summary, breakdown: Groups)

  datatype RunResult = Exited(response: Response, sent: seq<Request>) | Failed(msg: string, sent: seq<Request>)

  /** `/mgmt/v2/devices/{dp_ip}/config/itemlist/rsBWMNetworkTable` */
  function FetchRequest(dp: string): Request
  {
    Request(GET, "/mgmt/v2/devices/" + dp + "/config/itemlist/" + ClassTable, None)
  }

  /** The request of the other variant of the file (lines 1-69), which reads one class when
      `filter_class_name` is given and non-empty, and the whole table otherwise. */
  function HeadFetchRequest(dp: string, filterClassName: Option<string>): Request
  {
    var base := FetchRequest(dp).path;
    if filterClassName.Some? && filterClassName.value != "" then Request(GET, base + "/" + filterClassName.value, None)
    else Request(GET, base, None)
  }

  /** That variant always reads below the table's path, goes one level deeper iff a class name is
      given, and then names exactly that class. */
  lemma HeadUrlSelection(dp: string, filterClassName: Option<string>)
    ensures var base := FetchRequest(dp).path; var path := HeadFetchRequest(dp, filterClassName).path;
      |base| <= |path| && path[..|base|] == base &&
      (|path| > |base| <==> filterClassName.Some? && filterClassName.value != "") &&
      (|path| > |base| ==> path[|base|] == '/' && path[|base| + 1..] == filterClassName.value)
  {
  }

  /** The class rows of the reply (`[]` when it has none), filtered when names are
      listed, or the exception raised on the way.  Unfiltered rows have their `len()` logged
      before anything iterates them, so rows without a length fail with that TypeError. */
  function Selected(o: Outcome, names: seq<Value>): Result<Value>
  {
    match o
    case Raised(m) => Err(m)
    case Returned(reply) =>
      match reply.json
      case None => Err(JsonDecodeError)
      case Some(data) =>
        if !data.VDict? then Err(NoGet)
        else
          var table := FieldOr(data, ClassTable, VList([]));
          if names == [] then
            if Len(table).None? then Err(NoLen) else Ok(table)
          else
            match Iter(table)
            case None => Err(NotIterable)
            case Some(rows) =>
              match Filter(ByName, rows, names)
              case Err(m) => Err(m)
              case Ok(kept) => Ok(VList(kept))
  }

  function Run(dp: string, names: seq<Value>, net: Net): RunResult
  {
    var sent := [FetchRequest(dp)];
    match Selected(net(0), names)
    case Err(m) => Failed(m, sent)
    case Ok(table) =>
      match Iter(table)
      case None => Failed(NotIterable, sent)
      case Some(rows) =>
        match Group(ByName, rows)
        case Err(m) => Failed(m, sent)
        case Ok(g) =>
          Exited(Response(table, Summary(|rows|, |g|, Keys(g), names != [], if names != [] then Some(names) else None), g),
                 sent)
  }

  method RunModule(dp: string, names: seq<Value>, net: Net) returns (r: RunResult)
    ensures r == Run(dp, names, net)
  {
    var sent := [FetchRequest(dp)];
    var o := net(0);
    if o.Raised? {
      return Failed(o.msg, sent);
    }
    if o.reply.json.None? {
      return Failed(JsonDecodeError, sent);
    }
    var data := o.reply.json.value;
    if !data.VDict? {
      return Failed(NoGet, sent);
    }
    var table := FieldOr(data, ClassTable, VList([]));
    if names != [] {
      if Iter(table).None? {
        return Failed(NotIterable, sent);
      }
      var kept := FilterByNames(ByName, Iter(table).value, names);
      if kept.Err? {
        return Failed(kept.msg, sent);
      }
      table := VList(kept.value);
    } else if Len(table).None? {
      return Failed(NoLen, sent);
    }
    var rows := Iter(table).value;
    var grouped := GroupByName(ByName, rows);
    if grouped.Err? {
      return Failed(grouped.msg, sent);
    }
    var g := grouped.value;
    return Exited(Response(table, Summary(|rows|, |g|, Keys(g), names != [], if names != [] then Some(names) else None), g),
                  sent);
  }

  /** One GET is sent, whatever happens.  A reported response counts every row once across the
      groups, one group per distinct class name in first-occurrence order, each group holding
      exactly its class's rows; it says it is filtered iff names were listed, and a filtered table
      holds only dict rows whose class is listed.  A JSON dict reply whose rows are a list of
      groupable rows is always reported. Rows with no
      length (`None`, a bool, a number) fail the module: unfiltered with the `len()` TypeError
      raised while logging their count, filtered with the error of iterating them. */
  lemma RunOutcome(dp: string, names: seq<Value>, net: Net)
    ensures Run(dp, names, net).sent == [FetchRequest(dp)]
    ensures var r := Run(dp, names, net);
      r.Exited? ==>
        var s := r.response.summary;
        var g := r.response.breakdown;
        var rows := Iter(r.response.table).value;
        s.totalEntries == Total(g) && s.uniqueClasses == |s.classNames| &&
        UniqueKeys(g) && s.classNames == Keys(g) &&
        FirstOccurrenceOrder(ByName, rows, g) &&
        (forall p :: 0 <= p < |g| ==> Filter(ByName, rows, [g[p].0]) == Ok(g[p].1)) &&
        (s.filtered <==> names != []) &&
        (names != [] ==>
           r.response.table.VList? &&
           forall e :: e in r.response.table.items ==> e.VDict? && NameOf(ByName, e) in names)
    ensures net(0).Returned? && net(0).reply.json.Some? && net(0).reply.json.value.VDict? &&
      FieldOr(net(0).reply.json.value, ClassTable, VList([])).VList? &&
      (forall i :: 0 <= i < |FieldOr(net(0).reply.json.value, ClassTable, VList([])).items| ==>
         !Ungroupable(ByName, FieldOr(net(0).reply.json.value, ClassTable, VList([])).items[i]))
      ==> Run(dp, names, net).Exited?
    ensures net(0).Returned? && net(0).reply.json.Some? && net(0).reply.json.value.VDict? &&
      Len(FieldOr(net(0).reply.json.value, ClassTable, VList([]))).None?
      ==> Run(dp, names, net) == Failed(if names == [] then NoLen else NotIterable, [FetchRequest(dp)])
  {
    var sel := Selected(net(0), names);
    if sel.Ok? && Iter(sel.value).Some? && Group(ByName, Iter(sel.value).value).Ok? {
      var rows := Iter(sel.value).value;
      GroupKeys(ByName, rows);
      GroupOrder(ByName, rows);
      GroupRows(ByName, rows);
      KeysLength(Group(ByName, rows).value);
      if names != [] {
        var table := FieldOr(net(0).reply.json.value, ClassTable, VList([]));
        FilterSound(ByName, Iter(table).value, names);
      }
    }
    if net(0).Returned? && net(0).reply.json.Some? && net(0).reply.json.value.VDict? {
      var table := FieldOr(net(0).reply.json.value, ClassTable, VList([]));
      if table.VList? && forall i :: 0 <= i < |table.items| ==> !Ungroupable(ByName, table.items[i]) {
        if names != [] {
          FilterSound(ByName, table.items, names);
          var kept := Filter(ByName, table.items, names).value;
          forall i | 0 <= i < |kept| ensures !Ungroupable(ByName, kept[i]) {
            assert kept[i] in table.items;
          }
          GroupRaises(ByName, kept);
        } else {
          GroupRaises(ByName, table.items);
        }
      }
    }
  }
}

/** Reading a device table and arranging its rows by a name column, as the `get_*` modules do
    (plugins/modules/get_security_policy.py, plugins/modules/get_network_class.py): an optional
    filter keeping the rows whose name is listed, and a grouping of the rows by name into a dict
    of lists. */
module Grouping {
  import opened Py

  // ---------------------------------------------------------------------------------------------
  // Filtering by name
  // ---------------------------------------------------------------------------------------------

  /** Where a row keeps its name, and the name of a row that has none. */
  datatype NameKey = NameKey(field: string, missing: Value)

  /** `entry.get(field, missing)`: the row's name (the row is known to be a dict where it
      matters). */
  function NameOf(key: NameKey, entry: Value): Value
  {
    FieldOr(entry, key.field, key.missing)
  }

  /** The rows whose name is listed, in their order; a row that is not a dict has no `.get`. */
  function Filter(key: NameKey, entries: seq<Value>, names: seq<Value>): Result<seq<Value>>
    decreases |entries|
  {
    if entries == [] then Ok([])
    else match Filter(key, entries[..|entries| - 1], names)
      case Err(m) => Err(m)
      case Ok(kept) =>
        var e := entries[|entries| - 1];
        if !e.VDict? then Err(NoGet)
        else if NameOf(key, e) in names then Ok(kept + [e])
        else Ok(kept)
  }

  method FilterByNames(key: NameKey, entries: seq<Value>, names: seq<Value>) returns (r: Result<seq<Value>>)
    ensures r == Filter(key, entries, names)
  {
    var kept: seq<Value> := [];
    var i := 0;
    while i < |entries|
      invariant 0 <= i <= |entries|
      invariant Filter(key, entries[..i], names) == Ok(kept)
    {
      assert entries[..i + 1][..i] == entries[..i];
      var e := entries[i];
      if !e.VDict? {
        FilterStaysErr(key, entries, names, i + 1);
        return Err(NoGet);
      }
      if NameOf(key, e) in names {
        kept := kept + [e];
      }
      i := i + 1;
    }
    assert entries[..i] == entries;
    return Ok(kept);
  }

  lemma {:induction false} FilterStaysErr(key: NameKey, entries: seq<Value>, names: seq<Value>, i: nat)
    requires i <= |entries| && Filter(key, entries[..i], names).Err?
    ensures Filter(key, entries, names) == Filter(key, entries[..i], names)
    decreases |entries| - i
  {
    if i < |entries| {
      assert entries[..i + 1][..i] == entries[..i];
      FilterStaysErr(key, entries, names, i + 1);
    } else {
      assert entries[..i] == entries;
    }
  }

  /** Filtering distributes over concatenation, and a single row is kept iff its name is listed:
      the filter keeps exactly the listed rows, in their original order. */
  lemma {:induction false} FilterAppend(key: NameKey, a: seq<Value>, b: seq<Value>, names: seq<Value>)
    requires Filter(key, a, names).Ok? && Filter(key, b, names).Ok?
    ensures Filter(key, a + b, names) == Ok(Filter(key, a, names).value + Filter(key, b, names).value)
    decreases |b|
  {
    if b == [] {
      assert a + b == a;
      assert Filter(key, a, names).value + Filter(key, b, names).value == Filter(key, a, names).value;
    } else {
      var b0 := b[..|b| - 1];
      assert (a + b)[..|a + b| - 1] == a + b0;
      assert Filter(key, b0, names).Ok?;
      FilterAppend(key, a, b0, names);
      var e := b[|b| - 1];
      if NameOf(key, e) in names {
        assert Filter(key, a, names).value + Filter(key, b0, names).value + [e] == Filter(key, a, names).value + (Filter(key, b0, names).value + [e]);
      }
    }
  }

  /** Filtering fails iff some row is not a dict; otherwise a row is kept iff it is listed, and
      the kept rows are no more than the rows. */
  lemma {:induction false} FilterSound(key: NameKey, entries: seq<Value>, names: seq<Value>)
    ensures Filter(key, entries, names).Err? <==> exists i :: 0 <= i < |entries| && !entries[i].VDict?
    ensures Filter(key, entries, names).Ok? ==>
      |Filter(key, entries, names).value| <= |entries| &&
      forall e :: e in Filter(key, entries, names).value <==> e in entries && NameOf(key, e) in names
    decreases |entries|
  {
    if entries != [] {
      var init := entries[..|entries| - 1];
      FilterSound(key, init, names);
      assert entries == init + [entries[|entries| - 1]];
    }
  }

  /** Rows of which none is listed filter to nothing. */
  lemma {:induction false} FilterNone(key: NameKey, entries: seq<Value>, names: seq<Value>)
    requires forall i :: 0 <= i < |entries| ==> entries[i].VDict? && NameOf(key, entries[i]) !in names
    ensures Filter(key, entries, names) == Ok([])
    decreases |entries|
  {
    if entries != [] {
      var n := |entries| - 1;
      assert forall i :: 0 <= i < n ==> entries[..n][i] == entries[i];
      FilterNone(key, entries[..n], names);
    }
  }

  /** A row kept alone: the single-row filter is the row or nothing. */
  lemma FilterOne(key: NameKey, e: Value, names: seq<Value>)
    requires e.VDict?
    ensures Filter(key, [e], names) == Ok(if NameOf(key, e) in names then [e] else [])
  {
    assert [e][..|[e]| - 1] == [];
    assert Filter(key, [e][..|[e]| - 1], names) == Ok([]);
    assert [] + [e] == [e];
  }

  // ---------------------------------------------------------------------------------------------
  // Grouping by name
  // ---------------------------------------------------------------------------------------------

  /** A dict of lists: name to its rows, in first-occurrence order of the names. */
  type Groups = seq<(Value, seq<Value>)>

  /** The grouping loop over `entries`, or the exception it raises: a row that is not a dict has
      no `.get`, and a list or dict name cannot be a dict key. */
  function Group(key: NameKey, entries: seq<Value>): Result<Groups>
    decreases |entries|
  {
    if entries == [] then Ok([])
    else match Group(key, entries[..|entries| - 1])
      case Err(m) => Err(m)
      case Ok(g) =>
        var e := entries[|entries| - 1];
        if !e.VDict? then Err(NoGet)
        else if !Hashable(NameOf(key, e)) then Err(Unhashable)
        else Ok(Put(g, NameOf(key, e), GetOr(g, NameOf(key, e), []) + [e]))
  }

  /** The same groups with each row shown by `show`. */
  function FormatGroups(g: Groups, show: Value -> Value): Groups
  {
    seq(|g|, i requires 0 <= i < |g| =>
      (g[i].0, seq(|g[i].1|, j requires 0 <= j < |g[i].1| => show(g[i].1[j]))))
  }

  /** Total number of grouped rows. */
  function Total(g: Groups): nat
  {
    if g == [] then 0 else Total(g[..|g| - 1]) + |g[|g| - 1].1|
  }


  /** `for entry in rows: summary.setdefault(entry.get(key, ''), []).append(entry)`, spelled as
      the modules spell it. */
  method GroupByName(key: NameKey, entries: seq<Value>) returns (r: Result<Groups>)
    ensures r == Group(key, entries)
  {
    var summary: Groups := [];
    var i := 0;
    while i < |entries|
      invariant 0 <= i <= |entries|
      invariant Group(key, entries[..i]) == Ok(summary)
    {
      assert entries[..i + 1][..i] == entries[..i];
      var e := entries[i];
      if !e.VDict? {
        GroupStaysErr(key, entries, i + 1);
        return Err(NoGet);
      }
      var name := NameOf(key, e);
      if !Hashable(name) {
        GroupStaysErr(key, entries, i + 1);
        return Err(Unhashable);
      }
      summary := Put(summary, name, GetOr(summary, name, []) + [e]);
      i := i + 1;
    }
    assert entries[..i] == entries;
    return Ok(summary);
  }

  lemma {:induction false} GroupStaysErr(key: NameKey, entries: seq<Value>, i: nat)
    requires i <= |entries| && Group(key, entries[..i]).Err?
    ensures Group(key, entries) == Group(key, entries[..i])
    decreases |entries| - i
  {
    if i < |entries| {
      assert entries[..i + 1][..i] == entries[..i];
      GroupStaysErr(key, entries, i + 1);
    } else {
      assert entries[..i] == entries;
    }
  }

  /** Appending a row to its group commutes with showing the groups' rows. */
  lemma FormatPut(g: Groups, name: Value, e: Value, show: Value -> Value)
    ensures FormatGroups(Put(g, name, GetOr(g, name, []) + [e]), show) ==
      Put(FormatGroups(g, show), name, GetOr(FormatGroups(g, show), name, []) + [show(e)])
  {
    var f := FormatGroups(g, show);
    KeysOfFormat(g, show);
    GetSome(g, name);
    GetSome(f, name);
    if name in Keys(g) {
      var p := FirstIndex(g, name);
      FormatPutAt(g, p, name, e, show);
    } else {
      assert GetOr(g, name, []) + [e] == [e];
      assert GetOr(f, name, []) + [show(e)] == [show(e)];
      PutNew(g, name, [e]);
      PutNew(f, name, [show(e)]);
      var g' := g + [(name, [e])];
      assert FormatGroups(g', show)[|g|].1 == [show(e)];
      assert FormatGroups(g', show) == f + [(name, [show(e)])];
    }
  }

  lemma FormatPutAt(g: Groups, p: nat, name: Value, e: Value, show: Value -> Value)
    requires p < |g| && g[p].0 == name && forall j :: 0 <= j < p ==> g[j].0 != name
    ensures FormatGroups(Put(g, name, GetOr(g, name, []) + [e]), show) ==
      Put(FormatGroups(g, show), name, GetOr(FormatGroups(g, show), name, []) + [show(e)])
  {
    var f := FormatGroups(g, show);
    GetAt(g, p, name);
    GetAt(f, p, name);
    PutAt(g, p, name, g[p].1 + [e]);
    PutAt(f, p, name, f[p].1 + [show(e)]);
    var rows := g[p].1 + [e];
    var g' := g[p := (name, rows)];
    var shown := FormatGroups(g', show)[p].1;
    assert |shown| == |rows|;
    assert forall j :: 0 <= j < |rows| ==> shown[j] == show(rows[j]);
    assert shown == f[p].1 + [show(e)];
    assert FormatGroups(g', show) == f[p := (name, f[p].1 + [show(e)])];
  }

  lemma {:induction false} KeysOfFormat(g: Groups, show: Value -> Value)
    ensures Keys(FormatGroups(g, show)) == Keys(g)
    decreases |g|
  {
    if g != [] {
      assert FormatGroups(g, show)[1..] == FormatGroups(g[1..], show);
      KeysOfFormat(g[1..], show);
    }
  }

  /** Showing the rows differently keeps every group's size. */
  lemma {:induction false} TotalOfFormat(g: Groups, show: Value -> Value)
    ensures Total(FormatGroups(g, show)) == Total(g)
    decreases |g|
  {
    if g != [] {
      var n := |g| - 1;
      assert FormatGroups(g, show)[..n] == FormatGroups(g[..n], show);
      TotalOfFormat(g[..n], show);
    }
  }

  // ---------------------------------------------------------------------------------------------
  // What the grouping promises
  // ---------------------------------------------------------------------------------------------

  /** A row the grouping cannot take: not a dict, or named by a list or dict. */
  predicate Ungroupable(key: NameKey, e: Value)
  {
    !e.VDict? || !Hashable(NameOf(key, e))
  }

  lemma {:induction false} TotalUpdate(g: Groups, p: nat, k: Value, rows: seq<Value>)
    requires p < |g|
    ensures Total(g[p := (k, rows)]) + |g[p].1| == Total(g) + |rows|
    decreases |g|
  {
    var g' := g[p := (k, rows)];
    var n := |g| - 1;
    if p < n {
      assert g'[..n] == g[..n][p := (k, rows)];
      TotalUpdate(g[..n], p, k, rows);
    } else {
      assert g'[..n] == g[..n];
    }
  }

  lemma TotalAppend(g: Groups, k: Value, rows: seq<Value>)
    ensures Total(g + [(k, rows)]) == Total(g) + |rows|
  {
    assert (g + [(k, rows)])[..|g|] == g;
  }

  /** Adding one row to the groups: names stay distinct, the row's name becomes a name if it
      was not one, and the total grows by one. */
  lemma GroupStep(g0: Groups, x: Value, e: Value)
    requires UniqueKeys(g0)
    ensures var g := Put(g0, x, GetOr(g0, x, []) + [e]);
      UniqueKeys(g) && Total(g) == Total(g0) + 1 && (forall y :: y in Keys(g) <==> y in Keys(g0) || y == x)
  {
    var rows := GetOr(g0, x, []) + [e];
    GetSome(g0, x);
    KeysPut(g0, x, rows);
    UniqueKeysPut(g0, x, rows);
    if x in Keys(g0) {
      var p := FirstIndex(g0, x);
      GetAt(g0, p, x);
      PutAt(g0, p, x, rows);
      TotalUpdate(g0, p, x, rows);
    } else {
      PutNew(g0, x, rows);
      TotalAppend(g0, x, rows);
    }
  }

  /** The grouping raises iff some row cannot be grouped. */
  lemma {:induction false} GroupRaises(key: NameKey, entries: seq<Value>)
    ensures Group(key, entries).Err? <==> exists i :: 0 <= i < |entries| && Ungroupable(key, entries[i])
    decreases |entries|
  {
    if entries != [] {
      var n := |entries| - 1;
      GroupRaises(key, entries[..n]);
      assert forall i :: 0 <= i < n ==> entries[..n][i] == entries[i];
    }
  }

  /** A successful grouping is the grouping of all rows but the last, with the last row added
      to its group. */
  lemma GroupLast(key: NameKey, entries: seq<Value>)
    requires entries != [] && Group(key, entries).Ok?
    ensures var n := |entries| - 1; var e := entries[n];
      Group(key, entries[..n]).Ok? && !Ungroupable(key, e) &&
      Group(key, entries).value ==
        Put(Group(key, entries[..n]).value, NameOf(key, e), GetOr(Group(key, entries[..n]).value, NameOf(key, e), []) + [e])
  {
  }

  /** The names of `g` are exactly the names of the rows. */
  ghost predicate NamesOf(key: NameKey, entries: seq<Value>, g: Groups)
  {
    forall x :: x in Keys(g) <==> exists i :: 0 <= i < |entries| && NameOf(key, entries[i]) == x
  }

  /** The group names are distinct and are exactly the names of the rows, and the group sizes
      add up to the number of rows. */
  lemma {:induction false} GroupKeys(key: NameKey, entries: seq<Value>)
    requires Group(key, entries).Ok?
    ensures var g := Group(key, entries).value;
      UniqueKeys(g) && Total(g) == |entries| && NamesOf(key, entries, g)
    decreases |entries|
  {
    if entries != [] {
      var n := |entries| - 1;
      var init := entries[..n];
      GroupLast(key, entries);
      GroupKeys(key, init);
      GroupStep(Group(key, init).value, NameOf(key, entries[n]), entries[n]);
      assert entries == init + [entries[n]];
      NamesStep(key, init, entries[n], Group(key, init).value, Group(key, entries).value);
    }
  }

  lemma NamesStep(key: NameKey, init: seq<Value>, e: Value, g0: Groups, g: Groups)
    requires NamesOf(key, init, g0)
    requires forall y :: y in Keys(g) <==> y in Keys(g0) || y == NameOf(key, e)
    ensures NamesOf(key, init + [e], g)
  {
    var entries := init + [e];
    forall x ensures x in Keys(g) <==> exists i :: 0 <= i < |entries| && NameOf(key, entries[i]) == x {
      if x in Keys(g0) {
        var i :| 0 <= i < |init| && NameOf(key, init[i]) == x;
        assert entries[i] == init[i];
      }
      if x == NameOf(key, e) {
        assert entries[|init|] == e;
      }
      if exists i :: 0 <= i < |entries| && NameOf(key, entries[i]) == x {
        var i :| 0 <= i < |entries| && NameOf(key, entries[i]) == x;
        if i < |init| { assert entries[i] == init[i]; }
      }
    }
  }


  /** Each group holds exactly the rows of its name, in their order: what the name filter keeps
      when only that name is listed. */
  lemma {:induction false} GroupRows(key: NameKey, entries: seq<Value>)
    requires Group(key, entries).Ok?
    ensures var g := Group(key, entries).value;
      forall p :: 0 <= p < |g| ==> Filter(key, entries, [g[p].0]) == Ok(g[p].1)
    decreases |entries|
  {
    if entries != [] {
      var n := |entries| - 1;
      var init := entries[..n];
      var e := entries[n];
      var x := NameOf(key, e);
      GroupRows(key, init);
      GroupKeys(key, init);
      GroupRaises(key, init);
      var g0 := Group(key, init).value;
      var g := Group(key, entries).value;
      forall p | 0 <= p < |g| ensures Filter(key, entries, [g[p].0]) == Ok(g[p].1) {
        FilterSound(key, init, [g[p].0]);
        assert Filter(key, init, [g[p].0]).Ok?;
        var rows := GetOr(g0, x, []) + [e];
        GetSome(g0, x);
        if x in Keys(g0) {
          var p0 := FirstIndex(g0, x);
          GetAt(g0, p0, x);
          PutAt(g0, p0, x, rows);
          if p != p0 {
            assert g[p] == g0[p];
          }
        } else {
          assert rows == [e];
          PutNew(g0, x, rows);
          if p == |g0| {
            assert g[p] == (x, [e]);
            assert forall i :: 0 <= i < n ==> NameOf(key, init[i]) != x;
            FilterNone(key, init, [x]);
          } else {
            assert g[p] == g0[p];
            KeysAt(g0, p);
          }
        }
      }
    }
  }

  /** Before any row of a later group, some row of each earlier group has appeared. */
  ghost predicate FirstOccurrenceOrder(key: NameKey, entries: seq<Value>, g: Groups)
  {
    forall p, q, j :: 0 <= p < q < |g| && 0 <= j < |entries| && NameOf(key, entries[j]) == g[q].0 ==>
      SeenBefore(key, entries, g[p].0, j)
  }

  /** Some row before position `j` is named `x`. */
  ghost predicate SeenBefore(key: NameKey, entries: seq<Value>, x: Value, j: int)
  {
    exists i :: 0 <= i < j && i < |entries| && NameOf(key, entries[i]) == x
  }

  /** The order of the groups survives showing their rows differently. */
  lemma OrderOfFormat(key: NameKey, entries: seq<Value>, g: Groups, show: Value -> Value)
    requires FirstOccurrenceOrder(key, entries, g)
    ensures FirstOccurrenceOrder(key, entries, FormatGroups(g, show))
  {
    var f := FormatGroups(g, show);
    forall p, q, j | 0 <= p < q < |f| && 0 <= j < |entries| && NameOf(key, entries[j]) == f[q].0
      ensures SeenBefore(key, entries, f[p].0, j)
    {
      assert f[q].0 == g[q].0 && f[p].0 == g[p].0;
    }
  }

  /** Renewing a group's rows keeps the order when the new row's name already has a group. */
  lemma OrderStepOld(key: NameKey, init: seq<Value>, e: Value, g0: Groups, p0: nat, rows: seq<Value>)
    requires FirstOccurrenceOrder(key, init, g0) && NamesOf(key, init, g0)
    requires p0 < |g0| && g0[p0].0 == NameOf(key, e)
    ensures FirstOccurrenceOrder(key, init + [e], g0[p0 := (NameOf(key, e), rows)])
  {
    var entries := init + [e];
    var g := g0[p0 := (NameOf(key, e), rows)];
    assert |g| == |g0|;
    forall p, q, j | 0 <= p < q < |g| && 0 <= j < |entries|
      ensures NameOf(key, entries[j]) == g[q].0 ==> SeenBefore(key, entries, g[p].0, j)
    {
      if NameOf(key, entries[j]) == g[q].0 {
        assert g[p].0 == g0[p].0 && g[q].0 == g0[q].0;
        var i := OrderWitness(key, init, e, g0, p, q, j);
        assert 0 <= i < j && NameOf(key, entries[i]) == g[p].0;
      }
    }
  }

  lemma OrderWitness(key: NameKey, init: seq<Value>, e: Value, g0: Groups, p: nat, q: nat, j: nat) returns (i: nat)
    requires FirstOccurrenceOrder(key, init, g0) && NamesOf(key, init, g0)
    requires p < q < |g0| && j <= |init|
    requires NameOf(key, (init + [e])[j]) == g0[q].0
    ensures i < j && NameOf(key, (init + [e])[i]) == g0[p].0
  {
    var entries := init + [e];
    var n := |init|;
    if j == n {
      KeysAt(g0, q);
      var j' :| 0 <= j' < n && NameOf(key, init[j']) == g0[q].0;
      assert SeenBefore(key, init, g0[p].0, j');
      i :| 0 <= i < j' && NameOf(key, init[i]) == g0[p].0;
    } else {
      assert entries[j] == init[j];
      assert SeenBefore(key, init, g0[p].0, j);
      i :| 0 <= i < j && NameOf(key, init[i]) == g0[p].0;
    }
    assert entries[i] == init[i];
  }

  lemma OrderStepNew(key: NameKey, init: seq<Value>, e: Value, g0: Groups)
    requires FirstOccurrenceOrder(key, init, g0) && NamesOf(key, init, g0)
    requires NameOf(key, e) !in Keys(g0)
    ensures FirstOccurrenceOrder(key, init + [e], g0 + [(NameOf(key, e), [e])])
  {
    var entries := init + [e];
    var n := |init|;
    var g := g0 + [(NameOf(key, e), [e])];
    forall p, q, j | 0 <= p < q < |g| && 0 <= j < |entries| && NameOf(key, entries[j]) == g[q].0
      ensures SeenBefore(key, entries, g[p].0, j)
    {
      assert g[p] == g0[p];
      KeysAt(g0, p);
      if q < |g0| {
        assert g[q] == g0[q];
        KeysAt(g0, q);
        if j == n {
          assert false;
        }
        assert entries[j] == init[j];
        var i :| 0 <= i < j && NameOf(key, init[i]) == g0[p].0;
        assert entries[i] == init[i];
      } else {
        if j < n {
          assert false;
        }
        var i :| 0 <= i < n && NameOf(key, init[i]) == g0[p].0;
        assert entries[i] == init[i];
      }
    }
  }

  /** The groups come in first-occurrence order of their names: before any row of a later group,
      some row of each earlier group has already appeared. */
  lemma {:induction false} GroupOrder(key: NameKey, entries: seq<Value>)
    requires Group(key, entries).Ok?
    ensures FirstOccurrenceOrder(key, entries, Group(key, entries).value)
    decreases |entries|
  {
    if entries != [] {
      var n := |entries| - 1;
      var init := entries[..n];
      var e := entries[n];
      var x := NameOf(key, e);
      GroupLast(key, entries);
      GroupOrder(key, init);
      GroupKeys(key, init);
      var g0 := Group(key, init).value;
      var rows := GetOr(g0, x, []) + [e];
      GetSome(g0, x);
      assert entries == init + [e];
      if x in Keys(g0) {
        var p0 := FirstIndex(g0, x);
        PutAt(g0, p0, x, rows);
        OrderStepOld(key, init, e, g0, p0, rows);
      } else {
        assert rows == [e];
        PutNew(g0, x, rows);
        OrderStepNew(key, init, e, g0);
      }
    }
  }

  // ---------------------------------------------------------------------------------------------
  // Indexing rows by a key
  // ---------------------------------------------------------------------------------------------

  /** `r[key]` as a dict key: a row that is not a dict, lacks `key` or holds a list or dict
      there raises. */
  function ItemKey(key: string, r: Value): Result<Value>
  {
    match Subscript(r, key)
    case Err(m) => Err(m)
    case Ok(k) => if Hashable(k) then Ok(k) else Err(Unhashable)
  }

  function ItemKeyOf(key: string): Value -> Result<Value>
  {
    r => ItemKey(key, r)
  }

  /** `r.get(key)` as a dict key: a row that is not a dict or holds a list or dict there raises;
      a missing key is `None`. */
  function GetKey(key: string, r: Value): Result<Value>
  {
    if !r.VDict? then Err(NoGet)
    else if Hashable(FieldOr(r, key, VNone)) then Ok(FieldOr(r, key, VNone))
    else Err(Unhashable)
  }

  function GetKeyOf(key: string): Value -> Result<Value>
  {
    r => GetKey(key, r)
  }

  /** `{keyOf(r): r for r in rows}`: a later row replaces an earlier one with the same key, and
      the first row whose key cannot be taken (or cannot be a dict key) raises. */
  function Index(keyOf: Value -> Result<Value>, rows: seq<Value>): Result<seq<(Value, Value)>>
    decreases |rows|
  {
    if rows == [] then Ok([])
    else
      var d := Index(keyOf, rows[..|rows| - 1]);
      var r := rows[|rows| - 1];
      if d.Err? then d
      else if keyOf(r).Err? then Err(keyOf(r).msg)
      else Ok(Put(d.value, keyOf(r).value, r))
  }

  /** Row `i` is the last row with key `k`. */
  predicate LastKeyed(keyOf: Value -> Result<Value>, rows: seq<Value>, i: int, k: Value)
  {
    0 <= i < |rows| && keyOf(rows[i]) == Ok(k) &&
    forall j :: i < j < |rows| ==> keyOf(rows[j]) != Ok(k)
  }

  /** Indexing raises iff some row has no usable key. */
  lemma {:induction false} IndexRaises(keyOf: Value -> Result<Value>, rows: seq<Value>)
    ensures Index(keyOf, rows).Err? <==> exists i :: 0 <= i < |rows| && keyOf(rows[i]).Err?
    decreases |rows|
  {
    if rows != [] {
      var n := |rows| - 1;
      IndexRaises(keyOf, rows[..n]);
      assert forall i :: 0 <= i < n ==> rows[..n][i] == rows[i];
    }
  }

  /** The indexed keys are distinct. */
  lemma {:induction false} IndexUnique(keyOf: Value -> Result<Value>, rows: seq<Value>)
    requires Index(keyOf, rows).Ok?
    ensures UniqueKeys(Index(keyOf, rows).value)
    decreases |rows|
  {
    if rows != [] {
      var n := |rows| - 1;
      IndexUnique(keyOf, rows[..n]);
      UniqueKeysPut(Index(keyOf, rows[..n]).value, keyOf(rows[n]).value, rows[n]);
    }
  }

  /** A key is indexed iff some row carries it. */
  lemma {:induction false} IndexKeys(keyOf: Value -> Result<Value>, rows: seq<Value>, k: Value)
    requires Index(keyOf, rows).Ok?
    ensures Get(Index(keyOf, rows).value, k).Some? <==> exists i :: 0 <= i < |rows| && keyOf(rows[i]) == Ok(k)
    decreases |rows|
  {
    if rows != [] {
      var n := |rows| - 1;
      var init := rows[..n];
      IndexKeys(keyOf, init, k);
      var k' := keyOf(rows[n]).value;
      GetPut(Index(keyOf, init).value, k', rows[n], k);
      if k' != k && exists i :: 0 <= i < |rows| && keyOf(rows[i]) == Ok(k) {
        var i :| 0 <= i < |rows| && keyOf(rows[i]) == Ok(k);
        assert i < n && init[i] == rows[i];
      }
      if exists i :: 0 <= i < n && keyOf(init[i]) == Ok(k) {
        var i :| 0 <= i < n && keyOf(init[i]) == Ok(k);
        assert rows[i] == init[i];
      }
    }
  }

  /** A key finds the last row carrying it: a later duplicate replaces an earlier one. */
  lemma {:induction false} IndexLastWins(keyOf: Value -> Result<Value>, rows: seq<Value>, i: nat, k: Value)
    requires Index(keyOf, rows).Ok? && LastKeyed(keyOf, rows, i, k)
    ensures Get(Index(keyOf, rows).value, k) == Some(rows[i])
    decreases |rows|
  {
    var n := |rows| - 1;
    var init := rows[..n];
    var d0 := Index(keyOf, init).value;
    GetPut(d0, keyOf(rows[n]).value, rows[n], k);
    if i < n {
      assert keyOf(rows[n]) != Ok(k);
      assert LastKeyed(keyOf, init, i, k) by {
        assert forall j :: i < j < n ==> init[j] == rows[j];
      }
      IndexLastWins(keyOf, init, i, k);
    }
  }

  // ---------------------------------------------------------------------------------------------
  // Nesting rows under their names
  // ---------------------------------------------------------------------------------------------

  /** The loop that files each row, read by `row` as a name and the value shown for it, under
      its name: `nested.setdefault(name, []).append(shown)`. */
  function Nest(row: Value -> Result<(Value, Value)>, entries: seq<Value>): Result<Groups>
    decreases |entries|
  {
    if entries == [] then Ok([])
    else
      var g := Nest(row, entries[..|entries| - 1]);
      var r := row(entries[|entries| - 1]);
      if g.Err? then g
      else if r.Err? then Err(r.msg)
      else Ok(Put(g.value, r.value.0, GetOr(g.value, r.value.0, []) + [r.value.1]))
  }

  method NestRows(row: Value -> Result<(Value, Value)>, entries: seq<Value>) returns (res: Result<Groups>)
    ensures res == Nest(row, entries)
  {
    var nested: Groups := [];
    var i := 0;
    while i < |entries|
      invariant 0 <= i <= |entries|
      invariant Nest(row, entries[..i]) == Ok(nested)
    {
      assert entries[..i + 1][..i] == entries[..i];
      var r := row(entries[i]);
      if r.Err? {
        NestStaysErr(row, entries, i + 1);
        return Err(r.msg);
      }
      var (name, shown) := r.value;
      nested := Put(nested, name, GetOr(nested, name, []) + [shown]);
      i := i + 1;
    }
    assert entries[..i] == entries;
    return Ok(nested);
  }

  lemma {:induction false} NestStaysErr(row: Value -> Result<(Value, Value)>, entries: seq<Value>, i: nat)
    requires i <= |entries| && Nest(row, entries[..i]).Err?
    ensures Nest(row, entries) == Nest(row, entries[..i])
    decreases |entries| - i
  {
    if i < |entries| {
      assert entries[..i + 1][..i] == entries[..i];
      NestStaysErr(row, entries, i + 1);
    } else {
      assert entries[..i] == entries;
    }
  }

  /** Nesting raises iff some row cannot be read. */
  lemma {:induction false} NestRaises(row: Value -> Result<(Value, Value)>, entries: seq<Value>)
    ensures Nest(row, entries).Err? <==> exists i :: 0 <= i < |entries| && row(entries[i]).Err?
    decreases |entries|
  {
    if entries != [] {
      var n := |entries| - 1;
      NestRaises(row, entries[..n]);
      assert forall i :: 0 <= i < n ==> entries[..n][i] == entries[i];
    }
  }

  /** How `row` shows a row it can read. */
  function ShownBy(row: Value -> Result<(Value, Value)>): Value -> Value
  {
    e => if row(e).Ok? then row(e).value.1 else VNone
  }

  /** `row` names every row it can read as `key` does. */
  ghost predicate NamesAs(key: NameKey, row: Value -> Result<(Value, Value)>)
  {
    forall e :: row(e).Ok? ==> !Ungroupable(key, e) && NameOf(key, e) == row(e).value.0
  }

  /** When `row` names rows as `key` does, nesting is grouping by `key` with each row shown. */
  lemma {:induction false} NestGroups(key: NameKey, row: Value -> Result<(Value, Value)>, entries: seq<Value>)
    requires NamesAs(key, row) && Nest(row, entries).Ok?
    ensures Group(key, entries).Ok?
    ensures Nest(row, entries).value == FormatGroups(Group(key, entries).value, ShownBy(row))
    decreases |entries|
  {
    if entries != [] {
      var n := |entries| - 1;
      var init := entries[..n];
      var e := entries[n];
      NestGroups(key, row, init);
      var g0 := Group(key, init).value;
      var name := row(e).value.0;
      assert Group(key, entries) == Ok(Put(g0, name, GetOr(g0, name, []) + [e]));
      FormatPut(g0, name, e, ShownBy(row));
    }
  }

  /** Nested names are distinct and come in the order the rows first name them; there is one
      shown value per row, and each name holds the shown values of exactly its rows, in row
      order. */
  lemma NestShape(key: NameKey, row: Value -> Result<(Value, Value)>, entries: seq<Value>)
    requires NamesAs(key, row) && Nest(row, entries).Ok?
    ensures var b := Nest(row, entries).value;
      UniqueKeys(b) && Total(b) == |entries| && FirstOccurrenceOrder(key, entries, b) &&
      NamesOf(key, entries, b) &&
      forall p :: 0 <= p < |b| ==>
        Filter(key, entries, [b[p].0]).Ok? &&
        var rows := Filter(key, entries, [b[p].0]).value;
        |b[p].1| == |rows| && forall j :: 0 <= j < |rows| ==> b[p].1[j] == ShownBy(row)(rows[j])
  {
    NestGroups(key, row, entries);
    var g := Group(key, entries).value;
    var b := Nest(row, entries).value;
    GroupKeys(key, entries);
    GroupOrder(key, entries);
    GroupRows(key, entries);
    KeysOfFormat(g, ShownBy(row));
    TotalOfFormat(g, ShownBy(row));
    OrderOfFormat(key, entries, g, ShownBy(row));
    forall p | 0 <= p < |b| ensures b[p].0 == g[p].0 {
    }
  }

  // ---------------------------------------------------------------------------------------------
  // Keeping the listed names
  // ---------------------------------------------------------------------------------------------

  /** `[p for p in all_profiles if p["profile_name"] in names]` when names are listed, and every
      entry when none is. */
  function Listed<T>(d: seq<(Value, T)>, names: seq<Value>): seq<(Value, T)>
  {
    if names == [] then d
    else if d == [] then []
    else Listed(d[..|d| - 1], names) + if d[|d| - 1].0 in names then [d[|d| - 1]] else []
  }

  /** With names listed, an entry is kept iff its name is listed, and no entry is added; with
      none listed, every entry is kept. */
  lemma {:induction false} ListedKeeps<T>(d: seq<(Value, T)>, names: seq<Value>)
    ensures names == [] ==> Listed(d, names) == d
    ensures forall e :: e in Listed(d, names) <==> e in d && (names == [] || e.0 in names)
    ensures |Listed(d, names)| <= |d|
    decreases |d|
  {
    if names != [] && d != [] {
      ListedKeeps(d[..|d| - 1], names);
      assert d == d[..|d| - 1] + [d[|d| - 1]];
    }
  }

  /** `Listed` distributes over concatenation, so the kept entries keep their relative order. */
  lemma {:induction false} ListedAppend<T>(a: seq<(Value, T)>, b: seq<(Value, T)>, names: seq<Value>)
    requires names != []
    ensures Listed(a + b, names) == Listed(a, names) + Listed(b, names)
    decreases |b|
  {
    if b != [] {
      var n := |b| - 1;
      assert (a + b)[..|a + b| - 1] == a + b[..n];
      ListedAppend(a, b[..n], names);
    } else {
      assert a + b == a;
    }
  }

  /** `list(profiles.values())` of a dict of `{'profile_name': name, 'protections': [...]}`. */
  function ProfileList(g: Groups): seq<Value>
  {
    seq(|g|, i requires 0 <= i < |g| => VDict([("profile_name", g[i].0), ("protections", VList(g[i].1))]))
  }
}

/** The shape shared by every `translate_params` / `map_*_parameters` function of the collection:
    a loop over `params.items()` that, for each pair, skips it, stores a (renamed key, translated
    value) pair in a fresh dict, or raises.  Each module supplies its own per-pair step. */
module Tables {
  import opened Py

  /** What one `(key, value)` pair contributes to the translated dict. */
  datatype Emit = Skip | Emit(key: string, value: Value) | Reject(msg: string)

  /** The dict built from `params` by `step`, or the first exception raised. */
  function Translate(params: Dict, step: (string, Value) -> Emit): Result<Dict>
    decreases |params|
  {
    if params == [] then Ok([])
    else match Translate(params[..|params| - 1], step)
      case Err(m) => Err(m)
      case Ok(d) =>
        match step(params[|params| - 1].0, params[|params| - 1].1)
        case Skip => Ok(d)
        case Emit(k, v) => Ok(Put(d, k, v))
        case Reject(m) => Err(m)
  }

  method TranslateLoop(params: Dict, step: (string, Value) -> Emit) returns (r: Result<Dict>)
    ensures r == Translate(params, step)
  {
    var d: Dict := [];
    var i := 0;
    while i < |params|
      invariant 0 <= i <= |params|
      invariant Translate(params[..i], step) == Ok(d)
    {
      assert params[..i + 1][..i] == params[..i];
      var (k, v) := params[i];
      match step(k, v) {
        case Skip =>
        case Emit(k', v') => d := Put(d, k', v');
        case Reject(m) =>
          TranslateStaysErr(params, step, i + 1);
          return Err(m);
      }
      i := i + 1;
    }
    assert params[..i] == params;
    return Ok(d);
  }

  lemma {:induction false} TranslateStaysErr(params: Dict, step: (string, Value) -> Emit, i: nat)
    requires i <= |params| && Translate(params[..i], step).Err?
    ensures Translate(params, step) == Translate(params[..i], step)
    decreases |params| - i
  {
    if i < |params| {
      assert params[..i + 1][..i] == params[..i];
      TranslateStaysErr(params, step, i + 1);
    } else {
      assert params[..i] == params;
    }
  }

  /** The step applied to the i-th pair. */
  function StepAt(params: Dict, step: (string, Value) -> Emit, i: int): Emit
    requires 0 <= i < |params|
  {
    step(params[i].0, params[i].1)
  }

  /** Distinct source keys never land on the same translated key. */
  ghost predicate Injective(step: (string, Value) -> Emit)
  {
    forall k1, v1, k2, v2 :: step(k1, v1).Emit? && step(k2, v2).Emit? && step(k1, v1).key == step(k2, v2).key ==> k1 == k2
  }

  /** The translation raises exactly when some pair is rejected, and then with the first
      rejection's message. */
  lemma {:induction false} TranslateRaises(params: Dict, step: (string, Value) -> Emit)
    ensures Translate(params, step).Err? <==> exists i :: 0 <= i < |params| && StepAt(params, step, i).Reject?
    ensures Translate(params, step).Err? ==>
      exists i :: 0 <= i < |params| && StepAt(params, step, i) == Reject(Translate(params, step).msg) &&
                  forall j :: 0 <= j < i ==> !StepAt(params, step, j).Reject?
    decreases |params|
  {
    if params != [] {
      var init := params[..|params| - 1];
      TranslateRaises(init, step);
      forall j | 0 <= j < |init| ensures StepAt(init, step, j) == StepAt(params, step, j) {
        assert init[j] == params[j];
      }
      if Translate(params, step).Err? && Translate(init, step).Ok? {
        assert StepAt(params, step, |params| - 1).Reject?;
      }
    }
  }

  /** A successful translation holds exactly the keys some pair emits, each with the value of
      the last pair that emits it; with an injective step that is the value its own pair emits. */
  lemma {:induction false} TranslateContents(params: Dict, step: (string, Value) -> Emit)
    requires Translate(params, step).Ok?
    ensures var d := Translate(params, step).value;
      (forall k :: k in Keys(d) <==> exists i :: 0 <= i < |params| && StepAt(params, step, i).Emit? && StepAt(params, step, i).key == k) &&
      UniqueKeys(d) &&
      (Injective(step) && UniqueKeys(params) ==>
         forall i :: 0 <= i < |params| && StepAt(params, step, i).Emit? ==>
           Get(d, StepAt(params, step, i).key) == Some(StepAt(params, step, i).value))
    decreases |params|
  {
    if params != [] {
      var init := params[..|params| - 1];
      var n := |params| - 1;
      TranslateContents(init, step);
      var d0 := Translate(init, step).value;
      forall j | 0 <= j < |init| ensures StepAt(init, step, j) == StepAt(params, step, j) {
        assert init[j] == params[j];
      }
      var e := StepAt(params, step, n);
      var d := Translate(params, step).value;
      if e.Emit? {
        KeysPut(d0, e.key, e.value);
        UniqueKeysPut(d0, e.key, e.value);
        forall k ensures Get(d, k) == if k == e.key then Some(e.value) else Get(d0, k) {
          GetPut(d0, e.key, e.value, k);
        }
        if Injective(step) && UniqueKeys(params) {
          forall i | 0 <= i < |params| && StepAt(params, step, i).Emit?
            ensures Get(d, StepAt(params, step, i).key) == Some(StepAt(params, step, i).value)
          {
          }
        }
      }
    }
  }

  /** Translating forwards and then backwards gives the normalised input when the backward step
      undoes every forward emission and the normalising step skips what the forward step skips. */
  lemma {:induction false} RoundTrip(params: Dict, fwd: (string, Value) -> Emit, back: (string, Value) -> Emit,
                                      norm: (string, Value) -> Emit)
    requires UniqueKeys(params) && Injective(fwd)
    requires Translate(params, fwd).Ok?
    requires forall k, v :: fwd(k, v).Emit? ==> back(fwd(k, v).key, fwd(k, v).value) == norm(k, v)
    requires forall k, v :: fwd(k, v).Skip? ==> norm(k, v).Skip?
    ensures Translate(Translate(params, fwd).value, back) == Translate(params, norm)
    decreases |params|
  {
    if params != [] {
      var init := params[..|params| - 1];
      var n := |params| - 1;
      assert UniqueKeys(init) by {
        forall i, j | 0 <= i < j < |init| ensures init[i].0 != init[j].0 { assert init[i] == params[i] && init[j] == params[j]; }
      }
      RoundTrip(init, fwd, back, norm);
      var d0 := Translate(init, fwd).value;
      var (k, v) := params[n];
      match fwd(k, v)
      case Skip =>
      case Reject(_) =>
      case Emit(fk, fv) =>
        TranslateContents(init, fwd);
        forall j | 0 <= j < |init| ensures StepAt(init, fwd, j) == StepAt(params, fwd, j) {
          assert init[j] == params[j];
        }
        assert fk !in Keys(d0);
        PutNew(d0, fk, fv);
        var d := d0 + [(fk, fv)];
        assert d[..|d| - 1] == d0;
    }
  }

  /** A key of a successful translation is present iff some pair emits it, and then it holds
      the value emitted by the last such pair (later pairs overwrite earlier ones). */
  lemma {:induction false} TranslateLastWins(params: Dict, step: (string, Value) -> Emit, k: string)
    requires Translate(params, step).Ok?
    ensures Get(Translate(params, step).value, k).Some? <==>
      exists i :: 0 <= i < |params| && StepAt(params, step, i).Emit? && StepAt(params, step, i).key == k
    ensures Get(Translate(params, step).value, k).Some? ==>
      exists i :: 0 <= i < |params| && StepAt(params, step, i) == Emit(k, Get(Translate(params, step).value, k).value) &&
        forall j :: i < j < |params| ==> !(StepAt(params, step, j).Emit? && StepAt(params, step, j).key == k)
    decreases |params|
  {
    if params != [] {
      var init := params[..|params| - 1];
      var n := |params| - 1;
      TranslateLastWins(init, step, k);
      forall j | 0 <= j < |init| ensures StepAt(init, step, j) == StepAt(params, step, j) {
        assert init[j] == params[j];
      }
      var e := StepAt(params, step, n);
      var d0 := Translate(init, step).value;
      if e.Emit? {
        GetPut(d0, e.key, e.value, k);
      }
    }
  }

  /** A step that never raises gives a translation that never raises. */
  lemma {:induction false} TranslateTotal(params: Dict, step: (string, Value) -> Emit)
    requires forall k, v :: !step(k, v).Reject?
    ensures Translate(params, step).Ok?
    decreases |params|
  {
    if params != [] { TranslateTotal(params[..|params| - 1], step); }
  }

  // ---------------------------------------------------------------------------------------------
  // Splitting a dict by key
  // ---------------------------------------------------------------------------------------------

  /** `{k: v for k, v in d.items() if keep(k)}`. */
  function Select(d: Dict, keep: string -> bool): Dict
  {
    if d == [] then [] else Select(d[..|d| - 1], keep) + (if keep(d[|d| - 1].0) then [d[|d| - 1]] else [])
  }

  /** `{k: v for k, v in d.items() if not keep(k)}`. */
  function Omit(d: Dict, keep: string -> bool): Dict
  {
    if d == [] then [] else Omit(d[..|d| - 1], keep) + (if keep(d[|d| - 1].0) then [] else [d[|d| - 1]])
  }

  /** The two halves of a split partition the dict: every entry lands in exactly one of them,
      the one its key selects, and none is invented. */
  lemma {:induction false} SplitPartition(d: Dict, keep: string -> bool)
    ensures |Select(d, keep)| + |Omit(d, keep)| == |d|
    ensures forall e :: e in Select(d, keep) <==> e in d && keep(e.0)
    ensures forall e :: e in Omit(d, keep) <==> e in d && !keep(e.0)
    decreases |d|
  {
    if d != [] {
      SplitPartition(d[..|d| - 1], keep);
      assert d == d[..|d| - 1] + [d[|d| - 1]];
    }
  }

  // ---------------------------------------------------------------------------------------------
  // Lookup tables
  // ---------------------------------------------------------------------------------------------

  /** A Python dict literal mapping words to words (a rename table or an enum table). */
  type Table = seq<(string, string)>

  /** `{v: k for k, v in t.items()}`. */
  function Invert(t: Table): Table
  {
    if t == [] then [] else Put(Invert(t[..|t| - 1]), t[|t| - 1].1, t[|t| - 1].0)
  }

  /** `list(t.keys())`. */
  function KeyList(t: Table): Value
  {
    VList(seq(|t|, i requires 0 <= i < |t| => VStr(t[i].0)))
  }

  /** `t.get(v, v)` on a table of string codes: a listed code reads as its word and anything
      else is kept as it is; a list or dict cannot be looked up (`TypeError`). */
  function Lookup(t: Table, v: Value): Result<Value>
  {
    if !Hashable(v) then Err(Unhashable)
    else if v.VStr? && Get(t, v.s).Some? then Ok(VStr(Get(t, v.s).value))
    else Ok(v)
  }

  /** Looking up fails only for an unhashable value; a value changes only when it is a code the
      table lists, and then it becomes that code's word. */
  lemma LookupReads(t: Table, v: Value)
    ensures Lookup(t, v).Err? <==> !Hashable(v)
    ensures Lookup(t, v).Ok? && Lookup(t, v).value != v ==>
      v.VStr? && Lookup(t, v).value.VStr? && (v.s, Lookup(t, v).value.s) in t
    ensures Lookup(t, v).Ok? && v.VStr? && v.s in Keys(t) ==> Lookup(t, v).value.VStr?
  {
    if v.VStr? {
      GetSome(t, v.s);
    }
  }

  /** `t.get(str(v), v)`: the word of the code `v` prints as, or `v` itself; it never raises,
      since `str(v)` is always a valid key. */
  function StrLookup(t: Table, v: Value): Value
  {
    match Get(t, Str(v))
    case Some(word) => VStr(word)
    case None => v
  }

  /** A value whose string form is a code reads back as that code's word, the same for an
      integer and its decimal string; any other value is kept as it is. */
  lemma StrLookupReads(t: Table, v: Value)
    ensures Get(t, Str(v)).None? ==> StrLookup(t, v) == v
    ensures Get(t, Str(v)).Some? ==> StrLookup(t, v).VStr? && (Str(v), StrLookup(t, v).s) in t
    ensures v.VInt? && Get(t, Str(v)).Some? ==> StrLookup(t, v) == StrLookup(t, VStr(IntToString(v.i)))
  {
    if Get(t, Str(v)).Some? {
      GetSome(t, Str(v));
    }
  }

  /** How a `get_*` module reads a row back: device column to playbook key, and per key the
      codes read back as words. */
  datatype FieldMaps = FieldMaps(fields: Table, enums: seq<(string, Table)>)

  /** The keys whose column `profile` sets to something other than `None`, in the order of
      `fieldMap` (device column to playbook key). */
  function Present(fieldMap: Table, profile: Value): seq<string>
    decreases |fieldMap|
  {
    if fieldMap == [] then []
    else
      var n := |fieldMap| - 1;
      Present(fieldMap[..n], profile) + if FieldOr(profile, fieldMap[n].0, VNone) == VNone then [] else [fieldMap[n].1]
  }

  /** A key that `fieldMap` does not name is never present. */
  lemma {:induction false} PresentNot(fieldMap: Table, profile: Value, u: string)
    requires forall i :: 0 <= i < |fieldMap| ==> fieldMap[i].1 != u
    ensures u !in Present(fieldMap, profile)
    decreases |fieldMap|
  {
    if fieldMap != [] {
      var n := |fieldMap| - 1;
      assert forall i :: 0 <= i < n ==> fieldMap[..n][i] == fieldMap[i];
      PresentNot(fieldMap[..n], profile, u);
    }
  }

  /** The keys of `fieldMap` but the last differ from the last one. */
  lemma LastDistinct(fieldMap: Table)
    requires fieldMap != [] && UniqueValues(fieldMap)
    ensures var n := |fieldMap| - 1;
      UniqueValues(fieldMap[..n]) && forall i :: 0 <= i < n ==> fieldMap[..n][i].1 != fieldMap[n].1
  {
    var n := |fieldMap| - 1;
    assert forall i :: 0 <= i < n ==> fieldMap[..n][i] == fieldMap[i];
  }

  /** A word table undoes a code table: every code a word maps to maps back to that word. */
  ghost predicate WordsInvert(codes: Table, words: Table)
  {
    forall w :: Get(codes, w).Some? ==> Get(words, Get(codes, w).value) == Some(w)
  }

  predicate UniqueValues(t: Table)
  {
    forall i, j :: 0 <= i < j < |t| ==> t[i].1 != t[j].1
  }

  /** Inverting a table with distinct keys and distinct values gives a table that maps every
      value back to its key, and nothing else. */
  lemma {:induction false} InvertInverts(t: Table)
    requires UniqueKeys(t) && UniqueValues(t)
    ensures forall i :: 0 <= i < |t| ==> Get(Invert(t), t[i].1) == Some(t[i].0)
    ensures forall w :: Get(Invert(t), w).Some? ==> Get(t, Get(Invert(t), w).value) == Some(w)
    decreases |t|
  {
    if t != [] {
      var init := t[..|t| - 1];
      var n := |t| - 1;
      assert UniqueKeys(init) && UniqueValues(init) by {
        forall i, j | 0 <= i < j < |init| ensures init[i].0 != init[j].0 && init[i].1 != init[j].1 { assert init[i] == t[i] && init[j] == t[j]; }
      }
      InvertInverts(init);
      forall w ensures Get(Invert(t), w) == if w == t[n].1 then Some(t[n].0) else Get(Invert(init), w) {
        GetPut(Invert(init), t[n].1, t[n].0, w);
      }
      forall k ensures Get(t, k) == if k == t[n].0 then Some(t[n].1) else Get(init, k) {
        GetLast(t, k);
      }
      forall i | 0 <= i < |t| ensures Get(Invert(t), t[i].1) == Some(t[i].0) {
        if i < n { assert init[i] == t[i]; }
      }
      forall w | Get(Invert(t), w).Some? ensures Get(t, Get(Invert(t), w).value) == Some(w) {
        if w != t[n].1 {
          var k := Get(Invert(init), w).value;
          GetSome(init, k);
          KeysLength(init);
        }
      }
    }
  }

  /** Looking up a key in a dict is looking it up in the prefix unless it is the last key. */
  lemma {:induction false} GetLast<K, V>(d: seq<(K, V)>, k: K)
    requires d != [] && UniqueKeys(d)
    ensures Get(d, k) == if k == d[|d| - 1].0 then Some(d[|d| - 1].1) else Get(d[..|d| - 1], k)
    decreases |d|
  {
    if |d| > 1 {
      var t := d[1..];
      assert UniqueKeys(t) by {
        forall i, j | 0 <= i < j < |t| ensures t[i].0 != t[j].0 { assert t[i] == d[i + 1] && t[j] == d[j + 1]; }
      }
      GetLast(t, k);
      assert t[..|t| - 1] == d[..|d| - 1][1..];
      assert t[|t| - 1] == d[|d| - 1];
    }
  }

  // ---------------------------------------------------------------------------------------------
  // The creating mappers
  // ---------------------------------------------------------------------------------------------

  /** The message of the `ValueError` a creating mapper raises for a word outside an enum
      table: `prefix`, the value, then the key and the table's words. */
  function InvalidWord(prefix: string, key: string, value: Value, codes: Table): string
  {
    prefix + Str(value) + "' for " + key + ". Allowed: " + Str(KeyList(codes))
  }

  /** One pair of a creating mapper: `m.fields` maps playbook keys to device columns and
      `m.enums` maps a playbook key to its word-to-code table.  An unknown key is dropped, an
      enumerated value is looked up lowercased and must be found, and any other value is
      stringified. */
  function CreateStep(m: FieldMaps, prefix: string, key: string, value: Value): Emit
  {
    match Get(m.fields, key)
    case None => Skip
    case Some(api) =>
      match Get(m.enums, key)
      case None => Emit(api, VStr(Str(value)))
      case Some(codes) =>
        match Get(codes, Lower(Str(value)))
        case Some(code) => Emit(api, VStr(code))
        case None => Reject(InvalidWord(prefix, key, value, codes))
  }

  function CreateStepOf(m: FieldMaps, prefix: string): (string, Value) -> Emit
  {
    (key, value) => CreateStep(m, prefix, key, value)
  }

  /** Two playbook keys never land on the same device column when the columns are distinct. */
  lemma CreateStepInjective(m: FieldMaps, prefix: string)
    requires UniqueValues(m.fields)
    ensures Injective(CreateStepOf(m, prefix))
  {
    var step := CreateStepOf(m, prefix);
    forall k1, v1, k2, v2 | step(k1, v1).Emit? && step(k2, v2).Emit? && step(k1, v1).key == step(k2, v2).key
      ensures k1 == k2
    {
      var a := step(k1, v1).key;
      GetSome(m.fields, k1);
      GetSome(m.fields, k2);
      var i :| 0 <= i < |m.fields| && m.fields[i] == (k1, a);
      var j :| 0 <= j < |m.fields| && m.fields[j] == (k2, a);
      assert i == j;
    }
  }

  /** A creating mapper raises exactly when some known enumerated value is outside its table;
      otherwise it holds exactly the device columns of the known keys, each once. */
  lemma CreateContents(m: FieldMaps, prefix: string, params: Dict)
    ensures Translate(params, CreateStepOf(m, prefix)).Err? <==>
      exists i :: 0 <= i < |params| && Get(m.fields, params[i].0).Some? && Get(m.enums, params[i].0).Some? &&
                  Get(Get(m.enums, params[i].0).value, Lower(Str(params[i].1))).None?
    ensures Translate(params, CreateStepOf(m, prefix)).Ok? ==>
      var d := Translate(params, CreateStepOf(m, prefix)).value;
      UniqueKeys(d) && forall k :: k in Keys(d) <==> exists i :: 0 <= i < |params| && Get(m.fields, params[i].0) == Some(k)
  {
    var step := CreateStepOf(m, prefix);
    forall i | 0 <= i < |params|
      ensures StepAt(params, step, i).Reject? <==>
        Get(m.fields, params[i].0).Some? && Get(m.enums, params[i].0).Some? &&
        Get(Get(m.enums, params[i].0).value, Lower(Str(params[i].1))).None?
      ensures StepAt(params, step, i).Emit? <==> Get(m.fields, params[i].0).Some? && !StepAt(params, step, i).Reject?
      ensures StepAt(params, step, i).Emit? ==> Get(m.fields, params[i].0) == Some(StepAt(params, step, i).key)
    {
      CreateStepShape(m, prefix, params[i].0, params[i].1);
    }
    TranslateRaises(params, step);
    if Translate(params, step).Ok? {
      TranslateContents(params, step);
    }
  }

  lemma CreateStepShape(m: FieldMaps, prefix: string, key: string, value: Value)
    ensures CreateStep(m, prefix, key, value).Reject? <==>
      Get(m.fields, key).Some? && Get(m.enums, key).Some? && Get(Get(m.enums, key).value, Lower(Str(value))).None?
    ensures CreateStep(m, prefix, key, value).Emit? <==> Get(m.fields, key).Some? && !CreateStep(m, prefix, key, value).Reject?
    ensures CreateStep(m, prefix, key, value).Emit? ==> Get(m.fields, key) == Some(CreateStep(m, prefix, key, value).key)
  {
  }

  /** For an accepted dict with distinct keys, a known key's column holds exactly what that key
      maps to: its code when enumerated, its string otherwise. */
  lemma CreateValue(m: FieldMaps, prefix: string, params: Dict, i: nat)
    requires UniqueKeys(params) && UniqueValues(m.fields) && i < |params|
    requires Translate(params, CreateStepOf(m, prefix)).Ok? && Get(m.fields, params[i].0).Some?
    ensures var api, d, v := Get(m.fields, params[i].0).value, Translate(params, CreateStepOf(m, prefix)).value, params[i].1;
      match Get(m.enums, params[i].0)
      case None => Get(d, api) == Some(VStr(Str(v)))
      case Some(codes) => Get(codes, Lower(Str(v))).Some? && Get(d, api) == Some(VStr(Get(codes, Lower(Str(v))).value))
  {
    var step := CreateStepOf(m, prefix);
    CreateStepInjective(m, prefix);
    TranslateRaises(params, step);
    TranslateContents(params, step);
    assert !StepAt(params, step, i).Reject?;
  }

  /** One pair of a reverse mapper: `m.fields` maps device columns to playbook keys and
      `m.enums` maps a column to its code-to-word table.  Every key is kept, renamed when known,
      and a value whose column has a table is read back by its `str()`. */
  function ReverseStep(m: FieldMaps, key: string, value: Value): Emit
  {
    Emit(GetOr(m.fields, key, key), match Get(m.enums, key) case Some(t) => StrLookup(t, value) case None => value)
  }

  function ReverseStepOf(m: FieldMaps): (string, Value) -> Emit
  {
    (key, value) => ReverseStep(m, key, value)
  }

  /** The reference a round trip is measured against: the known playbook keys, with enumerated
      words lowercased (and rejected as the creating mapper rejects them) and every other value
      stringified. */
  function NormalStep(m: FieldMaps, prefix: string, key: string, value: Value): Emit
  {
    match Get(m.fields, key)
    case None => Skip
    case Some(_) =>
      match Get(m.enums, key)
      case None => Emit(key, VStr(Str(value)))
      case Some(codes) =>
        if Get(codes, Lower(Str(value))).Some? then Emit(key, VStr(Lower(Str(value))))
        else Reject(InvalidWord(prefix, key, value, codes))
  }

  function NormalStepOf(m: FieldMaps, prefix: string): (string, Value) -> Emit
  {
    (key, value) => NormalStep(m, prefix, key, value)
  }

  /** The reverse maps undo the creating maps at a known key: its column leads back to it, and
      its column has a table exactly when the key has one, which reads every code back as its
      word. */
  ghost predicate KeyInverts(create: FieldMaps, reverse: FieldMaps, key: string)
    requires Get(create.fields, key).Some?
  {
    var api := Get(create.fields, key).value;
    Get(reverse.fields, api) == Some(key) &&
    match Get(create.enums, key)
    case None => Get(reverse.enums, api).None?
    case Some(codes) => Get(reverse.enums, api).Some? && WordsInvert(codes, Get(reverse.enums, api).value)
  }

  ghost predicate MapsInvert(create: FieldMaps, reverse: FieldMaps)
  {
    forall key :: Get(create.fields, key).Some? ==> KeyInverts(create, reverse, key)
  }

  /** Round trip: when the reverse maps undo the creating maps, reverse-mapping what the
      creating mapper produced gives back the accepted input restricted to the known keys, with
      enumerated words lowercased and other values stringified. */
  lemma CreateRoundTrip(create: FieldMaps, reverse: FieldMaps, prefix: string, params: Dict)
    requires UniqueKeys(params) && UniqueValues(create.fields) && MapsInvert(create, reverse)
    requires Translate(params, CreateStepOf(create, prefix)).Ok?
    ensures Translate(Translate(params, CreateStepOf(create, prefix)).value, ReverseStepOf(reverse)) ==
      Translate(params, NormalStepOf(create, prefix))
  {
    var fwd, back, norm := CreateStepOf(create, prefix), ReverseStepOf(reverse), NormalStepOf(create, prefix);
    CreateStepInjective(create, prefix);
    forall k, v | fwd(k, v).Emit? ensures back(fwd(k, v).key, fwd(k, v).value) == norm(k, v) {
      assert KeyInverts(create, reverse, k);
    }
    RoundTrip(params, fwd, back, norm);
  }

  // ---------------------------------------------------------------------------------------------
  // Request bodies built by conditional insertion
  // ---------------------------------------------------------------------------------------------

  /** One `if ...: request_body[column] = value` of a body builder, with the change description
      recorded beside it: the column and, when the condition holds, the value and the text. */
  datatype Slot = Slot(column: string, entry: Option<(Value, string)>)

  /** A request body and its change descriptions. */
  datatype Built = Built(body: Dict, changes: seq<string>)

  predicate ColumnsDistinct(slots: seq<Slot>)
  {
    forall i, j :: 0 <= i < j < |slots| ==> slots[i].column != slots[j].column
  }

  /** The body and change list that the insertions build, in order. */
  function Fill(slots: seq<Slot>): Built
    decreases |slots|
  {
    if slots == [] then Built([], [])
    else
      var b := Fill(slots[..|slots| - 1]);
      var last := slots[|slots| - 1];
      match last.entry
      case None => b
      case Some((v, text)) => Built(Put(b.body, last.column, v), b.changes + [text])
  }

  method FillLoop(slots: seq<Slot>) returns (body: Dict, changes: seq<string>)
    ensures Built(body, changes) == Fill(slots)
  {
    body, changes := [], [];
    var i := 0;
    while i < |slots|
      invariant 0 <= i <= |slots|
      invariant Fill(slots[..i]) == Built(body, changes)
    {
      assert slots[..i + 1][..i] == slots[..i];
      match slots[i].entry {
        case None =>
        case Some((v, text)) =>
          body := Put(body, slots[i].column, v);
          changes := changes + [text];
      }
      i := i + 1;
    }
    assert slots[..i] == slots;
  }

  /** One more insertion. */
  lemma FillNext(slots: seq<Slot>, n: nat)
    requires n < |slots|
    ensures Fill(slots[..n + 1]) == match slots[n].entry
      case None => Fill(slots[..n])
      case Some((v, text)) => Built(Put(Fill(slots[..n]).body, slots[n].column, v), Fill(slots[..n]).changes + [text])
  {
    assert slots[..n + 1][..n] == slots[..n];
  }

  /** The body has distinct keys, each the column of a slot whose condition held; it is empty
      exactly when no condition held; every recorded text is that of a slot whose condition held
      and, with distinct columns, there is one text per key. */
  lemma {:induction false} FillShape(slots: seq<Slot>)
    ensures UniqueKeys(Fill(slots).body)
    ensures forall k :: k in Keys(Fill(slots).body) ==>
      exists i :: 0 <= i < |slots| && slots[i].column == k && slots[i].entry.Some?
    ensures Fill(slots).body == [] <==> forall i :: 0 <= i < |slots| ==> slots[i].entry.None?
    ensures forall t :: t in Fill(slots).changes ==>
      exists i :: 0 <= i < |slots| && slots[i].entry.Some? && slots[i].entry.value.1 == t
    ensures ColumnsDistinct(slots) ==> |Fill(slots).changes| == |Fill(slots).body|
    decreases |slots|
  {
    if slots != [] {
      var init := slots[..|slots| - 1];
      var last := slots[|slots| - 1];
      FillShape(init);
      var b := Fill(init);
      assert forall i :: 0 <= i < |init| ==> init[i] == slots[i];
      match last.entry {
        case None =>
        case Some((v, text)) =>
          UniqueKeysPut(b.body, last.column, v);
          KeysPut(b.body, last.column, v);
          assert Put(b.body, last.column, v) != [];
          if ColumnsDistinct(slots) {
            assert ColumnsDistinct(init);
            assert last.column !in Keys(b.body);
            PutNew(b.body, last.column, v);
          }
      }
    }
  }

  /** With distinct columns, each column holds its slot's value exactly when its condition
      held. */
  lemma {:induction false} FillGet(slots: seq<Slot>, i: nat)
    requires ColumnsDistinct(slots) && i < |slots|
    ensures Get(Fill(slots).body, slots[i].column) == match slots[i].entry case Some(e) => Some(e.0) case None => None
    decreases |slots|
  {
    var init := slots[..|slots| - 1];
    var last := slots[|slots| - 1];
    var b := Fill(init);
    assert forall j :: 0 <= j < |init| ==> init[j] == slots[j];
    assert ColumnsDistinct(init);
    if i < |init| {
      FillGet(init, i);
    } else {
      FillShape(init);
      GetSome(b.body, last.column);
    }
    if last.entry.Some? {
      GetPut(b.body, last.column, last.entry.value.0, slots[i].column);
    }
  }
}

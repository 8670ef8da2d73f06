/** Pieces shared by the modules that create or edit one profile with one request
    (`edit_https_profile`, `edit_http_profile`, `create_http_profile`, `create_ssl_object_con`,
    `edit_dns_profile`, `edit_oos_profile`, `create_syn_protection`, `create_syn_profile`):
    how such a module ends, `int(v) if str(v).isdigit() else v`, and the two per-pair steps
    that several of their `translate_params` functions share. */
module SingleProfile {
  import opened Py
  import opened Http
  import opened Tables

  /** How a single-profile module ends: `exit_json` with `changed`, the `response` (absent when
      the module exits without it) and the requests sent; or `fail_json` with its message. */
  datatype Exit =
    | Exited(changed: bool, response: Option<Value>, sent: seq<Request>)
    | Failed(msg: string, sent: seq<Request>)

  // ---------------------------------------------------------------------------------------------
  // `int(v) if str(v).isdigit() else v`
  // ---------------------------------------------------------------------------------------------

  /** A digit string with a superfluous leading zero, which `int()` does not give back. */
  predicate Padded(s: string)
  {
    IsDigits(s) && |s| > 1 && s[0] == '0'
  }

  /** `int(v) if str(v).isdigit() else v`: a value whose string is all digits becomes the
      integer `int(v)` gives, and any other value is kept. */
  function DigitsToInt(v: Value): (r: Value)
    ensures IsDigits(Str(v)) ==> r.VInt? && ToInt(v) == IntOk(r.i) && r.i >= 0
    ensures !IsDigits(Str(v)) ==> r == v
  {
    DigitStrings(v);
    if IsDigits(Str(v)) then VInt(DigitsValue(Str(v))) else v
  }

  /** Only integers and strings have an all-digit `str()`, and `int()` reads them as those
      digits. */
  lemma DigitStrings(v: Value)
    ensures IsDigits(Str(v)) ==> ToInt(v) == IntOk(DigitsValue(Str(v)))
  {
    match v
    case VInt(i) =>
      if i >= 0 {
        NatToStringDigits(i);
      } else {
        assert Str(v)[0] == '-';
      }
    case VStr(s) =>
      if IsDigits(s) {
        StripTrimmed(s);
      }
    case VList(_) => assert Str(v)[0] == '[';
    case VDict(_) => assert Str(v)[0] == '{';
    case VNone =>
    case VBool(_) =>
  }

  lemma {:induction false} DigitsPositive(s: string)
    requires IsDigits(s) && s[0] != '0'
    ensures DigitsValue(s) >= 1
    decreases |s|
  {
    if |s| > 1 {
      var init := s[..|s| - 1];
      assert init[0] == s[0];
      DigitsPositive(init);
    }
  }

  /** `str(int(s)) == s` for a digit string without a superfluous leading zero. */
  lemma {:induction false} DigitsCanonical(s: string)
    requires IsDigits(s) && !Padded(s)
    ensures NatToString(DigitsValue(s)) == s
    decreases |s|
  {
    var n := DigitsValue(s);
    var d := s[|s| - 1] as int - '0' as int;
    if |s| == 1 {
      assert s[..|s| - 1] == [];
      assert DigitsValue(s[..|s| - 1]) == 0;
      assert [DigitChar(d)] == s;
    } else {
      var init := s[..|s| - 1];
      assert init[0] == s[0];
      DigitsPositive(init);
      DigitsCanonical(init);
      assert n / 10 == DigitsValue(init) && n % 10 == d;
      assert s == init + [s[|s| - 1]];
    }
  }

  /** Converting digits to an integer does not change a value's string unless the digits carry
      a superfluous leading zero. */
  lemma StrDigitsToInt(v: Value)
    requires !Padded(Str(v))
    ensures Str(DigitsToInt(v)) == Str(v)
  {
    if IsDigits(Str(v)) {
      DigitsCanonical(Str(v));
    }
  }

  // ---------------------------------------------------------------------------------------------
  // The all-strings step: `ENUM_MAPS[k].get(str(v), str(v))`, else `str(v)`
  // ---------------------------------------------------------------------------------------------

  /** One pair of an editing `translate_params` that sends only strings: the key is renamed
      through `m.fields` when known and kept otherwise; an enumerated value is looked up by its
      exact `str()` and falls back to that string; any other value becomes its string. */
  function StrStep(m: FieldMaps, key: string, value: Value): Emit
  {
    Emit(GetOr(m.fields, key, key),
         VStr(match Get(m.enums, key) case Some(codes) => GetOr(codes, Str(value), Str(value)) case None => Str(value)))
  }

  function StrStepOf(m: FieldMaps): (string, Value) -> Emit
  {
    (key, value) => StrStep(m, key, value)
  }

  /** The all-strings translation never raises, sends only strings, and holds exactly the
      renamed keys, each with what its last pair sends. */
  lemma StrTranslation(m: FieldMaps, params: Dict)
    ensures Translate(params, StrStepOf(m)).Ok?
    ensures var d := Translate(params, StrStepOf(m)).value;
      (forall j :: 0 <= j < |d| ==> d[j].1.VStr?) &&
      forall k :: Get(d, k).Some? <==> exists i :: 0 <= i < |params| && GetOr(m.fields, params[i].0, params[i].0) == k
  {
    var step := StrStepOf(m);
    TranslateTotal(params, step);
    TranslateSends(params, step, (v: Value) => v.VStr?);
    forall k ensures Get(Translate(params, step).value, k).Some? <==>
      exists i :: 0 <= i < |params| && GetOr(m.fields, params[i].0, params[i].0) == k
    {
      TranslateLastWins(params, step, k);
      forall i | 0 <= i < |params| ensures StepAt(params, step, i).key == GetOr(m.fields, params[i].0, params[i].0) {
      }
    }
  }

  /** On a known key, and on an enumerated value that is already a lowercase word of its
      table, the all-strings step sends what a creating mapper with the same tables sends. */
  predicate Agreeable(m: FieldMaps, key: string, value: Value)
  {
    Get(m.fields, key).Some? &&
    (Get(m.enums, key).Some? ==> Get(Get(m.enums, key).value, Str(value)).Some? && Lower(Str(value)) == Str(value))
  }

  /** With the same tables, the all-strings translation of a dict of known keys and lowercase
      words is exactly what the creating mapper produces. */
  lemma StrAgreesWithCreate(m: FieldMaps, prefix: string, params: Dict)
    requires forall i :: 0 <= i < |params| ==> Agreeable(m, params[i].0, params[i].1)
    ensures Translate(params, StrStepOf(m)) == Translate(params, CreateStepOf(m, prefix))
  {
    forall i | 0 <= i < |params| ensures StepAt(params, StrStepOf(m), i) == StepAt(params, CreateStepOf(m, prefix), i) {
      assert Agreeable(m, params[i].0, params[i].1);
    }
    TranslateAgree(params, StrStepOf(m), CreateStepOf(m, prefix));
  }

  // ---------------------------------------------------------------------------------------------
  // The integer step: `NUMERIC_MAPPING[k].get(str(v), v)`, else `int(v) if str(v).isdigit() else v`
  // ---------------------------------------------------------------------------------------------

  /** A word-to-integer enum table. */
  type Codes = seq<(string, int)>

  datatype IntMaps = IntMaps(fields: Table, enums: seq<(string, Codes)>)

  /** One pair of a creating `translate_params` that sends integers: the key is renamed through
      `m.fields` when known and kept otherwise; an enumerated value is looked up by its exact
      `str()` and falls back to the value itself; any other value is converted to an integer
      when its string is all digits. */
  function IntStep(m: IntMaps, key: string, value: Value): Emit
  {
    Emit(GetOr(m.fields, key, key),
         match Get(m.enums, key)
         case Some(codes) => (match Get(codes, Str(value)) case Some(c) => VInt(c) case None => value)
         case None => DigitsToInt(value))
  }

  function IntStepOf(m: IntMaps): (string, Value) -> Emit
  {
    (key, value) => IntStep(m, key, value)
  }

  /** The same words and the same fields, with every code written as its decimal string. */
  ghost predicate Stringified(ints: IntMaps, strs: FieldMaps)
  {
    ints.fields == strs.fields &&
    forall key :: (Get(ints.enums, key).Some? <==> Get(strs.enums, key).Some?) &&
      (Get(ints.enums, key).Some? ==>
         forall w :: (Get(Get(ints.enums, key).value, w).Some? <==> Get(Get(strs.enums, key).value, w).Some?) &&
           (Get(Get(ints.enums, key).value, w).Some? ==>
              Get(Get(strs.enums, key).value, w).value == IntToString(Get(Get(ints.enums, key).value, w).value)))
  }

  /** An integer enum table with every code written as its decimal string. */
  function StrCodes(codes: Codes): (r: Table)
    ensures |r| == |codes| && forall j :: 0 <= j < |codes| ==> r[j] == (codes[j].0, IntToString(codes[j].1))
  {
    if codes == [] then [] else [(codes[0].0, IntToString(codes[0].1))] + StrCodes(codes[1..])
  }

  lemma {:induction false} GetStrCodes(codes: Codes, w: string)
    ensures Get(StrCodes(codes), w) == match Get(codes, w) case Some(c) => Some(IntToString(c)) case None => None
  {
    if codes != [] {
      GetStrCodes(codes[1..], w);
      assert StrCodes(codes)[1..] == StrCodes(codes[1..]);
    }
  }

  /** Enum tables listed key by key, each the other's codes as strings. */
  predicate StringifiedAt(ints: seq<(string, Codes)>, strs: seq<(string, Table)>)
  {
    |ints| == |strs| && forall j :: 0 <= j < |ints| ==> strs[j] == (ints[j].0, StrCodes(ints[j].1))
  }

  lemma {:induction false} GetStringifiedAt(ints: seq<(string, Codes)>, strs: seq<(string, Table)>, key: string)
    requires StringifiedAt(ints, strs)
    ensures Get(ints, key).Some? <==> Get(strs, key).Some?
    ensures Get(ints, key).Some? ==> Get(strs, key).value == StrCodes(Get(ints, key).value)
  {
    if ints != [] {
      assert StringifiedAt(ints[1..], strs[1..]) by {
        forall j | 0 <= j < |ints[1..]| ensures strs[1..][j] == (ints[1..][j].0, StrCodes(ints[1..][j].1)) {
          assert strs[j + 1] == (ints[j + 1].0, StrCodes(ints[j + 1].1));
        }
      }
      GetStringifiedAt(ints[1..], strs[1..], key);
      assert strs[0] == (ints[0].0, StrCodes(ints[0].1));
    }
  }

  /** Tables written side by side, key by key, are stringified. */
  lemma StringifiedByIndex(ints: IntMaps, strs: FieldMaps)
    requires ints.fields == strs.fields && StringifiedAt(ints.enums, strs.enums)
    ensures Stringified(ints, strs)
  {
    forall key ensures (Get(ints.enums, key).Some? <==> Get(strs.enums, key).Some?) &&
      (Get(ints.enums, key).Some? ==>
         forall w :: (Get(Get(ints.enums, key).value, w).Some? <==> Get(Get(strs.enums, key).value, w).Some?) &&
           (Get(Get(ints.enums, key).value, w).Some? ==>
              Get(Get(strs.enums, key).value, w).value == IntToString(Get(Get(ints.enums, key).value, w).value)))
    {
      GetStringifiedAt(ints.enums, strs.enums, key);
      if Get(ints.enums, key).Some? {
        forall w ensures (Get(Get(ints.enums, key).value, w).Some? <==> Get(Get(strs.enums, key).value, w).Some?) &&
           (Get(Get(ints.enums, key).value, w).Some? ==>
              Get(Get(strs.enums, key).value, w).value == IntToString(Get(Get(ints.enums, key).value, w).value))
        {
          GetStrCodes(Get(ints.enums, key).value, w);
        }
      }
    }
  }

  /** A value the all-strings step and the integer step treat alike: an enumerated value, or a
      plain value whose string is not a zero-padded number. */
  predicate Unpadded(ints: IntMaps, key: string, value: Value)
  {
    Get(ints.enums, key).None? ==> !Padded(Str(value))
  }

  /** With stringified tables, the all-strings translation is the integer translation with
      every value turned into its string. */
  lemma StrOfIntTranslation(ints: IntMaps, strs: FieldMaps, params: Dict)
    requires Stringified(ints, strs)
    requires forall i :: 0 <= i < |params| ==> Unpadded(ints, params[i].0, params[i].1)
    ensures Translate(params, IntStepOf(ints)).Ok?
    ensures Translate(params, StrStepOf(strs)) == Ok(MapValues(Translate(params, IntStepOf(ints)).value, StrValue))
  {
    var a, b := IntStepOf(ints), StrStepOf(strs);
    forall i | 0 <= i < |params|
      ensures StepAt(params, a, i).Emit? && StepAt(params, b, i) == Emit(StepAt(params, a, i).key, StrValue(StepAt(params, a, i).value))
    {
      var (k, v) := params[i];
      assert Unpadded(ints, k, v);
      match Get(ints.enums, k)
      case None =>
        StrDigitsToInt(v);
      case Some(codes) =>
        var t := Get(strs.enums, k).value;
        match Get(codes, Str(v))
        case Some(c) =>
        case None =>
          assert Get(t, Str(v)).None?;
    }
    TranslateMapsValues(params, a, b, StrValue);
  }

  function StrValue(v: Value): Value
  {
    VStr(Str(v))
  }

  // ---------------------------------------------------------------------------------------------
  // Facts about translations shared by the steps above
  // ---------------------------------------------------------------------------------------------

  /** Two steps that agree on every pair give the same translation. */
  lemma {:induction false} TranslateAgree(params: Dict, a: (string, Value) -> Emit, b: (string, Value) -> Emit)
    requires forall i :: 0 <= i < |params| ==> StepAt(params, a, i) == StepAt(params, b, i)
    ensures Translate(params, a) == Translate(params, b)
    decreases |params|
  {
    if params != [] {
      var init := params[..|params| - 1];
      forall i | 0 <= i < |init| ensures StepAt(init, a, i) == StepAt(init, b, i) {
        assert init[i] == params[i];
        assert StepAt(params, a, i) == StepAt(params, b, i);
      }
      TranslateAgree(init, a, b);
      assert StepAt(params, a, |params| - 1) == StepAt(params, b, |params| - 1);
    }
  }

  /** Every value of a successful translation is one some pair emits, so a property every
      emitted value has holds of the whole dict. */
  lemma {:induction false} TranslateSends(params: Dict, step: (string, Value) -> Emit, p: Value -> bool)
    requires Translate(params, step).Ok?
    requires forall k, v :: step(k, v).Emit? ==> p(step(k, v).value)
    ensures var d := Translate(params, step).value; forall j :: 0 <= j < |d| ==> p(d[j].1)
    decreases |params|
  {
    if params != [] {
      var init := params[..|params| - 1];
      TranslateSends(init, step, p);
      var d0 := Translate(init, step).value;
      var d := Translate(params, step).value;
      var e := step(params[|params| - 1].0, params[|params| - 1].1);
      if e.Emit? {
        forall j | 0 <= j < |d| ensures p(d[j].1) {
          assert d[j] in Put(d0, e.key, e.value);
          PutMembers(d0, e.key, e.value, d[j]);
        }
      }
    }
  }

  /** Every value of a dict passed through `f`, keys and order unchanged. */
  function MapValues(d: Dict, f: Value -> Value): (r: Dict)
    ensures |r| == |d| && forall j :: 0 <= j < |d| ==> r[j] == (d[j].0, f(d[j].1))
  {
    if d == [] then [] else [(d[0].0, f(d[0].1))] + MapValues(d[1..], f)
  }

  lemma {:induction false} MapValuesPut(d: Dict, f: Value -> Value, k: string, v: Value)
    ensures MapValues(Put(d, k, v), f) == Put(MapValues(d, f), k, f(v))
  {
    if d != [] && d[0].0 != k {
      MapValuesPut(d[1..], f, k, v);
      assert MapValues(d, f)[1..] == MapValues(d[1..], f);
    }
  }

  /** A step that always emits what another emits, with the value passed through `f`, gives
      that translation with its values passed through `f`. */
  lemma {:induction false} TranslateMapsValues(params: Dict, a: (string, Value) -> Emit, b: (string, Value) -> Emit,
                                               f: Value -> Value)
    requires forall i :: 0 <= i < |params| ==>
      StepAt(params, a, i).Emit? && StepAt(params, b, i) == Emit(StepAt(params, a, i).key, f(StepAt(params, a, i).value))
    ensures Translate(params, a).Ok? && Translate(params, b) == Ok(MapValues(Translate(params, a).value, f))
    decreases |params|
  {
    if params != [] {
      var init := params[..|params| - 1];
      forall i | 0 <= i < |init|
        ensures StepAt(init, a, i).Emit? && StepAt(init, b, i) == Emit(StepAt(init, a, i).key, f(StepAt(init, a, i).value))
      {
        assert init[i] == params[i];
        assert StepAt(params, a, i).Emit? && StepAt(params, b, i) == Emit(StepAt(params, a, i).key, f(StepAt(params, a, i).value));
      }
      TranslateMapsValues(init, a, b, f);
      var e := StepAt(params, a, |params| - 1);
      assert StepAt(params, b, |params| - 1) == Emit(e.key, f(e.value));
      MapValuesPut(Translate(init, a).value, f, e.key, e.value);
    }
  }
}

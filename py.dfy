/** Python value semantics that the collection's modules and the spreadsheet converter rely on:
    dynamically typed values, ordered dictionaries, truthiness, `str()`, `int()`, `.lower()`,
    `.strip()`, `.isdigit()`, `.split()`, `.join()` and substring tests.  Characters are treated
    as ASCII (see README, "Left out"). */
module Py {

  datatype Option<T> = None | Some(value: T)

  /** A computation that either yields a value or raises an exception with a message. */
  datatype Result<T> = Ok(value: T) | Err(msg: string)

  /** A YAML/JSON-shaped Python value.  Dictionaries keep insertion order and have string keys. */
  datatype Value =
    | VNone
    | VBool(b: bool)
    | VInt(i: int)
    | VStr(s: string)
    | VList(items: seq<Value>)
    | VDict(entries: seq<(string, Value)>)

  /** A Python dict as an ordered association list. */
  type Dict = seq<(string, Value)>

  // ---------------------------------------------------------------------------------------------
  // Ordered dictionaries
  // ---------------------------------------------------------------------------------------------

  function Keys<K, V>(d: seq<(K, V)>): seq<K>
  {
    if d == [] then [] else [d[0].0] + Keys(d[1..])
  }

  /** `k in d` / `d.get(k)`: the value stored under `k`, if any. */
  function Get<K(==), V>(d: seq<(K, V)>, k: K): Option<V>
  {
    if d == [] then None else if d[0].0 == k then Some(d[0].1) else Get(d[1..], k)
  }

  /** `d.get(k, default)`. */
  function GetOr<K(==), V>(d: seq<(K, V)>, k: K, default: V): V
  {
    match Get(d, k)
    case Some(v) => v
    case None => default
  }

  /** `d[k] = v`: an existing key keeps its position, a new key goes last. */
  function Put<K(==), V>(d: seq<(K, V)>, k: K, v: V): seq<(K, V)>
  {
    if d == [] then [(k, v)]
    else if d[0].0 == k then [(k, v)] + d[1..]
    else [d[0]] + Put(d[1..], k, v)
  }

  /** `d.pop(k, None)`. */
  function Remove<K(==), V>(d: seq<(K, V)>, k: K): seq<(K, V)>
  {
    if d == [] then [] else if d[0].0 == k then Remove(d[1..], k) else [d[0]] + Remove(d[1..], k)
  }

  /** `d.update(e)`: every entry of `e` is put into `d`, in order. */
  function Update<K(==), V>(d: seq<(K, V)>, e: seq<(K, V)>): seq<(K, V)>
    decreases |e|
  {
    if e == [] then d else Update(Put(d, e[0].0, e[0].1), e[1..])
  }

  predicate UniqueKeys<K(==), V>(d: seq<(K, V)>)
  {
    forall i, j :: 0 <= i < j < |d| ==> d[i].0 != d[j].0
  }

  lemma {:induction false} KeysLength<K, V>(d: seq<(K, V)>)
    ensures |Keys(d)| == |d|
    ensures forall i :: 0 <= i < |d| ==> Keys(d)[i] == d[i].0
  {
    if d != [] { KeysLength(d[1..]); }
  }

  lemma {:induction false} GetSome<K, V>(d: seq<(K, V)>, k: K)
    ensures Get(d, k).Some? <==> k in Keys(d)
    ensures Get(d, k).Some? ==> (k, Get(d, k).value) in d
  {
    if d != [] { GetSome(d[1..], k); }
  }

  /** A key no pair has is not found. */
  lemma {:induction false} GetMissing<K, V>(d: seq<(K, V)>, k: K)
    requires forall j :: 0 <= j < |d| ==> d[j].0 != k
    ensures Get(d, k).None?
  {
    if d != [] {
      assert forall j :: 0 <= j < |d[1..]| ==> d[1..][j] == d[j + 1];
      GetMissing(d[1..], k);
    }
  }

  /** The value of a key is that of its first occurrence. */
  lemma {:induction false} GetAt<K, V>(d: seq<(K, V)>, i: nat, k: K)
    requires i < |d| && d[i].0 == k && forall j :: 0 <= j < i ==> d[j].0 != k
    ensures Get(d, k) == Some(d[i].1)
    decreases i
  {
    if i > 0 { GetAt(d[1..], i - 1, k); }
  }

  /** In a dict whose keys are distinct, every pair is found under its key. */
  lemma GetUnique<K, V>(d: seq<(K, V)>, i: nat)
    requires UniqueKeys(d) && i < |d|
    ensures Get(d, d[i].0) == Some(d[i].1)
  {
    GetAt(d, i, d[i].0);
  }

  /** Putting keeps the keys distinct. */
  lemma {:induction false} UniqueKeysPut<K, V>(d: seq<(K, V)>, k: K, v: V)
    requires UniqueKeys(d)
    ensures UniqueKeys(Put(d, k, v))
  {
    KeysLength(d);
    KeysPut(d, k, v);
    var r := Put(d, k, v);
    KeysLength(r);
    forall i, j | 0 <= i < j < |r| ensures r[i].0 != r[j].0 {
      assert Keys(r)[i] == r[i].0 && Keys(r)[j] == r[j].0;
      if k in Keys(d) {
        assert Keys(d)[i] == d[i].0 && Keys(d)[j] == d[j].0;
      } else {
        if j < |d| { assert Keys(d)[i] == d[i].0 && Keys(d)[j] == d[j].0; }
      }
    }
  }

  /** `d.pop(k, None)` keeps exactly the other entries, and keeps the keys distinct. */
  lemma {:induction false} RemoveKeeps<K, V>(d: seq<(K, V)>, k: K)
    ensures forall e :: e in Remove(d, k) ==> e in d && e.0 != k
    ensures forall e :: e in d && e.0 != k ==> e in Remove(d, k)
    ensures UniqueKeys(d) ==> UniqueKeys(Remove(d, k))
  {
    if d != [] {
      var t := d[1..];
      RemoveKeeps(t, k);
      assert forall e :: e in d <==> e == d[0] || e in t;
      if UniqueKeys(d) {
        assert UniqueKeys(t) by {
          forall i, j | 0 <= i < j < |t| ensures t[i].0 != t[j].0 { assert t[i] == d[i + 1] && t[j] == d[j + 1]; }
        }
        if d[0].0 != k {
          var r := [d[0]] + Remove(t, k);
          forall i, j | 0 <= i < j < |r| ensures r[i].0 != r[j].0 {
            if i == 0 {
              assert r[j] == Remove(t, k)[j - 1];
              assert r[j] in Remove(t, k);
              assert r[j] in t;
              var l :| 0 <= l < |t| && t[l] == r[j];
              assert d[l + 1] == r[j];
            } else {
              assert r[i] == Remove(t, k)[i - 1] && r[j] == Remove(t, k)[j - 1];
            }
          }
        }
      }
    }
  }

  /** The position of a key's first occurrence. */
  lemma {:induction false} FirstIndex<K, V>(d: seq<(K, V)>, k: K) returns (i: nat)
    requires k in Keys(d)
    ensures i < |d| && d[i].0 == k && forall j :: 0 <= j < i ==> d[j].0 != k
  {
    if d[0].0 == k {
      i := 0;
    } else {
      assert k in Keys(d[1..]);
      var i' := FirstIndex(d[1..], k);
      i := i' + 1;
      assert forall j :: 1 <= j < i ==> d[j] == d[1..][j - 1];
    }
  }

  lemma {:induction false} KeysAt<K, V>(d: seq<(K, V)>, p: nat)
    requires p < |d|
    ensures |Keys(d)| == |d| && Keys(d)[p] == d[p].0 && d[p].0 in Keys(d)
    decreases p
  {
    KeysLength(d);
    if p > 0 { KeysAt(d[1..], p - 1); }
  }

  /** Putting a key that is present replaces its pair where it stands. */
  lemma {:induction false} PutAt<K, V>(d: seq<(K, V)>, i: nat, k: K, v: V)
    requires i < |d| && d[i].0 == k && forall j :: 0 <= j < i ==> d[j].0 != k
    ensures Put(d, k, v) == d[i := (k, v)]
    decreases i
  {
    if i > 0 {
      PutAt(d[1..], i - 1, k, v);
      assert d[i := (k, v)] == [d[0]] + d[1..][i - 1 := (k, v)];
    }
  }

  lemma {:induction false} GetPut<K, V>(d: seq<(K, V)>, k: K, v: V, k': K)
    ensures Get(Put(d, k, v), k') == if k' == k then Some(v) else Get(d, k')
  {
    if d != [] && d[0].0 != k { GetPut(d[1..], k, v, k'); }
  }

  lemma {:induction false} KeysPut<K, V>(d: seq<(K, V)>, k: K, v: V)
    ensures Keys(Put(d, k, v)) == if k in Keys(d) then Keys(d) else Keys(d) + [k]
  {
    if d != [] && d[0].0 != k { KeysPut(d[1..], k, v); }
  }

  lemma {:induction false} PutNew<K, V>(d: seq<(K, V)>, k: K, v: V)
    requires k !in Keys(d)
    ensures Put(d, k, v) == d + [(k, v)]
  {
    if d != [] {
      PutNew(d[1..], k, v);
    }
  }

  /** Putting adds no pair but the one put. */
  lemma {:induction false} PutMembers<K, V>(d: seq<(K, V)>, k: K, v: V, e: (K, V))
    requires e in Put(d, k, v)
    ensures e in d || e == (k, v)
  {
    if d != [] && d[0].0 != k {
      if e != d[0] { PutMembers(d[1..], k, v, e); }
    }
  }

  lemma {:induction false} GetRemove<K, V>(d: seq<(K, V)>, k: K, k': K)
    ensures Get(Remove(d, k), k') == if k' == k then None else Get(d, k')
  {
    if d != [] { GetRemove(d[1..], k, k'); }
  }

  lemma {:induction false} GetUpdate<K, V>(d: seq<(K, V)>, e: seq<(K, V)>, k: K)
    requires UniqueKeys(e)
    ensures Get(Update(d, e), k) == if Get(e, k).Some? then Get(e, k) else Get(d, k)
    decreases |e|
  {
    if e != [] {
      GetUpdate(Put(d, e[0].0, e[0].1), e[1..], k);
      GetPut(d, e[0].0, e[0].1, k);
      if e[0].0 == k {
        GetSome(e[1..], k);
        KeysLength(e[1..]);
        assert k !in Keys(e[1..]) by {
          forall i | 0 <= i < |e[1..]| ensures Keys(e[1..])[i] != k { assert e[1..][i] == e[i + 1]; }
        }
      }
    }
  }

  lemma {:induction false} KeysAppend<K, V>(a: seq<(K, V)>, b: seq<(K, V)>)
    ensures Keys(a + b) == Keys(a) + Keys(b)
  {
    if a != [] {
      assert (a + b)[0] == a[0] && (a + b)[1..] == a[1..] + b;
      KeysAppend(a[1..], b);
    } else {
      assert a + b == b;
    }
  }

  /** In two dicts written one after the other, a key's first occurrence wins. */
  lemma {:induction false} GetAppend<K, V>(a: seq<(K, V)>, b: seq<(K, V)>, k: K)
    ensures Get(a + b, k) == if Get(a, k).Some? then Get(a, k) else Get(b, k)
  {
    if a != [] {
      assert (a + b)[0] == a[0] && (a + b)[1..] == a[1..] + b;
      GetAppend(a[1..], b, k);
    } else {
      assert a + b == b;
    }
  }

  // ---------------------------------------------------------------------------------------------
  // Characters and strings
  // ---------------------------------------------------------------------------------------------

  function LowerChar(c: char): char
  {
    if 'A' <= c <= 'Z' then (c as int + 32) as char else c
  }

  /** `s.lower()` on ASCII letters. */
  function Lower(s: string): string
  {
    if s == [] then [] else [LowerChar(s[0])] + Lower(s[1..])
  }

  /** Characters that `str.strip()` removes (the ASCII ones). */
  predicate IsSpace(c: char)
  {
    c == ' ' || (9 <= c as int <= 13) || (28 <= c as int <= 31)
  }

  function StripLeft(s: string): string
  {
    if s != [] && IsSpace(s[0]) then StripLeft(s[1..]) else s
  }

  function StripRight(s: string): string
  {
    if s != [] && IsSpace(s[|s| - 1]) then StripRight(s[..|s| - 1]) else s
  }

  /** `s.strip()`. */
  function Strip(s: string): string
  {
    StripRight(StripLeft(s))
  }

  predicate IsPrefix(p: string, s: string)
  {
    |p| <= |s| && s[..|p|] == p
  }

  /** `s.endswith(p)`. */
  predicate IsSuffix(p: string, s: string)
  {
    |p| <= |s| && s[|s| - |p|..] == p
  }

  /** `sub in s`. */
  predicate Contains(s: string, sub: string)
    decreases |s|
  {
    IsPrefix(sub, s) || (s != [] && Contains(s[1..], sub))
  }

  /** `sep.join(parts)`. */
  function Join(sep: string, parts: seq<string>): string
  {
    if parts == [] then "" else if |parts| == 1 then parts[0] else parts[0] + sep + Join(sep, parts[1..])
  }

  /** `s.split(c)`: never empty; pieces are separated by exactly one `c`. */
  function Split(s: string, c: char): (r: seq<string>)
    ensures |r| >= 1
  {
    if s == [] then [""]
    else if s[0] == c then [""] + Split(s[1..], c)
    else var rest := Split(s[1..], c); [[s[0]] + rest[0]] + rest[1..]
  }

  lemma {:induction false} LowerShape(s: string)
    ensures |Lower(s)| == |s|
    ensures forall i :: 0 <= i < |s| ==> Lower(s)[i] == LowerChar(s[i])
  {
    if s != [] { LowerShape(s[1..]); }
  }

  /** A substring stays a substring when both strings are lowercased. */
  lemma {:induction false} ContainsLower(s: string, sub: string)
    requires Contains(s, sub)
    ensures Contains(Lower(s), Lower(sub))
    decreases |s|
  {
    LowerShape(s);
    LowerShape(sub);
    if IsPrefix(sub, s) {
      assert Lower(s)[..|Lower(sub)|] == Lower(sub);
    } else {
      ContainsLower(s[1..], sub);
      assert Lower(s)[1..] == Lower(s[1..]);
    }
  }

  /** A string without upper-case letters is its own lowercase. */
  lemma LowerPlain(s: string)
    requires forall i :: 0 <= i < |s| ==> !('A' <= s[i] <= 'Z')
    ensures Lower(s) == s
  {
    LowerShape(s);
  }

  lemma LowerIdempotent(s: string)
    ensures Lower(Lower(s)) == Lower(s)
  {
    LowerShape(s);
    LowerShape(Lower(s));
  }

  lemma {:induction false} StripLeftShape(s: string)
    ensures |StripLeft(s)| <= |s| && StripLeft(s) == s[|s| - |StripLeft(s)|..]
    ensures StripLeft(s) != [] ==> !IsSpace(StripLeft(s)[0])
    ensures StripLeft(s) == [] ==> forall i :: 0 <= i < |s| ==> IsSpace(s[i])
    ensures forall i :: 0 <= i < |s| - |StripLeft(s)| ==> IsSpace(s[i])
  {
    if s != [] && IsSpace(s[0]) { StripLeftShape(s[1..]); }
  }

  lemma {:induction false} StripRightShape(s: string)
    ensures |StripRight(s)| <= |s| && StripRight(s) == s[..|StripRight(s)|]
    ensures StripRight(s) != [] ==> !IsSpace(StripRight(s)[|StripRight(s)| - 1])
    ensures forall i :: |StripRight(s)| <= i < |s| ==> IsSpace(s[i])
  {
    if s != [] && IsSpace(s[|s| - 1]) { StripRightShape(s[..|s| - 1]); }
  }

  /** A string strips to nothing exactly when every character is whitespace. */
  lemma StripEmpty(s: string)
    ensures Strip(s) == [] <==> forall i :: 0 <= i < |s| ==> IsSpace(s[i])
  {
    StripLeftShape(s);
    StripRightShape(StripLeft(s));
    var l := StripLeft(s);
    if l != [] {
      assert !IsSpace(l[0]);
      assert StripRight(l) != [];
      assert s[|s| - |l|] == l[0];
    }
  }

  /** A string that neither starts nor ends with whitespace is unchanged by `strip()`. */
  lemma StripTrimmed(s: string)
    requires s != [] ==> !IsSpace(s[0]) && !IsSpace(s[|s| - 1])
    ensures Strip(s) == s
  {
  }

  lemma {:induction false} StripTwice(s: string)
    ensures Strip(Strip(s)) == Strip(s)
  {
    StripLeftShape(s);
    var l := StripLeft(s);
    StripRightShape(l);
    var r := StripRight(l);
    if r != [] {
      assert r[0] == l[0];
      StripTrimmed(r);
    }
  }

  // ---------------------------------------------------------------------------------------------
  // Decimal integers: str(int), str.isdigit(), int(str)
  // ---------------------------------------------------------------------------------------------

  predicate IsDigit(c: char)
  {
    '0' <= c <= '9'
  }

  /** `s.isdigit()` over ASCII digits. */
  predicate IsDigits(s: string)
  {
    |s| > 0 && forall i :: 0 <= i < |s| ==> IsDigit(s[i])
  }

  function DigitChar(d: nat): char
    requires d < 10
  {
    ('0' as int + d) as char
  }

  function DigitsValue(s: string): nat
    requires forall i :: 0 <= i < |s| ==> IsDigit(s[i])
  {
    if s == [] then 0
    else
      assert IsDigit(s[|s| - 1]);
      DigitsValue(s[..|s| - 1]) * 10 + (s[|s| - 1] as int - '0' as int)
  }

  function NatToString(n: nat): string
  {
    if n < 10 then [DigitChar(n)] else NatToString(n / 10) + [DigitChar(n % 10)]
  }

  /** `str(n)` for an integer. */
  function IntToString(n: int): string
  {
    if n < 0 then "-" + NatToString(-n) else NatToString(n)
  }

  /** `int(s)` for a string: surrounding whitespace, an optional sign, then decimal digits. */
  function ParseInt(s: string): Option<int>
  {
    var t := Strip(s);
    if t != [] && (t[0] == '-' || t[0] == '+') && IsDigits(t[1..]) then
      Some(if t[0] == '-' then -(DigitsValue(t[1..]) as int) else DigitsValue(t[1..]))
    else if IsDigits(t) then Some(DigitsValue(t))
    else None
  }

  lemma {:induction false} NatToStringDigits(n: nat)
    ensures IsDigits(NatToString(n))
    ensures DigitsValue(NatToString(n)) == n
  {
    if n >= 10 {
      NatToStringDigits(n / 10);
      var s := NatToString(n);
      assert s[..|s| - 1] == NatToString(n / 10);
    }
  }

  /** `int(str(n)) == n` for every integer. */
  lemma IntToStringRoundTrip(n: int)
    ensures ParseInt(IntToString(n)) == Some(n)
  {
    var s := IntToString(n);
    if n < 0 {
      NatToStringDigits(-n);
      assert s[1..] == NatToString(-n);
      assert !IsSpace(s[|s| - 1]) by { assert s[|s| - 1] == s[1..][|s[1..]| - 1]; }
      StripTrimmed(s);
    } else {
      NatToStringDigits(n);
      StripTrimmed(s);
    }
  }

  // ---------------------------------------------------------------------------------------------
  // Python built-ins on values
  // ---------------------------------------------------------------------------------------------

  /** `bool(v)`. */
  predicate Truthy(v: Value)
  {
    match v
    case VNone => false
    case VBool(b) => b
    case VInt(i) => i != 0
    case VStr(s) => s != []
    case VList(items) => items != []
    case VDict(entries) => entries != []
  }

  /** `str(v)`.  Containers use `repr` for their elements; string quoting ignores escapes. */
  function Str(v: Value): string
    decreases v, 0
  {
    match v
    case VNone => "None"
    case VBool(b) => if b then "True" else "False"
    case VInt(i) => IntToString(i)
    case VStr(s) => s
    case VList(items) =>
      "[" + Join(", ", seq(|items|, k requires 0 <= k < |items| => Repr(items[k]))) + "]"
    case VDict(entries) =>
      "{" + Join(", ", seq(|entries|, k requires 0 <= k < |entries| =>
                           "'" + entries[k].0 + "': " + Repr(entries[k].1))) + "}"
  }

  /** `repr(v)`. */
  function Repr(v: Value): string
    decreases v, 1
  {
    if v.VStr? then "'" + v.s + "'" else Str(v)
  }

  /** Outcome of `int(v)`. */
  datatype IntConv = IntOk(n: int) | ValueError | TypeError

  /** `int(v)`: booleans are 0/1, strings are parsed, None and containers raise `TypeError`. */
  function ToInt(v: Value): IntConv
  {
    match v
    case VNone => TypeError
    case VBool(b) => IntOk(if b then 1 else 0)
    case VInt(i) => IntOk(i)
    case VStr(s) => if ParseInt(s).Some? then IntOk(ParseInt(s).value) else ValueError
    case VList(_) => TypeError
    case VDict(_) => TypeError
  }

  const BadIntLiteral := "invalid literal for int() with base 10: "
  const IntArgument := "int() argument must be a string, a bytes-like object or a real number"

  /** `int(v)` as a value or the exception's message. */
  function IntOf(v: Value): Result<int>
  {
    match ToInt(v)
    case IntOk(n) => Ok(n)
    case ValueError => Err(BadIntLiteral + Repr(v))
    case TypeError => Err(IntArgument)
  }

  /** `int(str(v))` succeeds for every integer, giving it back. */
  lemma ToIntStr(i: int)
    ensures ToInt(VStr(Str(VInt(i)))) == IntOk(i)
  {
    IntToStringRoundTrip(i);
  }

  /** `for x in v`: the elements a loop visits (a dict yields its keys, a string its characters),
      or `None` when `v` is not iterable (`TypeError`). */
  function Iter(v: Value): Option<seq<Value>>
  {
    match v
    case VList(items) => Some(items)
    case VDict(entries) => Some(seq(|entries|, k requires 0 <= k < |entries| => VStr(entries[k].0)))
    case VStr(s) => Some(seq(|s|, k requires 0 <= k < |s| => VStr([s[k]])))
    case _ => None
  }

  /** Whether `v` can be a dict key or set member (lists and dicts cannot). */
  predicate Hashable(v: Value)
  {
    !v.VList? && !v.VDict?
  }

  /** Messages of exceptions raised by Python itself rather than by the modules (Python names the
      offending value's type first; the model leaves the type out). */
  const NoItems := "object has no attribute 'items'"
  const NoGet := "object has no attribute 'get'"
  const NoStrip := "object has no attribute 'strip'"
  const NotIterable := "object is not iterable"
  const Unhashable := "unhashable type"
  const JsonDecodeError := "Expecting value: line 1 column 1 (char 0)"

  const NotSubscriptable := "object is not subscriptable by str"

  /** The message of `KeyError(k)`: the quoted key. */
  function KeyError(k: string): string
  {
    "'" + k + "'"
  }

  /** `v[k]` with a string key: a dict gives its value or raises `KeyError`; any other value
      raises `TypeError`. */
  function Subscript(v: Value, k: string): Result<Value>
  {
    if !v.VDict? then Err(NotSubscriptable)
    else match Get(v.entries, k)
      case Some(x) => Ok(x)
      case None => Err(KeyError(k))
  }

  /** Value-level dict lookup: `d.get(k)` when `d` is a dict, treating any other value as empty. */
  function Field(v: Value, k: string): Option<Value>
  {
    if v.VDict? then Get(v.entries, k) else None
  }

  /** `d.get(k, default)` on a value. */
  function FieldOr(v: Value, k: string, default: Value): Value
  {
    match Field(v, k)
    case Some(x) => x
    case None => default
  }

  /** `len(v)`, or `None` when `v` has no length (`TypeError`). */
  function Len(v: Value): Option<nat>
  {
    match v
    case VStr(s) => Some(|s|)
    case VList(items) => Some(|items|)
    case VDict(entries) => Some(|entries|)
    case _ => None
  }

  const NoLen := "object has no len()"
  const CannotJoin := "can only join an iterable"
  const JoinNonStr := "sequence item: expected str instance"

  /** `sep.join(v)`: `v` must be iterable and yield only strings. */
  function JoinValues(sep: string, v: Value): Result<string>
  {
    match Iter(v)
    case None => Err(CannotJoin)
    case Some(items) =>
      if forall i | 0 <= i < |items| :: items[i].VStr? then
        Ok(Join(sep, seq(|items|, i requires 0 <= i < |items| => if items[i].VStr? then items[i].s else "")))
      else Err(JoinNonStr)
  }
}

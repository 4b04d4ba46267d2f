/** The slice of the JavaScript runtime that the key and argument helpers rely on:
    values (with `undefined` as `None`), truthiness, optional member access,
    object spread, `Array.prototype.join` and, as its inverse, `String.prototype.split`. */
module JsValues {

  /** `None` is JavaScript's `undefined`. */
  datatype Option<+T> = None | Some(value: T)

  /** A run-time value. An object field that holds `undefined` is modelled as an
      absent field: key hashing and structural comparison treat the two alike. */
  datatype Value =
    | Null
    | Bool(b: bool)
    | Num(n: int)
    | Str(s: string)
    | Arr(items: seq<Value>)
    | Obj(fields: map<string, Value>)
    | Func(fnId: nat)       // an opaque function value (callbacks, hooks)
    | Signal(signalId: nat) // an opaque AbortSignal object
    | SkipToken             // the cache library's skip sentinel (a symbol)

  /** JavaScript truthiness (numbers are integers here, so there is no NaN). */
  predicate Truthy(v: Option<Value>)
  {
    match v
    case None => false
    case Some(Null) => false
    case Some(Bool(b)) => b
    case Some(Num(n)) => n != 0
    case Some(Str(s)) => s != ""
    case Some(_) => true
  }

  /** `typeof v === 'object' && v !== null`. */
  predicate IsObjectLike(v: Option<Value>)
  {
    v.Some? && (v.value.Obj? || v.value.Arr? || v.value.Signal?)
  }

  /** Optional member access `v?.k`: only plain objects carry named fields. */
  function Member(v: Option<Value>, k: string): (r: Option<Value>)
    ensures r.Some? ==> v.Some? && v.value.Obj? && k in v.value.fields && r.value == v.value.fields[k]
    ensures v.Some? && v.value.Obj? && k in v.value.fields ==> r.Some?
  {
    if v.Some? && v.value.Obj? && k in v.value.fields then Some(v.value.fields[k]) else None
  }

  /** An object literal entry `k: v`: an `undefined` value leaves the key absent. */
  function SetField(fields: map<string, Value>, k: string, v: Option<Value>): (r: map<string, Value>)
    ensures Member(Some(Obj(r)), k) == v
    ensures forall j :: j != k ==> Member(Some(Obj(r)), j) == Member(Some(Obj(fields)), j)
  {
    if v.Some? then fields[k := v.value] else fields - {k}
  }

  function Digit(d: nat): (c: char)
    requires d < 10
    ensures '0' <= c <= '9'
  {
    "0123456789"[d]
  }

  /** The decimal form of an array index, as property keys are written. */
  function DecimalString(n: nat): (s: string)
    ensures |s| >= 1
    ensures forall i :: 0 <= i < |s| ==> '0' <= s[i] <= '9'
    ensures n >= 10 ==> |s| >= 2
    decreases n
  {
    if n < 10 then [Digit(n)] else DecimalString(n / 10) + [Digit(n % 10)]
  }

  lemma DigitInjective(a: nat, b: nat)
    requires a < 10 && b < 10 && Digit(a) == Digit(b)
    ensures a == b
  {
    var ds := "0123456789";
    assert forall i, j :: 0 <= i < j < 10 ==> ds[i] != ds[j];
  }

  /** Distinct indices have distinct keys, so spreading an array loses no element. */
  lemma {:induction false} DecimalStringInjective(m: nat, n: nat)
    requires DecimalString(m) == DecimalString(n)
    ensures m == n
    decreases m
  {
    var s := DecimalString(m);
    if m < 10 && n < 10 {
      DigitInjective(m, n);
    } else if m >= 10 && n >= 10 {
      assert s[|s| - 1] == Digit(m % 10) == Digit(n % 10);
      DigitInjective(m % 10, n % 10);
      assert s[..|s| - 1] == DecimalString(m / 10) == DecimalString(n / 10);
      DecimalStringInjective(m / 10, n / 10);
    }
  }

  lemma DecimalStringsInjective()
    ensures forall m: nat, n: nat :: DecimalString(m) == DecimalString(n) ==> m == n
  {
    forall m: nat, n: nat | DecimalString(m) == DecimalString(n) ensures m == n {
      DecimalStringInjective(m, n);
    }
  }

  /** The own enumerable properties of an indexed collection, keyed by decimal index. */
  function IndexedFields(xs: seq<Value>): (r: map<string, Value>)
    ensures forall i :: 0 <= i < |xs| ==> DecimalString(i) in r && r[DecimalString(i)] == xs[i]
    ensures forall k :: k in r ==> exists i :: 0 <= i < |xs| && k == DecimalString(i)
  {
    DecimalStringsInjective();
    map i | 0 <= i < |xs| :: DecimalString(i) := xs[i]
  }

  /** The fields contributed by the object spread `{...v}`. Primitives other than
      strings, `null`, `undefined`, symbols, functions and signals contribute none. */
  function Spread(v: Option<Value>): map<string, Value>
  {
    match v
    case Some(Obj(fields)) => fields
    case Some(Arr(items)) => IndexedFields(items)
    case Some(Str(s)) => IndexedFields(seq(|s|, i requires 0 <= i < |s| => Str([s[i]])))
    case _ => map[]
  }

  /** `segments.join(sep)`. */
  function Join(segments: seq<string>, sep: char): (s: string)
    decreases |segments|
  {
    if |segments| == 0 then ""
    else if |segments| == 1 then segments[0]
    else segments[0] + [sep] + Join(segments[1..], sep)
  }

  /** Index of the first occurrence of `c` in `s`. */
  function IndexOf(s: string, c: char): (i: nat)
    requires c in s
    ensures i < |s| && s[i] == c && c !in s[..i]
  {
    if s[0] == c then 0 else 1 + IndexOf(s[1..], c)
  }

  /** `s.split(sep)`, which yields `[""]` for the empty string. */
  function Split(s: string, sep: char): (parts: seq<string>)
    ensures |parts| >= 1
    decreases |s|
  {
    if sep !in s then [s]
    else
      var i := IndexOf(s, sep);
      [s[..i]] + Split(s[i + 1..], sep)
  }

  lemma IndexOfAfterPrefix(a: string, c: char, b: string)
    requires c !in a
    ensures c in a + [c] + b && IndexOf(a + [c] + b, c) == |a|
  {
    var s := a + [c] + b;
    assert s[|a|] == c;
    assert s[..|a|] == a;
  }

  /** Splitting at a first separator that follows `a`. */
  lemma SplitAfterPrefix(a: string, sep: char, b: string)
    requires sep !in a
    ensures Split(a + [sep] + b, sep) == [a] + Split(b, sep)
  {
    var s := a + [sep] + b;
    IndexOfAfterPrefix(a, sep, b);
    assert s[..|a|] == a;
    assert s[|a| + 1..] == b;
  }

  /** Joining segments that do not contain the separator can be undone by
      splitting, so a dotted path names exactly one segment sequence. */
  lemma {:induction false} SplitJoin(segments: seq<string>, sep: char)
    requires |segments| >= 1
    requires forall k :: 0 <= k < |segments| ==> sep !in segments[k]
    ensures Split(Join(segments, sep), sep) == segments
    decreases |segments|
  {
    if |segments| > 1 {
      var rest := Join(segments[1..], sep);
      assert Join(segments, sep) == segments[0] + [sep] + rest;
      SplitAfterPrefix(segments[0], sep, rest);
      SplitJoin(segments[1..], sep);
      assert segments == [segments[0]] + segments[1..];
    }
  }
}

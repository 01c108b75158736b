/** Parsed JSON values and the few JavaScript rules the journal applies to
    them: truthiness, `typeof … === 'object'`, property access, and the
    decimal rendering of a non-negative integer (`Number.prototype.toString`). */
module Json {

  datatype Option<+T> = None | Some(value: T) {
    function GetOr(default: T): T {
      match this
      case Some(v) => v
      case None => default
    }
  }

  /** A value as `JSON.parse` returns it. Numbers are integers here: the
      journal stores only integer numbers (millisecond ids, mood ratings,
      the version field). Object member order is not kept. */
  datatype Json =
    | Null
    | Bool(b: bool)
    | Num(n: int)
    | Str(s: string)
    | Arr(items: seq<Json>)
    | Obj(fields: map<string, Json>)

  /** JavaScript truthiness of a parsed value: `null`, `false`, `0` and `""`
      are falsy; every array and object, even an empty one, is truthy. */
  predicate Truthy(j: Json) {
    match j
    case Null => false
    case Bool(b) => b
    case Num(n) => n != 0
    case Str(s) => s != ""
    case Arr(_) => true
    case Obj(_) => true
  }

  /** Truthiness of a property read, where `None` stands for `undefined`. */
  predicate TruthyProp(v: Option<Json>) {
    v.Some? && Truthy(v.value)
  }

  /** `j && typeof j === 'object'`: an object or an array (null is excluded by
      the truthiness test). */
  predicate IsTruthyObject(j: Json)
    ensures IsTruthyObject(j) <==> j.Obj? || j.Arr?
  {
    Truthy(j) && (j.Null? || j.Arr? || j.Obj?)
  }

  /** Property access `j.key` on a non-null value: an object yields its
      member or `undefined`; numbers, booleans, strings and arrays have none of
      the member names the journal reads. */
  function Get(j: Json, key: string): Option<Json>
    requires !j.Null?
  {
    if j.Obj? && key in j.fields then Some(j.fields[key]) else None
  }

  predicate IsDigit(c: char) {
    '0' <= c <= '9'
  }

  function DigitChar(d: nat): (c: char)
    requires d < 10
    ensures IsDigit(c) && c as int - '0' as int == d
  {
    ['0', '1', '2', '3', '4', '5', '6', '7', '8', '9'][d]
  }

  /** Decimal rendering of a non-negative integer, no leading zeros. */
  function NatToString(n: nat): (s: string)
    ensures |s| >= 1
    ensures forall i :: 0 <= i < |s| ==> IsDigit(s[i])
    ensures n < 10 <==> |s| == 1
    ensures s[|s| - 1] == DigitChar(n % 10)
    decreases n
  {
    if n < 10 then [DigitChar(n)] else NatToString(n / 10) + [DigitChar(n % 10)]
  }

  /** Different numbers render differently, so index keys never collide. */
  lemma {:induction false} NatToStringInjective(a: nat, b: nat)
    requires NatToString(a) == NatToString(b)
    ensures a == b
    decreases a
  {
    var sa, sb := NatToString(a), NatToString(b);
    assert DigitChar(a % 10) == sa[|sa| - 1] == sb[|sb| - 1] == DigitChar(b % 10);
    if a >= 10 && b >= 10 {
      assert NatToString(a / 10) == sa[..|sa| - 1] == sb[..|sb| - 1] == NatToString(b / 10);
      NatToStringInjective(a / 10, b / 10);
    }
  }

  /** The object an array behaves as under spread and property lookup: each
      element under the decimal string of its index. */
  function IndexKeyed(items: seq<Json>): map<string, Json>
    decreases |items|
  {
    if |items| == 0 then map[]
    else IndexKeyed(items[..|items| - 1])[NatToString(|items| - 1) := items[|items| - 1]]
  }

  /** Every index of the array is a key of `IndexKeyed`, holding that element. */
  lemma {:induction false} IndexKeyedAt(items: seq<Json>, i: nat)
    requires i < |items|
    ensures NatToString(i) in IndexKeyed(items)
    ensures IndexKeyed(items)[NatToString(i)] == items[i]
    decreases |items|
  {
    var last := |items| - 1;
    if i < last {
      IndexKeyedAt(items[..last], i);
      if NatToString(i) == NatToString(last) { NatToStringInjective(i, last); }
    }
  }

  /** `IndexKeyed` has no keys besides the index strings. */
  lemma {:induction false} IndexKeyedKeys(items: seq<Json>, k: string)
    requires k in IndexKeyed(items)
    ensures exists i :: 0 <= i < |items| && k == NatToString(i)
    decreases |items|
  {
    var last := |items| - 1;
    if k != NatToString(last) {
      IndexKeyedKeys(items[..last], k);
    }
  }
}

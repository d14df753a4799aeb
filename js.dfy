/**
 * The slice of JavaScript's value semantics the screens rely on: JSON-like
 * values, truthiness and `||`, property reads (`o.k`, which throws a
 * TypeError on null/undefined, and `o?.k`, which does not), objects as
 * ordered key/value lists so that `{...o, [k]: v}` keeps key order, and the
 * string a value turns into inside a template literal.
 */
module Js {
  import opened Wrappers
  import opened Text

  /** Numbers are integers here: the screens only count and compare. */
  datatype Value =
    | Undefined
    | Null
    | Bool(b: bool)
    | Num(n: int)
    | Str(s: string)
    | Arr(items: seq<Value>)
    | Obj(fields: seq<(string, Value)>)

  type Fields = seq<(string, Value)>

  predicate Truthy(v: Value) {
    match v
    case Undefined => false
    case Null => false
    case Bool(b) => b
    case Num(n) => n != 0
    case Str(s) => s != ""
    case Arr(_) => true
    case Obj(_) => true
  }

  predicate Nullish(v: Value) {
    v.Undefined? || v.Null?
  }

  /** `a || b`. */
  function Or(a: Value, b: Value): Value {
    if Truthy(a) then a else b
  }

  // ---------------------------------------------------------------------------
  // Objects as insertion-ordered key/value lists
  // ---------------------------------------------------------------------------

  function Keys<T>(fs: seq<(string, T)>): (ks: seq<string>)
    ensures |ks| == |fs|
    ensures forall i :: 0 <= i < |fs| ==> ks[i] == fs[i].0
  {
    seq(|fs|, i requires 0 <= i < |fs| => fs[i].0)
  }

  predicate DistinctKeys<T>(fs: seq<(string, T)>) {
    forall i, j :: 0 <= i < j < |fs| ==> fs[i].0 != fs[j].0
  }

  /** The value stored under `k`: the first entry with that key. */
  function Lookup<T>(fs: seq<(string, T)>, k: string): (r: Option<T>)
    ensures r.None? <==> (forall i :: 0 <= i < |fs| ==> fs[i].0 != k)
    decreases |fs|
  {
    if |fs| == 0 then None
    else if fs[0].0 == k then Some(fs[0].1)
    else
      assert forall i :: 0 < i < |fs| ==> fs[i] == fs[1..][i - 1];
      Lookup(fs[1..], k)
  }

  /** With distinct keys, the entry at position i is what a lookup of its key finds. */
  lemma {:induction false} LookupAt<T>(fs: seq<(string, T)>, i: nat)
    requires DistinctKeys(fs) && i < |fs|
    ensures Lookup(fs, fs[i].0) == Some(fs[i].1)
    decreases i
  {
    if i > 0 {
      assert fs[1..][i - 1] == fs[i];
      LookupAt(fs[1..], i - 1);
    }
  }

  /** An entry whose key no earlier entry has is what a lookup of that key finds. */
  lemma {:induction false} LookupFirst<T>(fs: seq<(string, T)>, i: nat)
    requires i < |fs|
    requires forall j :: 0 <= j < i ==> fs[j].0 != fs[i].0
    ensures Lookup(fs, fs[i].0) == Some(fs[i].1)
    decreases i
  {
    if i > 0 {
      assert fs[1..][i - 1] == fs[i];
      assert forall j :: 0 <= j < i - 1 ==> fs[1..][j] == fs[j + 1];
      LookupFirst(fs[1..], i - 1);
    }
  }

  /**
   * `{...fs, [k]: v}`: an existing key keeps its place and takes the new
   * value; a new key is added at the end; the other entries stay as they were.
   */
  function Update<T>(fs: seq<(string, T)>, k: string, v: T): (r: seq<(string, T)>)
    ensures |r| == if Lookup(fs, k).Some? then |fs| else |fs| + 1
    ensures forall i :: 0 <= i < |fs| ==> r[i].0 == fs[i].0
    ensures forall i :: 0 <= i < |fs| && fs[i].0 != k ==> r[i] == fs[i]
    ensures DistinctKeys(fs) ==> forall i :: 0 <= i < |fs| && fs[i].0 == k ==> r[i] == (k, v)
    ensures |r| > |fs| ==> r[|fs|] == (k, v)
    decreases |fs|
  {
    if |fs| == 0 then [(k, v)]
    else if fs[0].0 == k then [(k, v)] + fs[1..]
    else [fs[0]] + Update(fs[1..], k, v)
  }

  /** After the update, `k` holds `v` and every other key what it held before. */
  lemma {:induction false} LookupUpdate<T>(fs: seq<(string, T)>, k: string, v: T, k': string)
    ensures Lookup(Update(fs, k, v), k') == if k' == k then Some(v) else Lookup(fs, k')
    decreases |fs|
  {
    if |fs| > 0 && fs[0].0 != k {
      LookupUpdate(fs[1..], k, v, k');
    }
  }

  /** Updating never changes the order of the keys already present. */
  lemma {:induction false} UpdateKeys<T>(fs: seq<(string, T)>, k: string, v: T)
    ensures Lookup(fs, k).Some? ==> Keys(Update(fs, k, v)) == Keys(fs)
    ensures Lookup(fs, k).None? ==> Keys(Update(fs, k, v)) == Keys(fs) + [k]
  {
    var r := Update(fs, k, v);
    var before, after := Keys(fs), Keys(r);
    forall i | 0 <= i < |fs|
      ensures after[i] == before[i]
    {
      assert r[i].0 == fs[i].0;
    }
    if Lookup(fs, k).Some? {
      assert |after| == |before|;
      assert after == before;
    } else {
      assert |after| == |before| + 1 && after[|fs|] == k;
      assert after == before + [k];
    }
  }

  /** Updating keeps keys distinct. */
  lemma {:induction false} UpdateDistinct<T>(fs: seq<(string, T)>, k: string, v: T)
    requires DistinctKeys(fs)
    ensures DistinctKeys(Update(fs, k, v))
  {
  }

  /** `o.k` on an object: `undefined` when the key is absent. */
  function Get(fs: Fields, k: string): Value {
    Lookup(fs, k).GetOr(Undefined)
  }

  /**
   * `v.k`: a TypeError (None) exactly when v is null or undefined; arrays and
   * strings answer `length`; other properties of primitives are undefined
   * (array and string index properties are not modelled).
   */
  function Prop(v: Value, k: string): (r: Option<Value>)
    ensures r.None? <==> Nullish(v)
    ensures v.Obj? ==> r == Some(Get(v.fields, k))
  {
    match v
    case Undefined => None
    case Null => None
    case Bool(_) => Some(Undefined)
    case Num(_) => Some(Undefined)
    case Str(s) => Some(if k == "length" then Num(Utf16Length(s)) else Undefined)
    case Arr(xs) => Some(if k == "length" then Num(|xs|) else Undefined)
    case Obj(fs) => Some(Get(fs, k))
  }

  /** `v?.k`: undefined instead of a TypeError when v is null or undefined. */
  function OptProp(v: Value, k: string): (r: Value)
    ensures Nullish(v) ==> r == Undefined
    ensures !Nullish(v) ==> Some(r) == Prop(v, k)
  {
    if Nullish(v) then Undefined else Prop(v, k).value
  }

  // ---------------------------------------------------------------------------
  // Template literals
  // ---------------------------------------------------------------------------

  /** `${v}`, i.e. `String(v)`. */
  function ToStr(v: Value): string
    decreases v, 1
  {
    match v
    case Undefined => "undefined"
    case Null => "null"
    case Bool(b) => if b then "true" else "false"
    case Num(n) => IntToString(n)
    case Str(s) => s
    case Arr(xs) => JoinItems(xs)
    case Obj(_) => "[object Object]"
  }

  /** `Array.prototype.join(",")`, where null and undefined items become empty. */
  function JoinItems(xs: seq<Value>): string
    decreases xs, 0
  {
    if |xs| == 0 then ""
    else
      var first := if Nullish(xs[0]) then "" else ToStr(xs[0]);
      if |xs| == 1 then first else first + "," + JoinItems(xs[1..])
  }
}

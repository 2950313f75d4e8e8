/** The fragment of JavaScript values that the image cache touches: the
    transform options and the service configuration are plain objects whose
    properties keep their insertion order, which is what JSON.stringify
    serialises and therefore what the cache key depends on. */
module JsValue {

  /** A JavaScript value. Numbers are modelled as integers and arrays are
      not modelled. An object is the ordered list of its own enumerable
      properties. */
  datatype Value =
    | Undefined
    | Null
    | Bool(b: bool)
    | Num(n: int)
    | Str(s: string)
    | Obj(fields: Fields)

  /** An object's properties. JavaScript never lists a name twice; lookups
      and updates here act on the first occurrence. */
  type Fields = seq<(string, Value)>

  /** The property names of an object, in insertion order. */
  function Keys(fs: Fields): (ks: seq<string>)
  {
    seq(|fs|, i requires 0 <= i < |fs| => fs[i].0)
  }

  /** `o[k]` on an object: the value of property `k`, or `undefined`. */
  function Get(fs: Fields, k: string): (v: Value)
    ensures k !in Keys(fs) ==> v == Undefined
  {
    if fs == [] then Undefined
    else
      assert Keys(fs) == [fs[0].0] + Keys(fs[1..]);
      if fs[0].0 == k then fs[0].1 else Get(fs[1..], k)
  }

  /** The object `{...fs, [k]: v}`: a property already present keeps its slot
      and takes the new value, a new property is appended at the end. */
  function Assign(fs: Fields, k: string, v: Value): (r: Fields)
    ensures |r| == if k in Keys(fs) then |fs| else |fs| + 1
  {
    if fs == [] then [(k, v)]
    else
      assert Keys(fs) == [fs[0].0] + Keys(fs[1..]);
      if fs[0].0 == k then [(k, v)] + fs[1..]
      else [fs[0]] + Assign(fs[1..], k, v)
  }

  /** `v === null || v === undefined`, the test behind `??` and `?.`. */
  predicate Nullish(v: Value)
  {
    v == Undefined || v == Null
  }

  /** `v ?? d`. */
  function Coalesce(v: Value, d: Value): Value
  {
    if Nullish(v) then d else v
  }

  /** `v?.k`: `undefined` when `v` is nullish, the property otherwise.
      Properties of primitive values (such as a string's `length`) are not
      modelled and read as `undefined`. */
  function OptionalGet(v: Value, k: string): (r: Value)
    ensures r != Undefined ==> v.Obj? && k in Keys(v.fields)
    ensures v.Obj? ==> r == Get(v.fields, k)
  {
    match v
    case Obj(fs) => Get(fs, k)
    case _ => Undefined
  }

  /** The text a template literal `${v}` inserts for `v`: a string as it
      is, a number in decimal (with a leading `-` when negative). */
  function ToText(v: Value): (t: string)
    ensures v.Str? ==> t == v.s
    ensures v.Num? && v.n >= 0 ==> Digits(t) && DigitsValue(t) == v.n
    ensures v.Num? && v.n < 0 ==> |t| > 1 && t[0] == '-' && Digits(t[1..]) && DigitsValue(t[1..]) == -v.n
  {
    match v
    case Undefined => "undefined"
    case Null => "null"
    case Bool(b) => if b then "true" else "false"
    case Num(n) => if n < 0 then "-" + NatText(-n) else NatText(n)
    case Str(s) => s
    case Obj(_) => "[object Object]"
  }

  /** The shortest decimal text of `n`: its digits read back as `n`, and it
      starts with `0` only when `n` is 0. */
  function NatText(n: nat): (t: string)
    ensures |t| > 0 && Digits(t) && DigitsValue(t) == n
    ensures t[0] == '0' ==> n == 0
  {
    if n < 10 then [DigitChar(n)]
    else
      var t := NatText(n / 10) + [DigitChar(n % 10)];
      assert t[..|t| - 1] == NatText(n / 10);
      t
  }

  function DigitChar(d: nat): (c: char)
    requires d < 10
    ensures '0' <= c <= '9' && c as int - '0' as int == d
  {
    "0123456789"[d]
  }

  /** A non-empty run of decimal digits. */
  predicate Digits(s: string)
  {
    |s| > 0 && forall i :: 0 <= i < |s| ==> '0' <= s[i] <= '9'
  }

  /** The number a run of decimal digits denotes. */
  function DigitsValue(s: string): nat
    requires forall i :: 0 <= i < |s| ==> '0' <= s[i] <= '9'
  {
    if s == [] then 0
    else DigitsValue(s[..|s| - 1]) * 10 + (s[|s| - 1] as int - '0' as int)
  }

  lemma KeysCons(fs: Fields)
    requires fs != []
    ensures Keys(fs) == [fs[0].0] + Keys(fs[1..])
  {
  }

  /** Reading back after `{...fs, [k]: v}` sees `v` at `k` and the old value
      everywhere else. */
  lemma {:induction false} GetAssign(fs: Fields, k: string, v: Value, j: string)
    ensures Get(Assign(fs, k, v), j) == if j == k then v else Get(fs, j)
  {
    if fs != [] && fs[0].0 != k {
      GetAssign(fs[1..], k, v, j);
      assert Assign(fs, k, v)[1..] == Assign(fs[1..], k, v);
    }
  }

  /** The property order after `{...fs, [k]: v}`: unchanged when `k` was
      already a property, `k` appended last otherwise. */
  lemma {:induction false} KeysAssign(fs: Fields, k: string, v: Value)
    ensures Keys(Assign(fs, k, v)) == if k in Keys(fs) then Keys(fs) else Keys(fs) + [k]
  {
    if fs != [] {
      KeysCons(fs);
      KeysCons(Assign(fs, k, v));
      if fs[0].0 != k {
        KeysAssign(fs[1..], k, v);
        assert Assign(fs, k, v)[1..] == Assign(fs[1..], k, v);
      } else {
        assert Assign(fs, k, v)[1..] == fs[1..];
      }
    }
  }

  /** When `k` is not yet a property, the spread-and-set appends `(k, v)`. */
  lemma {:induction false} AssignAppends(fs: Fields, k: string, v: Value)
    requires k !in Keys(fs)
    ensures Assign(fs, k, v) == fs + [(k, v)]
  {
    if fs != [] {
      KeysCons(fs);
      AssignAppends(fs[1..], k, v);
      assert [fs[0]] + (fs[1..] + [(k, v)]) == fs + [(k, v)];
    }
  }

  /** Setting the same property twice is setting it once to the last value. */
  lemma {:induction false} AssignAssign(fs: Fields, k: string, v: Value, w: Value)
    ensures Assign(Assign(fs, k, v), k, w) == Assign(fs, k, w)
  {
    if fs != [] && fs[0].0 != k {
      AssignAssign(fs[1..], k, v, w);
    }
  }
}

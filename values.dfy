/**
 The universe of JavaScript values that the guards of `src/index.ts` are
 applied to, the `typeof` operator (section 13.5.3 of ECMA-262), the loose
 comparison `x != null`, and the own-property read `x[k]` that the object
 guard performs.
 */
module JsValues {

  datatype Option<+T> = None | Some(value: T)

  /** A JavaScript value. Numbers, big integers, symbols and functions carry an
      opaque payload; arrays hold their elements. `Obj` stands for any object
      that is not an array or a function (plain objects, but also dates, maps,
      class instances and boxed primitives), given by its own string-keyed
      properties. */
  datatype Value =
    | Undefined
    | Null
    | Bool(b: bool)
    | Num(n: int)
    | BigInt(i: int)
    | Str(s: string)
    | Sym(id: nat)
    | Func(id: nat)
    | Arr(elems: seq<Value>)
    | Obj(props: map<string, Value>)

  /** The eight results `typeof` can produce, i.e. the keys of `Primitives`. */
  const PrimitiveNames: seq<string> :=
    ["string", "number", "boolean", "bigint", "function", "symbol", "object", "undefined"]

  /** The `typeof` operator. `null` and arrays are both reported as "object". */
  function TypeOf(v: Value): (t: string)
    ensures t in PrimitiveNames
    ensures t == "object" <==> v.Null? || v.Arr? || v.Obj?
    ensures t == "undefined" <==> v.Undefined?
    ensures t == "function" <==> v.Func?
    ensures t == "string" <==> v.Str?
    ensures t == "number" <==> v.Num?
    ensures t == "boolean" <==> v.Bool?
    ensures t == "bigint" <==> v.BigInt?
    ensures t == "symbol" <==> v.Sym?
  {
    match v
    case Undefined => "undefined"
    case Null => "object"
    case Bool(_) => "boolean"
    case Num(_) => "number"
    case BigInt(_) => "bigint"
    case Str(_) => "string"
    case Sym(_) => "symbol"
    case Func(_) => "function"
    case Arr(_) => "object"
    case Obj(_) => "object"
  }

  /** `x == null` under loose equality: true for exactly `null` and `undefined`.
      Together with `typeof x === 'object'` its negation singles out the
      values that have properties to read: objects and arrays. */
  function LooselyEqualsNull(v: Value): (r: bool)
    ensures r ==> TypeOf(v) in ["undefined", "object"]
    ensures (!r && TypeOf(v) == "object") <==> (v.Obj? || v.Arr?)
  {
    v.Null? || v.Undefined?
  }

  predicate IsDigit(c: char) {
    '0' <= c <= '9'
  }

  predicate AllDigits(s: string) {
    forall i :: 0 <= i < |s| ==> IsDigit(s[i])
  }

  function DigitValue(c: char): (d: nat)
    requires IsDigit(c)
    ensures d < 10
  {
    c as int - '0' as int
  }

  function DigitChar(d: nat): (c: char)
    requires d < 10
    ensures IsDigit(c) && DigitValue(c) == d
  {
    ('0' as int + d) as char
  }

  /** The number a string of decimal digits denotes. */
  function DecimalValue(s: string): nat
    requires AllDigits(s)
    decreases |s|
  {
    if |s| == 0 then 0 else 10 * DecimalValue(s[..|s| - 1]) + DigitValue(s[|s| - 1])
  }

  /** The property key of array index `i`: its shortest decimal spelling. */
  function IndexKey(i: nat): (k: string)
    ensures |k| > 0 && AllDigits(k)
    ensures k[0] == '0' ==> i == 0
  {
    if i < 10 then [DigitChar(i)] else IndexKey(i / 10) + [DigitChar(i % 10)]
  }

  /** A key spelled like an array index: decimal digits with no leading zero. */
  predicate IsIndexSpelling(k: string) {
    |k| > 0 && AllDigits(k) && (k[0] == '0' ==> |k| == 1)
  }

  /** The array index a property key names, if it names one. */
  function ParseIndex(k: string): Option<nat> {
    if IsIndexSpelling(k) then Some(DecimalValue(k)) else None
  }

  lemma {:induction false} DecimalValueOfIndexKey(i: nat)
    ensures DecimalValue(IndexKey(i)) == i
  {
    if i >= 10 {
      DecimalValueOfIndexKey(i / 10);
      var k := IndexKey(i);
      assert k[..|k| - 1] == IndexKey(i / 10);
    }
  }

  lemma {:induction false} DecimalValuePositive(k: string)
    requires |k| > 0 && AllDigits(k) && k[0] != '0'
    ensures DecimalValue(k) >= 1
  {
    if |k| > 1 {
      DecimalValuePositive(k[..|k| - 1]);
    }
  }

  lemma {:induction false} IndexKeyOfDecimalValue(k: string)
    requires IsIndexSpelling(k)
    ensures IndexKey(DecimalValue(k)) == k
  {
    if |k| > 1 {
      var p := k[..|k| - 1];
      DecimalValuePositive(p);
      IndexKeyOfDecimalValue(p);
      var n := DecimalValue(k);
      assert n / 10 == DecimalValue(p) && n % 10 == DigitValue(k[|k| - 1]);
      assert IndexKey(n) == p + [DigitChar(n % 10)];
      assert k == p + [k[|k| - 1]];
    }
  }

  /** A key names index `i` exactly when it is the decimal spelling of `i`. */
  lemma ParseIndexIff(k: string, i: nat)
    ensures ParseIndex(k) == Some(i) <==> k == IndexKey(i)
  {
    if k == IndexKey(i) {
      DecimalValueOfIndexKey(i);
    }
    if ParseIndex(k) == Some(i) {
      IndexKeyOfDecimalValue(k);
    }
  }

  /** `x[k]` on an object-kind value: an own property of an `Obj`, or the
      `length` and the elements of an array; anything else reads `undefined`. */
  function Get(x: Value, k: string): (r: Value)
    requires x.Obj? || x.Arr?
    ensures x.Obj? && k in x.props ==> r == x.props[k]
    ensures x.Obj? && k !in x.props ==> r == Undefined
    ensures x.Arr? && k == "length" ==> r == Num(|x.elems|)
  {
    match x
    case Obj(props) => if k in props then props[k] else Undefined
    case Arr(elems) =>
      if k == "length" then Num(|elems|)
      else match ParseIndex(k)
        case Some(i) => if i < |elems| then elems[i] else Undefined
        case None => Undefined
  }

  lemma GetArrayElement(elems: seq<Value>, i: nat)
    requires i < |elems|
    ensures Get(Arr(elems), IndexKey(i)) == elems[i]
  {
    ParseIndexIff(IndexKey(i), i);
    assert IndexKey(i) != "length";
  }

  lemma GetArrayOtherKey(elems: seq<Value>, k: string)
    requires k != "length"
    requires forall i :: 0 <= i < |elems| ==> k != IndexKey(i)
    ensures Get(Arr(elems), k) == Undefined
  {
    match ParseIndex(k)
    case Some(i) =>
      ParseIndexIff(k, i);
    case None =>
  }

  lemma GetObjectMissing(props: map<string, Value>, k: string)
    requires k !in props
    ensures Get(Obj(props), k) == Undefined
  {
  }
}

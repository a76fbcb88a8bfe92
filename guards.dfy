/**
 The guard combinators of `src/index.ts`: `guard`, `matchType`, `isIn`, `is`,
 `isArray` and `isObject`. A guard is a total predicate over JavaScript
 values; each combinator builds one as a closure, as the source does.
 */
module TypeGuards {
  import opened JsValues

  /** `(x: any) => x is T`: at run time no more than a boolean predicate. */
  type TypeGuard = Value -> bool

  /** What a guard position accepts: a `typeof` tag, a list of tags, or a guard. */
  datatype Matcher = Tag(tag: string) | Tags(tags: seq<string>) | G(g: TypeGuard)

  /** An object schema: each declared key with the matcher its value must meet. */
  type Schema = map<string, Matcher>

  /** `Array.prototype.some`: does some element satisfy `p`? */
  function SomeElement<T>(s: seq<T>, p: T -> bool): (r: bool)
    ensures r <==> exists i :: 0 <= i < |s| && p(s[i])
  {
    if |s| == 0 then false
    else if p(s[0]) then true
    else
      var r' := SomeElement(s[1..], p);
      assert forall i :: 1 <= i < |s| ==> s[i] == s[1..][i - 1];
      r'
  }

  /** `Array.prototype.every`: does every element satisfy `p`? */
  function EveryElement<T>(s: seq<T>, p: T -> bool): (r: bool)
    ensures r <==> forall i :: 0 <= i < |s| ==> p(s[i])
  {
    if |s| == 0 then true
    else if !p(s[0]) then false
    else
      var r' := EveryElement(s[1..], p);
      assert forall i :: 1 <= i < |s| ==> s[i] == s[1..][i - 1];
      r'
  }

  /** SameValueZero, with structural equality standing for the host's: it is
      reflexive and never relates values of different kinds. */
  function SameValueZero(a: Value, b: Value): (r: bool)
    ensures a == b ==> r
    ensures r ==> TypeOf(a) == TypeOf(b)
  {
    a == b
  }

  /** `Array.prototype.includes`: a front-to-back search under SameValueZero. */
  function Includes(vs: seq<Value>, x: Value): (r: bool)
    ensures r <==> x in vs
  {
    if |vs| == 0 then false
    else if SameValueZero(vs[0], x) then true
    else
      var r' := Includes(vs[1..], x);
      assert vs == [vs[0]] + vs[1..];
      r'
  }

  /** `guard(f)`: the predicate itself, unchanged. */
  function Guard(f: Value -> bool): (g: TypeGuard)
    ensures g == f
    ensures forall x :: g(x) == f(x)
  {
    f
  }

  /** `matchType(types)`: compare `typeof x` with one tag, or look it up in a list. */
  function MatchType(types: Matcher): (g: TypeGuard)
    requires types.Tag? || types.Tags?
    ensures types.Tag? ==> forall x :: g(x) <==> TypeOf(x) == types.tag
    ensures types.Tags? ==> forall x :: g(x) <==> TypeOf(x) in types.tags
  {
    Guard((x: Value) =>
      var t := TypeOf(x);
      if types.Tags? then SomeElement(types.tags, (u: string) => u == t)
      else types.tag == t)
  }

  /** `isIn(values)`: membership of the tested value in a fixed list. */
  function IsIn(values: seq<Value>): (g: TypeGuard)
    ensures forall x :: g(x) <==> x in values
  {
    Guard(x => Includes(values, x))
  }

  /** `is(types)`: a guard is returned as it is; a tag or tag list becomes the
      `typeof` test of `matchType`. */
  function Is(types: Matcher): (g: TypeGuard)
    ensures types.G? ==> g == types.g
    ensures types.Tag? ==> forall x :: g(x) <==> TypeOf(x) == types.tag
    ensures types.Tags? ==> forall x :: g(x) <==> TypeOf(x) in types.tags
  {
    Guard(if types.G? then types.g else MatchType(types))
  }

  /** `isArray(types)`: an array whose every element meets `is(types)`. */
  function IsArray(types: Matcher): (g: TypeGuard)
    ensures forall x :: g(x) <==> x.Arr? && forall i :: 0 <= i < |x.elems| ==> Is(types)(x.elems[i])
  {
    Guard((x: Value) => x.Arr? && EveryElement(x.elems, Is(types)))
  }

  /** `isObject(obj)`: a non-null object-kind value whose every schema key `k`
      reads a value `x[k]` meeting `is(obj[k])`. */
  function IsObject(obj: Schema): (g: TypeGuard)
    ensures forall x :: g(x) <==>
      (x.Obj? || x.Arr?) && forall k :: k in obj ==> Is(obj[k])(Get(x, k))
  {
    Guard((x: Value) =>
      !LooselyEqualsNull(x) &&
      TypeOf(x) == "object" &&
      forall k | k in obj :: Is(obj[k])(Get(x, k)))
  }

  // Properties of `matchType` and `is`

  /** A tag that is not a `typeof` result rejects everything. */
  lemma MatchTypeUnknownTag(t: string, x: Value)
    requires t !in PrimitiveNames
    ensures !MatchType(Tag(t))(x)
  {
  }

  /** An empty tag list rejects every value. */
  lemma MatchTypeNoTags(x: Value)
    ensures !MatchType(Tags([]))(x)
  {
  }

  /** A tag list accepts exactly what one of its single tags accepts. */
  lemma MatchTypeTagsIsUnion(ts: seq<string>, x: Value)
    ensures MatchType(Tags(ts))(x) <==> exists i :: 0 <= i < |ts| && MatchType(Tag(ts[i]))(x)
  {
  }

  /** `is('object')` accepts `null`, because `typeof null` is "object". */
  lemma IsObjectTagAcceptsNull()
    ensures Is(Tag("object"))(Null)
    ensures !Is(Tag("null"))(Null)
  {
  }

  /** Normalising an already normalised matcher changes nothing. */
  lemma IsIdempotent(m: Matcher)
    ensures Is(G(Is(m))) == Is(m)
  {
  }

  // Properties of `isArray`

  lemma IsArrayCases(types: Matcher, x: Value)
    ensures !x.Arr? ==> !IsArray(types)(x)
    ensures IsArray(types)(Arr([]))
    ensures x.Arr? && |x.elems| > 0 ==>
      (IsArray(types)(x) <==> Is(types)(x.elems[0]) && IsArray(types)(Arr(x.elems[1..])))
  {
  }

  /** Every array `isArray` accepts is also an object to `isObject({})`. */
  lemma IsArrayImpliesObjectKind(types: Matcher, x: Value)
    requires IsArray(types)(x)
    ensures IsObject(map[])(x) && Is(Tag("object"))(x)
  {
  }

  // Properties of `isObject`

  lemma IsObjectRejectsNonObjects(obj: Schema, x: Value)
    requires LooselyEqualsNull(x) || TypeOf(x) != "object"
    ensures !IsObject(obj)(x)
  {
  }

  /** An empty schema accepts every non-null object, arrays included. */
  lemma IsObjectEmptySchema(x: Value)
    ensures IsObject(map[])(x) <==> x.Obj? || x.Arr?
  {
  }

  /** Keys outside the schema never affect the verdict. */
  lemma IsObjectIgnoresExtraKeys(obj: Schema, props: map<string, Value>, extra: map<string, Value>)
    requires forall k :: k in extra ==> k !in obj
    ensures IsObject(obj)(Obj(props + extra)) == IsObject(obj)(Obj(props))
  {
    forall k | k in obj
      ensures Get(Obj(props + extra), k) == Get(Obj(props), k)
    {
    }
  }

  /** A declared key the value lacks reads as `undefined`: the object passes
      iff that key's matcher accepts `undefined` and the other keys pass. */
  lemma IsObjectMissingKey(obj: Schema, props: map<string, Value>, k: string)
    requires k in obj && k !in props
    ensures IsObject(obj)(Obj(props)) <==>
      Is(obj[k])(Undefined) &&
      forall k' :: k' in obj && k' != k ==> Is(obj[k'])(Get(Obj(props), k'))
  {
  }

  /** The verdict on an `Obj` value depends only on its entries for schema keys. */
  lemma IsObjectRestrict(obj: Schema, props: map<string, Value>)
    ensures IsObject(obj)(Obj(props)) == IsObject(obj)(Obj(map k | k in props && k in obj :: props[k]))
  {
  }

  /** A one-key schema `{[k]: m}` tests exactly the value read at `k`. */
  lemma IsObjectSingleKey(k: string, m: Matcher, x: Value)
    ensures IsObject(map[k := m])(x) <==> (x.Obj? || x.Arr?) && Is(m)(Get(x, k))
  {
  }

  // Properties of `isIn`

  /** `isIn` imposes no kind restriction: a list may mix kinds. */
  lemma IsInAnyKind(values: seq<Value>, i: nat)
    requires i < |values|
    ensures IsIn(values)(values[i])
  {
  }
}

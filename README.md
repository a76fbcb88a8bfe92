# simple-type-guards in Dafny

A model of the runtime behaviour of the `simple-type-guards` combinator
library (`src/index.ts`). The library builds *guards*: total boolean
predicates over arbitrary JavaScript values. There are six combinators:

- `guard(f)` lifts a predicate and is the identity at run time.
- `matchType(types)` tests `typeof x` against one tag, or against a list of tags.
- `is(types)` normalises a *matcher*. A matcher is a tag, a tag list, or a guard.
  A guard comes back unchanged; a tag or a tag list becomes a `matchType` guard.
- `isArray(types)` accepts arrays whose every element passes `is(types)`.
- `isObject(schema)` accepts non-null object-kind values. Every schema key `k`
  must read a value `x[k]` that passes `is(schema[k])`. Extra keys are ignored.
- `isIn(values)` tests membership with `Array.prototype.includes`.

Files:

- `values.dfy` (module `JsValues`) holds the value universe `Value`:
  undefined, null, booleans, numbers, big integers, strings, symbols, functions,
  arrays and other objects. `Obj` stands for any object that is neither an
  array nor a function (plain objects, dates, maps, class instances, boxed
  primitives), given by its own string-keyed properties. It also holds
  `TypeOf`, the `typeof` operator of
  section 13.5.3 of ECMA-262 (`typeof null` and `typeof []` are both
  `"object"`), and the loose test `x == null`. Last, it holds `Get`, the read
  `x[k]` on an object-kind value. On an array, `Get` reads `length` and the
  elements through their decimal index keys. This needs a proved round trip
  between an index and its key.
- `guards.dfy` (module `TypeGuards`) holds the combinators. They are Dafny
  functions that return closures of type `Value -> bool`, built through
  `Guard` as the source does. It also holds `some`/`every`/`includes` as
  recursive functions whose contracts give their meaning, and the lemmas.
- `examples.dfy` (module `GuardExamples`) holds concrete verdicts: tag lists,
  arrays, open schemas, missing keys, nested guards and membership lists.

Only the runtime behaviour is modelled. The TypeScript types (`Primitives`,
`ValueOf`, `Flatten`, `Matcher`, `MatchedType`, `PrimitiveName` and the mapped
return type of `isObject`) are compile-time narrowing and have no runtime effect.

## Model

| member | source | states |
|---|---|---|
| JsValues.TypeOf | src/index.ts:31 | `typeof` yields one of the eight primitive names, and each name is given for exactly one group of values: "object" for null, arrays and objects, and "string", "number", "boolean", "bigint", "symbol", "function" and "undefined" for the matching values. |
| JsValues.LooselyEqualsNull | src/index.ts:54 | `x == null` holds only for values whose `typeof` is "undefined" or "object". Its negation together with `typeof x === 'object'` holds exactly for objects and arrays. |
| JsValues.Get | src/index.ts:56 | `x[k]` reads an own key of an `Obj` and gives `undefined` when the key is absent. On an array it reads `length` as the number of elements. Array index keys are covered by GetArrayElement and GetArrayOtherKey, and absent object keys also by GetObjectMissing. |
| JsValues.ParseIndexIff | src/index.ts:56 | A property key names array index `i` if and only if it is the decimal spelling of `i`. |
| JsValues.GetArrayElement | src/index.ts:56 | Reading an array at the key of index `i < length` gives element `i`. |
| JsValues.GetArrayOtherKey | src/index.ts:56 | Reading an array at a key that is neither `length` nor an index key gives `undefined`. |
| JsValues.GetObjectMissing | src/index.ts:56 | Reading an `Obj` at a key it does not have gives `undefined`. |
| TypeGuards.SomeElement | src/index.ts:34 | `some` is true iff at least one element satisfies the predicate. |
| TypeGuards.EveryElement | src/index.ts:48 | `every` is true iff all elements satisfy the predicate, so it is true on an empty array. |
| TypeGuards.SameValueZero | src/index.ts:40 | The comparison `includes` makes. Structural equality stands in for the host's equality: every value equals itself, and values of different `typeof` are never equal. |
| TypeGuards.Includes | src/index.ts:40 | `includes` is true iff the value occurs in the list. |
| TypeGuards.Guard | src/index.ts:25-27 | `guard(f)` is `f` itself and agrees with `f` on every input. |
| TypeGuards.MatchType | src/index.ts:29-36 | For a tag `t`, the guard accepts `x` iff `typeof x === t`. For a tag list, it accepts `x` iff `typeof x` is an entry of the list. |
| TypeGuards.IsIn | src/index.ts:39-41 | `isIn(vs)` accepts `x` iff `x` occurs in `vs`. |
| TypeGuards.Is | src/index.ts:43-45 | `is(G)` is `G` itself for a guard. For a tag or tag list, `is` gives the `typeof` test of `matchType`. |
| TypeGuards.IsArray | src/index.ts:47-49 | `isArray(M)` accepts `x` iff `x` is an array and every element passes `is(M)`. |
| TypeGuards.IsObject | src/index.ts:54-56 | `isObject(S)` accepts `x` iff `x` is an `Obj` or an array and every key `k` of `S` has `is(S[k])(x[k])`. |
| TypeGuards.MatchTypeUnknownTag | src/index.ts:29-36 | A tag that no `typeof` result equals rejects every value. |
| TypeGuards.MatchTypeNoTags | src/index.ts:33-34 | An empty tag list rejects every value. |
| TypeGuards.MatchTypeTagsIsUnion | src/index.ts:33-35 | A tag list accepts exactly the values that one of its single tags accepts. |
| TypeGuards.IsObjectTagAcceptsNull | src/index.ts:43-45 | `is('object')` accepts `null`, and a tag `"null"` does not. |
| TypeGuards.IsIdempotent | src/index.ts:44 | `is(is(M))` is the same guard as `is(M)`. |
| TypeGuards.IsArrayCases | src/index.ts:47-49 | `isArray(M)` rejects every non-array and accepts `[]`. On a non-empty array it is the head's verdict and the tail's verdict. |
| TypeGuards.IsArrayImpliesObjectKind | src/index.ts:47-56 | A value `isArray` accepts is also accepted by `isObject({})` and by `is('object')`. |
| TypeGuards.IsObjectRejectsNonObjects | src/index.ts:54-55 | `isObject(S)` rejects null, undefined and every value whose `typeof` is not "object". |
| TypeGuards.IsObjectEmptySchema | src/index.ts:54-56 | `isObject({})` accepts exactly the `Obj` values and arrays. |
| TypeGuards.IsObjectIgnoresExtraKeys | src/index.ts:56 | Adding keys outside the schema to an object does not change the verdict. |
| TypeGuards.IsObjectMissingKey | src/index.ts:56 | If a schema key is missing from an `Obj`, the object passes iff that key's matcher accepts `undefined` and every other schema key passes. |
| TypeGuards.IsObjectRestrict | src/index.ts:56 | The verdict on an `Obj` value depends only on its entries for the schema's keys. |
| TypeGuards.IsObjectSingleKey | src/index.ts:54-56 | A one-key schema `{[k]: M}` accepts an object-kind value iff `is(M)` accepts its `x[k]`. |
| TypeGuards.IsInAnyKind | src/index.ts:39-41 | Every listed value passes `isIn`, whatever its kind. |
| GuardExamples.TagListExamples | src/index.ts:33-34 | `is(['string','number'])` accepts 5 and rejects `true`. A function fails `is('object')`. |
| GuardExamples.ArrayExamples | src/index.ts:47-49 | `isArray('string')` accepts `['a','b']` and rejects `['a',2]`, `null` and `undefined`. |
| GuardExamples.ObjectExtraKeyExample | src/index.ts:54-56 | `isObject({name:'string', age:'number'})` accepts `{name:'Al', age:30, extra:true}`. |
| GuardExamples.ObjectMissingKeyExample | src/index.ts:56 | The same schema rejects `{name:'Al'}`, because `age` reads `undefined`. |
| GuardExamples.ArrayAsObjectExample | src/index.ts:54-56 | `isObject({length:'number'})` accepts `[]`. |
| GuardExamples.NestingAcceptsExample | src/index.ts:48-56 | `isObject({tags: isArray('string')})` accepts `{tags:['a','b']}`. |
| GuardExamples.NestingRejectsExample | src/index.ts:48-56 | The same guard rejects `{tags:['a',2]}`. |
| GuardExamples.MembershipExamples | src/index.ts:39-41 | `isIn([1,2,3])` accepts 2 and rejects 4. A mixed-kind list accepts its `null`. |

## Left out

- Type-level machinery (src/index.ts:1-23, 51-53). It affects only compile-time narrowing and has no runtime behaviour.
- IEEE-754 numbers. `Num` carries an integer payload. SameValueZero is structural equality, so NaN and the signed zeros are not modelled.
- SameValueZero: compares arrays and objects structurally, while `includes` compares them by reference. So two distinct but equal arrays count as the same member of an `isIn` list.
- Property reads beyond own keys. There is no prototype chain: `({}).toString` reads `undefined` here. Getters, symbol keys, non-enumerable properties and own properties of functions are not modelled.
- The order in which `Object.entries` and `every` visit keys and elements. Dafny functions have no effects, so order cannot change a verdict.
- The extra arguments `every` passes to its callback (the index and the array). A user guard that inspects them is not modelled.
- Arrays with extra own named properties, such as the `index` field of a RegExp match result. `Arr` holds only elements, so `isObject({index:'number'})` rejects such a value, while JS accepts it.
- Strings as UTF-16 code units. Dafny strings are sequences of Unicode scalar values, so a string or key with a lone surrogate cannot be represented. The core only compares strings for equality, so no verdict on a representable string changes.
- Holes in sparse arrays, which `every` skips. `Arr` is always dense.
- The array index bound 2^32 - 2. Sequences are unbounded, so every decimal key below the length counts as an index.
- Host-object `typeof` quirks, such as `document.all`.
- Caller misuse that throws, such as a non-callable value in a guard position. The source does not handle it. A `Matcher` is always a tag, a tag list or a guard.
- The TODO at src/index.ts:60-61. It describes a change that does not exist.
- Determinism of guards holds trivially, because Dafny functions are deterministic. No lemma states it.

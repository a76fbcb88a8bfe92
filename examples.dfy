/**
 Concrete verdicts of the guards on small values: tag lists, arrays, open
 object schemas, nesting and membership lists.
 */
module GuardExamples {
  import opened JsValues
  import opened TypeGuards

  lemma TagListExamples()
    ensures Is(Tags(["string", "number"]))(Num(5))
    ensures !Is(Tags(["string", "number"]))(Bool(true))
    ensures Is(Tags(["function"]))(Func(0))
    ensures !Is(Tag("object"))(Func(0))
  {
  }

  lemma ArrayExamples()
    ensures IsArray(Tag("string"))(Arr([Str("a"), Str("b")]))
    ensures !IsArray(Tag("string"))(Arr([Str("a"), Num(2)]))
    ensures !IsArray(Tag("string"))(Null)
    ensures !IsArray(Tag("string"))(Undefined)
  {
  }

  /** `{name: 'string', age: 'number'}` accepts an object with an extra key. */
  lemma ObjectExtraKeyExample()
    ensures IsObject(map["name" := Tag("string"), "age" := Tag("number")])
      (Obj(map["name" := Str("Al"), "age" := Num(30), "extra" := Bool(true)]))
  {
  }

  /** The same schema rejects an object without `age`, read as `undefined`. */
  lemma ObjectMissingKeyExample()
    ensures !IsObject(map["name" := Tag("string"), "age" := Tag("number")])
      (Obj(map["name" := Str("Al")]))
  {
    var schema := map["name" := Tag("string"), "age" := Tag("number")];
    IsObjectMissingKey(schema, map["name" := Str("Al")], "age");
    assert !Is(schema["age"])(Undefined);
  }

  /** An array is an object whose `length` can be read. */
  lemma ArrayAsObjectExample()
    ensures IsObject(map["length" := Tag("number")])(Arr([]))
  {
  }

  lemma NestingAcceptsExample()
    ensures IsObject(map["tags" := G(IsArray(Tag("string")))])
      (Obj(map["tags" := Arr([Str("a"), Str("b")])]))
  {
  }

  lemma NestingRejectsExample()
    ensures !IsObject(map["tags" := G(IsArray(Tag("string")))])
      (Obj(map["tags" := Arr([Str("a"), Num(2)])]))
  {
    var x := Obj(map["tags" := Arr([Str("a"), Num(2)])]);
    ArrayExamples();
    IsObjectSingleKey("tags", G(IsArray(Tag("string"))), x);
    assert Get(x, "tags") == Arr([Str("a"), Num(2)]);
  }

  lemma MembershipExamples()
    ensures IsIn([Num(1), Num(2), Num(3)])(Num(2))
    ensures !IsIn([Num(1), Num(2), Num(3)])(Num(4))
    ensures IsIn([Str("a"), Num(1), Null])(Null)
  {
  }
}

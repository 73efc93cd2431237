/** The request-body validator of the example module
    (src/app/module/example/example.model.ts). */
module ExampleModel {
  import opened Common
  import opened Validator

  const EXAMPLE_SCHEMA := ObjectSchema([
    Property("foo", StringSchema(2, None), false),
    Property("bar", NumberSchema(Some(1)), false)])

  /** `example(data).validate()`: no message exactly when `foo` is a string of two
      or more characters and `bar` a number of at least 1. */
  function Example(data: Json): (messages: seq<string>)
    ensures messages == [] <==> (data.JObj?
      && StringAt(data.fields, "foo", 2)
      && "bar" in data.fields && data.fields["bar"].JNum? && data.fields["bar"].n >= 1)
  {
    var ps := EXAMPLE_SCHEMA.properties;
    assert ps[0].name == "foo" && ps[1].name == "bar";
    ValidateSchema(EXAMPLE_SCHEMA, data)
  }

  function ExampleBody(foo: string, bar: int): Json {
    JObj(map["foo" := JStr(foo), "bar" := JNum(bar)])
  }

  lemma ExampleBodyFields(foo: string, bar: int)
    ensures var f := ExampleBody(foo, bar).fields;
      "foo" in f && f["foo"] == JStr(foo) && "bar" in f && f["bar"] == JNum(bar)
  {
  }

  /** The example tests: `{foo: 'test', bar: 1}` passes; an empty `foo`, a `bar`
      of 0, or both, are refused. */
  lemma ExampleTestCases()
    ensures Example(ExampleBody("test", 1)) == []
    ensures Example(ExampleBody("", 1)) != []
    ensures Example(ExampleBody("", 0)) != []
    ensures Example(ExampleBody("test", 0)) != []
  {
    ExampleBodyFields("test", 1);
    ExampleBodyFields("", 1);
    ExampleBodyFields("", 0);
    ExampleBodyFields("test", 0);
  }

  /** When both fields fail, both are reported, `foo` first. */
  lemma BothFieldsReported()
    ensures Example(ExampleBody("", 0)) ==
      ["Expected string length greater or equal to 2 of /foo",
       "Expected number to be greater or equal to 1 of /bar"]
  {
    var body := ExampleBody("", 0);
    BothFieldErrors(body);
    BothFieldMessages();
    var messages := Example(body);
    assert |messages| == 2;
  }

  lemma BothFieldMessages()
    ensures Describe(StringMinLength(2)) + " of " + "/foo" == "Expected string length greater or equal to 2 of /foo"
    ensures Describe(NumberMinimum(1)) + " of " + "/bar" == "Expected number to be greater or equal to 1 of /bar"
  {
    assert NatToString(2) == "2" && IntToString(1) == "1";
  }

  lemma BothFieldErrors(body: Json)
    requires body == ExampleBody("", 0)
    ensures Errors(EXAMPLE_SCHEMA, body) == [ValueError(StringMinLength(2), "/foo"), ValueError(NumberMinimum(1), "/bar")]
  {
    ExampleBodyFields("", 0);
    var ps := EXAMPLE_SCHEMA.properties;
    assert PropertyErrors(ps[1..], body.fields) == [ValueError(NumberMinimum(1), "/bar")] by {
      assert ps[1..][1..] == [];
      assert PropertyErrors(ps[1..][1..], body.fields) == [];
      assert ps[1..][0] == Property("bar", NumberSchema(Some(1)), false);
      assert FieldErrors(NumberSchema(Some(1)), JNum(0), "/bar") == [ValueError(NumberMinimum(1), "/bar")];
      assert "/" + "bar" == "/bar";
    }
    assert ps[0] == Property("foo", StringSchema(2, None), false);
    assert FieldErrors(StringSchema(2, None), JStr(""), "/foo") == [ValueError(StringMinLength(2), "/foo")];
    assert "/" + "foo" == "/foo";
  }
}

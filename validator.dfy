/** The string formats registered with the schema library and `validateSchema`
    (src/lib/validator.ts), over a model of the JSON request body and of the
    object schemas the model files declare. */
module Validator {
  import opened Common

  // ---------------------------------------------------------------------------
  // The 'password' format: 8 to 16 characters, `/[0-9]/`, `/[a-zA-Z]/`, `/[A-Z]/`.

  datatype CharClass = Digit | Letter | Upper

  predicate InClass(c: char, cls: CharClass) {
    match cls
    case Digit => '0' <= c <= '9'
    case Letter => 'a' <= c <= 'z' || 'A' <= c <= 'Z'
    case Upper => 'A' <= c <= 'Z'
  }

  /** `/[class]/.test(s)`: scanning s for a character of the class. */
  function Test(s: string, cls: CharClass): bool {
    |s| > 0 && (InClass(s[0], cls) || Test(s[1..], cls))
  }

  /** The scan finds a character exactly when one is there. */
  lemma {:induction false} TestFinds(s: string, cls: CharClass)
    ensures Test(s, cls) <==> exists k :: 0 <= k < |s| && InClass(s[k], cls)
  {
    if |s| > 0 {
      TestFinds(s[1..], cls);
      if Test(s[1..], cls) {
        var k :| 0 <= k < |s| - 1 && InClass(s[1..][k], cls);
        assert InClass(s[k + 1], cls);
      }
      if exists k :: 0 <= k < |s| && InClass(s[k], cls) {
        var k :| 0 <= k < |s| && InClass(s[k], cls);
        if k > 0 { assert InClass(s[1..][k - 1], cls); }
      }
    }
  }

  const PASSWORD_MIN_LENGTH := 8
  const PASSWORD_MAX_LENGTH := 16

  /** The 'password' format check. */
  function Password(value: string): bool {
    if |value| < PASSWORD_MIN_LENGTH || |value| > PASSWORD_MAX_LENGTH then false
    else Test(value, Digit) && Test(value, Letter) && Test(value, Upper)
  }

  /** A password is accepted exactly when it has 8 to 16 characters, one of them an
      ASCII digit and one an ASCII capital; the letter test adds nothing. */
  lemma PasswordAccepts(value: string)
    ensures Password(value) <==>
      PASSWORD_MIN_LENGTH <= |value| <= PASSWORD_MAX_LENGTH
      && (exists k :: 0 <= k < |value| && '0' <= value[k] <= '9')
      && (exists k :: 0 <= k < |value| && 'A' <= value[k] <= 'Z')
  {
    TestFinds(value, Digit);
    TestFinds(value, Letter);
    TestFinds(value, Upper);
    if exists k :: 0 <= k < |value| && 'A' <= value[k] <= 'Z' {
      var k :| 0 <= k < |value| && 'A' <= value[k] <= 'Z';
      assert InClass(value[k], Upper) && InClass(value[k], Letter);
    }
    if exists k :: 0 <= k < |value| && '0' <= value[k] <= '9' {
      var k :| 0 <= k < |value| && '0' <= value[k] <= '9';
      assert InClass(value[k], Digit);
    }
  }

  /** Both bounds are inclusive; a string outside them is refused whatever it holds. */
  lemma PasswordLengthBounds(value: string)
    ensures |value| < 8 || |value| > 16 ==> !Password(value)
    ensures Password("12345Abc") && Password("Abcdefghijklmno1")
  {
    assert Test("12345Abc", Digit) && Test("12345Abc", Upper);
    assert Test("12345Abc", Letter);
    assert Test("Abcdefghijklmno1", Upper) && Test("Abcdefghijklmno1", Letter);
    assert "Abcdefghijklmno1"[15] == '1';
    TestFinds("Abcdefghijklmno1", Digit);
  }

  /** The rejected passwords of the account tests. */
  lemma PasswordTestCases()
    ensures !Password("") && !Password("abcdefgh") && !Password("12345678")
  {
    TestFinds("abcdefgh", Upper);
    TestFinds("12345678", Upper);
  }

  // ---------------------------------------------------------------------------
  // The 'email' format: `/^[^\s@]+@[^\s@]+\.[^\s@]+$/`.

  /** A character that `\s` matches in a JavaScript regular expression. */
  predicate IsWhitespace(c: char) {
    c == '\t' || c == '\n' || c == '\U{B}' || c == '\U{C}' || c == '\r' || c == ' '
    || c == '\U{A0}' || c == '\U{1680}' || '\U{2000}' <= c <= '\U{200A}'
    || c == '\U{2028}' || c == '\U{2029}' || c == '\U{202F}' || c == '\U{205F}'
    || c == '\U{3000}' || c == '\U{FEFF}'
  }

  /** A character `[^\s@]` matches. */
  predicate Plain(c: char) {
    !IsWhitespace(c) && c != '@'
  }

  predicate AllPlain(s: string) {
    forall k :: 0 <= k < |s| ==> Plain(s[k])
  }

  /** The part after `@`: plain characters with a `.` that is neither the first
      nor the last of them. */
  predicate Host(h: string) {
    AllPlain(h) && exists j :: 0 < j < |h| - 1 && h[j] == '.'
  }

  /** The 'email' format check, written as a scan for the first `@`. */
  function Email(value: string): bool {
    match IndexOf(value, '@')
    case None => false
    case Some(i) => i > 0 && AllPlain(value[..i]) && Host(value[i + 1..])
  }

  /** The regular expression's own reading: a non-empty run of plain characters,
      `@`, a non-empty run, `.`, a non-empty run, and nothing else. */
  ghost predicate EmailPattern(value: string) {
    exists i, j :: 0 < i && i + 1 < j && j + 1 < |value| && value[i] == '@' && value[j] == '.'
      && AllPlain(value[..i]) && AllPlain(value[i + 1..j]) && AllPlain(value[j + 1..])
  }

  /** The scan accepts exactly the strings the regular expression matches. */
  lemma EmailMatchesPattern(value: string)
    ensures Email(value) <==> EmailPattern(value)
  {
    if Email(value) { EmailGivesPattern(value); }
    if EmailPattern(value) {
      var i, j :| 0 < i && i + 1 < j && j + 1 < |value| && value[i] == '@' && value[j] == '.'
        && AllPlain(value[..i]) && AllPlain(value[i + 1..j]) && AllPlain(value[j + 1..]);
      PatternGivesEmail(value, i, j);
    }
  }

  lemma EmailGivesPattern(value: string)
    requires Email(value)
    ensures EmailPattern(value)
  {
    var i := IndexOf(value, '@').value;
    var h := value[i + 1..];
    var j' :| 0 < j' < |h| - 1 && h[j'] == '.';
    var j := i + 1 + j';
    assert value[j] == '.';
    assert value[i + 1..j] == h[..j'];
    assert value[j + 1..] == h[j' + 1..];
  }

  lemma PatternGivesEmail(value: string, i: nat, j: nat)
    requires 0 < i && i + 1 < j && j + 1 < |value| && value[i] == '@' && value[j] == '.'
    requires AllPlain(value[..i]) && AllPlain(value[i + 1..j]) && AllPlain(value[j + 1..])
    ensures Email(value)
  {
    FirstAt(value, i);
    var h := value[i + 1..];
    forall k | 0 <= k < |h| ensures Plain(h[k]) {
      if k < j - i - 1 { assert h[k] == value[i + 1..j][k]; }
      else if k > j - i - 1 { assert h[k] == value[j + 1..][k - (j - i)]; }
    }
    assert h[j - i - 1] == '.';
  }

  /** An `@` preceded only by plain characters is the first `@`. */
  lemma FirstAt(value: string, i: nat)
    requires i < |value| && value[i] == '@' && AllPlain(value[..i])
    ensures IndexOf(value, '@') == Some(i)
  {
    forall k | 0 <= k < i ensures value[k] != '@' {
      assert Plain(value[..i][k]);
    }
    assert value[i] in value;
  }

  /** A host without a dot is refused, which is why `<uuid>@mail` fails. */
  lemma EmailNeedsDotInHost(local: string, host: string)
    requires '.' !in host
    ensures !Email(local + "@" + host)
  {
    var s := local + "@" + host;
    assert s[|local|] == '@';
    assert s[|local|] in s;
    var i := IndexOf(s, '@').value;
    assert i <= |local|;
    var h := s[i + 1..];
    if i < |local| {
      assert h[|local| - i - 1] == '@';
      assert !Plain(h[|local| - i - 1]);
    } else {
      assert h == host;
    }
  }

  /** Lower-case ASCII letters, digits and dots are all plain characters. */
  lemma SimpleTextIsPlain(t: string)
    requires forall k :: 0 <= k < |t| ==> 'a' <= t[k] <= 'z' || t[k] == '.'
    ensures AllPlain(t)
  {
  }

  /** The address the account tests register with is accepted. */
  lemma EmailTestCase()
    ensures Email("testing@email.com")
  {
    var s := "testing@email.com";
    assert s[7] == '@' && s[13] == '.';
    assert s[..7] == "testing" && s[8..13] == "email" && s[14..] == "com";
    SimpleTextIsPlain("testing");
    SimpleTextIsPlain("email");
    SimpleTextIsPlain("com");
    PatternGivesEmail(s, 7, 13);
  }

  // ---------------------------------------------------------------------------
  // The request body and the object schemas.

  /** A parsed JSON value; numbers are the integers the schemas compare. */
  datatype Json =
    | JNull
    | JBool(b: bool)
    | JNum(n: int)
    | JStr(s: string)
    | JArr(items: seq<Json>)
    | JObj(fields: map<string, Json>)

  datatype Format = EmailFormat | PasswordFormat

  /** `Type.String({ minLength, format })` and `Type.Number({ minimum })`. A
      `minLength` of 0 is no bound. */
  datatype FieldSchema =
    | StringSchema(minLength: nat, format: Option<Format>)
    | NumberSchema(minimum: Option<int>)

  /** One entry of `Type.Object({...})`; `optional` is `Type.Optional(...)`. */
  datatype Property = Property(name: string, schema: FieldSchema, optional: bool)

  datatype ObjectSchema = ObjectSchema(properties: seq<Property>)

  function CheckFormat(format: Format, value: string): bool {
    match format
    case EmailFormat => Email(value)
    case PasswordFormat => Password(value)
  }

  /** What the schema library checks of one field; a reference definition. */
  predicate FieldMatches(schema: FieldSchema, value: Json) {
    match schema
    case StringSchema(minLength, format) =>
      value.JStr? && |value.s| >= minLength && (format.Some? ==> CheckFormat(format.value, value.s))
    case NumberSchema(minimum) =>
      value.JNum? && (minimum.Some? ==> value.n >= minimum.value)
  }

  predicate PropertyMatches(p: Property, fields: map<string, Json>) {
    if p.name in fields then FieldMatches(p.schema, fields[p.name]) else p.optional
  }

  /** The data is an object and every declared property is valid or, when
      optional, absent. Undeclared properties are allowed. */
  predicate Matches(schema: ObjectSchema, data: Json) {
    data.JObj? && forall k :: 0 <= k < |schema.properties| ==> PropertyMatches(schema.properties[k], data.fields)
  }

  datatype ErrorKind =
    | ExpectedObject
    | RequiredProperty
    | ExpectedString
    | StringMinLength(length: nat)
    | StringFormat(format: Format)
    | ExpectedNumber
    | NumberMinimum(limit: int)

  /** One item of `Value.Errors(schema, data)`. */
  datatype ValueError = ValueError(kind: ErrorKind, path: string)

  /** The errors of one field, in the order the checks are made. */
  function FieldErrors(schema: FieldSchema, value: Json, path: string): seq<ValueError> {
    match schema
    case StringSchema(minLength, format) =>
      if !value.JStr? then [ValueError(ExpectedString, path)]
      else
        (if |value.s| < minLength then [ValueError(StringMinLength(minLength), path)] else [])
        + (if format.Some? && !CheckFormat(format.value, value.s) then [ValueError(StringFormat(format.value), path)] else [])
    case NumberSchema(minimum) =>
      if !value.JNum? then [ValueError(ExpectedNumber, path)]
      else if minimum.Some? && value.n < minimum.value then [ValueError(NumberMinimum(minimum.value), path)]
      else []
  }

  /** The errors of the properties, property by property in declaration order. */
  function PropertyErrors(properties: seq<Property>, fields: map<string, Json>): seq<ValueError> {
    if properties == [] then []
    else
      var p := properties[0];
      var path := "/" + p.name;
      var here :=
        if p.name in fields then FieldErrors(p.schema, fields[p.name], path)
        else if p.optional then []
        else [ValueError(RequiredProperty, path)];
      here + PropertyErrors(properties[1..], fields)
  }

  /** `Value.Errors(schema, data)` */
  function Errors(schema: ObjectSchema, data: Json): seq<ValueError> {
    if !data.JObj? then [ValueError(ExpectedObject, "")]
    else PropertyErrors(schema.properties, data.fields)
  }

  lemma FieldErrorsEmpty(schema: FieldSchema, value: Json, path: string)
    ensures FieldErrors(schema, value, path) == [] <==> FieldMatches(schema, value)
  {
  }

  lemma {:induction false} PropertyErrorsEmpty(properties: seq<Property>, fields: map<string, Json>)
    ensures PropertyErrors(properties, fields) == [] <==>
      forall k :: 0 <= k < |properties| ==> PropertyMatches(properties[k], fields)
  {
    if properties != [] {
      var p := properties[0];
      PropertyErrorsEmpty(properties[1..], fields);
      if p.name in fields { FieldErrorsEmpty(p.schema, fields[p.name], "/" + p.name); }
      if forall k :: 0 <= k < |properties| - 1 ==> PropertyMatches(properties[1..][k], fields) {
        if PropertyMatches(p, fields) {
          forall k | 0 <= k < |properties| ensures PropertyMatches(properties[k], fields) {
            if k > 0 { assert properties[k] == properties[1..][k - 1]; }
          }
        }
      }
      if forall k :: 0 <= k < |properties| ==> PropertyMatches(properties[k], fields) {
        forall k | 0 <= k < |properties| - 1 ensures PropertyMatches(properties[1..][k], fields) {
          assert properties[1..][k] == properties[k + 1];
        }
        assert PropertyMatches(properties[0], fields);
      }
    }
  }

  /** The schema library reports no error exactly when the data matches. */
  lemma ErrorsEmptyIffMatches(schema: ObjectSchema, data: Json)
    ensures Errors(schema, data) == [] <==> Matches(schema, data)
  {
    if data.JObj? { PropertyErrorsEmpty(schema.properties, data.fields); }
  }

  function FormatName(format: Format): string {
    match format
    case EmailFormat => "email"
    case PasswordFormat => "password"
  }

  /** The message text the schema library gives each kind of error. */
  function Describe(kind: ErrorKind): string {
    match kind
    case ExpectedObject => "Expected object"
    case RequiredProperty => "Expected required property"
    case ExpectedString => "Expected string"
    case StringMinLength(length) => "Expected string length greater or equal to " + NatToString(length)
    case StringFormat(format) => "Expected string to match '" + FormatName(format) + "' format"
    case ExpectedNumber => "Expected number"
    case NumberMinimum(limit) => "Expected number to be greater or equal to " + IntToString(limit)
  }

  /** validateSchema: one `"<message> of <path>"` per error, in error order; no
      message exactly when the data matches the schema. */
  function ValidateSchema(schema: ObjectSchema, data: Json): (messages: seq<string>)
    ensures |messages| == |Errors(schema, data)|
    ensures forall k :: 0 <= k < |messages| ==>
      messages[k] == Describe(Errors(schema, data)[k].kind) + " of " + Errors(schema, data)[k].path
    ensures messages == [] <==> Matches(schema, data)
  {
    var errors := Errors(schema, data);
    ErrorsEmptyIffMatches(schema, data);
    seq(|errors|, k requires 0 <= k < |errors| => Describe(errors[k].kind) + " of " + errors[k].path)
  }

  // ---------------------------------------------------------------------------
  // Readings of one field of a request body, used to state what each model
  // file's validator accepts.

  /** A string field with at least `minLength` characters. */
  predicate StringAt(fields: map<string, Json>, name: string, minLength: nat) {
    name in fields && fields[name].JStr? && |fields[name].s| >= minLength
  }

  /** A string field in the 'email' format. */
  predicate EmailAt(fields: map<string, Json>, name: string) {
    name in fields && fields[name].JStr? && Email(fields[name].s)
  }

  /** A string field in the 'password' format. */
  predicate PasswordAt(fields: map<string, Json>, name: string) {
    name in fields && fields[name].JStr? && Password(fields[name].s)
  }
}
